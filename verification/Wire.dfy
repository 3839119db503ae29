/**
 * The bytes a bundle's signature covers (src/federation/wire.rs:782-816).
 *
 * Records enter as the bytes their own encoder gives; lengths and counts are written as
 * 64-bit integers, so what is claimed is claimed below that width.
 */
module Wire {
  import opened Bytes

  /** "idnx-federation-v1\n". */
  const BUNDLE_TAG: Text := [105, 100, 110, 120, 45, 102, 101, 100, 101, 114, 97, 116, 105, 111, 110, 45, 118, 49, 10]

  /** What is signed. */
  datatype Signed = Signed(version: nat, peer: Text, vantage: Text, sequence: nat, publishedAt: nat,
                           records: seq<seq<Byte>>)

  /** What the source's integer and length types allow. */
  predicate Fits(b: Signed) {
    && b.version < U16 && b.sequence < U64 && b.publishedAt < U64
    && |b.peer| < U64 && |b.vantage| < U64 && |b.records| < U64
    && forall i :: 0 <= i < |b.records| ==> |b.records[i]| < U64
  }

  function Field(bytes: seq<Byte>): seq<Byte> {
    Big(|bytes|, 8) + bytes
  }

  function Fields(list: seq<seq<Byte>>): seq<Byte> {
    if list == [] then [] else Field(list[0]) + Fields(list[1..])
  }

  function Header(b: Signed): seq<Byte> {
    BUNDLE_TAG + Big(b.version, 2) + Field(b.peer) + Field(b.vantage) +
    Big(b.sequence, 8) + Big(b.publishedAt, 8) + Big(|b.records|, 8)
  }

  function Payload(b: Signed): seq<Byte> {
    Header(b) + Fields(b.records)
  }

  /** `push_field`. */
  method PushField(payload: seq<Byte>, bytes: seq<Byte>) returns (r: seq<Byte>)
    ensures r == payload + Field(bytes)
  {
    r := payload + Big(|bytes|, 8);
    r := r + bytes;
  }

  /** `signing_payload`, for any encoder of records. */
  method SigningPayload<R>(version: nat, peer: Text, vantage: Text, sequence: nat, publishedAt: nat,
                           records: seq<R>, encode: R -> seq<Byte>) returns (payload: seq<Byte>)
    ensures payload == Payload(Signed(version, peer, vantage, sequence, publishedAt, Encodings(records, encode)))
  {
    payload := BUNDLE_TAG;
    payload := payload + Big(version, 2);
    payload := PushField(payload, peer);
    payload := PushField(payload, vantage);
    payload := payload + Big(sequence, 8);
    payload := payload + Big(publishedAt, 8);
    payload := payload + Big(|records|, 8);
    ghost var header := payload;
    ghost var all := Encodings(records, encode);
    assert header == Header(Signed(version, peer, vantage, sequence, publishedAt, all));
    for i := 0 to |records|
      invariant payload == header + Fields(all[..i])
    {
      payload := PushField(payload, encode(records[i]));
      FieldsSnoc(all[..i], all[i]);
      assert all[..i + 1] == all[..i] + [all[i]];
    }
    assert all[..|records|] == all;
  }

  function Encodings<R>(records: seq<R>, encode: R -> seq<Byte>): (r: seq<seq<Byte>>)
    ensures |r| == |records| && forall i :: 0 <= i < |r| ==> r[i] == encode(records[i])
  {
    seq(|records|, i requires 0 <= i < |records| => encode(records[i]))
  }

  lemma {:induction false} FieldsSnoc(list: seq<seq<Byte>>, last: seq<Byte>)
    ensures Fields(list + [last]) == Fields(list) + Field(last)
  {
    if list == [] {
      assert [last][1..] == [];
    } else {
      FieldsSnoc(list[1..], last);
      assert (list + [last])[1..] == list[1..] + [last];
    }
  }

  // ----- self-delimiting

  /** Equal streams that start with parts of equal length agree on those parts and on the rest. */
  lemma SplitAt(a: seq<Byte>, x: seq<Byte>, b: seq<Byte>, y: seq<Byte>)
    requires |a| == |b| && a + x == b + y
    ensures a == b && x == y
  {
    assert a == (a + x)[..|a|] && x == (a + x)[|a|..];
    assert b == (b + y)[..|b|] && y == (b + y)[|b|..];
  }

  lemma NumberDelimits(m: nat, x: seq<Byte>, n: nat, y: seq<Byte>, width: nat)
    requires m < Pow256(width) && n < Pow256(width)
    requires Big(m, width) + x == Big(n, width) + y
    ensures m == n && x == y
  {
    SplitAt(Big(m, width), x, Big(n, width), y);
    BigInjective(m, n, width);
  }

  lemma FieldOpens(a: seq<Byte>, x: seq<Byte>)
    ensures Field(a) + x == Big(|a|, 8) + (a + x)
  {
  }

  lemma FieldDelimits(a: seq<Byte>, x: seq<Byte>, b: seq<Byte>, y: seq<Byte>)
    requires |a| < U64 && |b| < U64
    requires Field(a) + x == Field(b) + y
    ensures a == b && x == y
  {
    WidthBounds();
    FieldOpens(a, x);
    FieldOpens(b, y);
    NumberDelimits(|a|, a + x, |b|, b + y, 8);
    SplitAt(a, x, b, y);
  }

  lemma {:induction false} FieldsDelimit(a: seq<seq<Byte>>, x: seq<Byte>, b: seq<seq<Byte>>, y: seq<Byte>)
    requires |a| == |b| && Fields(a) + x == Fields(b) + y
    requires forall i :: 0 <= i < |a| ==> |a[i]| < U64 && |b[i]| < U64
    ensures a == b && x == y
  {
    if a == [] {
      assert x == Fields(a) + x && y == Fields(b) + y;
    } else {
      assert Fields(a) + x == Field(a[0]) + (Fields(a[1..]) + x);
      assert Fields(b) + y == Field(b[0]) + (Fields(b[1..]) + y);
      FieldDelimits(a[0], Fields(a[1..]) + x, b[0], Fields(b[1..]) + y);
      FieldsDelimit(a[1..], x, b[1..], y);
      assert a == [a[0]] + a[1..] && b == [b[0]] + b[1..];
    }
  }

  /** What follows the tag, grouped to the right. */
  function Rest(b: Signed, x: seq<Byte>): seq<Byte> {
    Big(b.version, 2) + (Field(b.peer) + (Field(b.vantage) + Numbers(b, x)))
  }

  function Numbers(b: Signed, x: seq<Byte>): seq<Byte> {
    Big(b.sequence, 8) + (Big(b.publishedAt, 8) + (Big(|b.records|, 8) + (Fields(b.records) + x)))
  }

  lemma Regroup(a: seq<Byte>, b: seq<Byte>, c: seq<Byte>, d: seq<Byte>, x: seq<Byte>)
    ensures a + b + c + d + x == a + (b + (c + (d + x)))
  {
    assert a + b + c + d + x == a + b + c + (d + x) == a + b + (c + (d + x));
  }

  lemma Grouped(b: Signed, x: seq<Byte>)
    ensures Payload(b) + x == BUNDLE_TAG + Rest(b, x)
  {
    var head := BUNDLE_TAG + Big(b.version, 2) + Field(b.peer) + Field(b.vantage);
    var s, t, n, f := Big(b.sequence, 8), Big(b.publishedAt, 8), Big(|b.records|, 8), Fields(b.records);
    assert Payload(b) + x == head + s + t + n + (f + x);
    Regroup(head, s, t, n, f + x);
    Regroup(BUNDLE_TAG, Big(b.version, 2), Field(b.peer), Field(b.vantage), Numbers(b, x));
  }

  lemma NumbersDelimit(a: Signed, x: seq<Byte>, b: Signed, y: seq<Byte>)
    requires Fits(a) && Fits(b) && Numbers(a, x) == Numbers(b, y)
    ensures a.sequence == b.sequence && a.publishedAt == b.publishedAt && a.records == b.records && x == y
  {
    WidthBounds();
    var f, g := Fields(a.records) + x, Fields(b.records) + y;
    var n, m := Big(|a.records|, 8) + f, Big(|b.records|, 8) + g;
    NumberDelimits(a.sequence, Big(a.publishedAt, 8) + n, b.sequence, Big(b.publishedAt, 8) + m, 8);
    NumberDelimits(a.publishedAt, n, b.publishedAt, m, 8);
    NumberDelimits(|a.records|, f, |b.records|, g, 8);
    FieldsDelimit(a.records, x, b.records, y);
  }

  /**
   * The encoding delimits itself: whatever follows two payloads in two equal streams, the
   * payloads are of the same version, peer, vantage, sequence, time and list of records.
   */
  lemma PayloadDelimits(a: Signed, x: seq<Byte>, b: Signed, y: seq<Byte>)
    requires Fits(a) && Fits(b) && Payload(a) + x == Payload(b) + y
    ensures a == b && x == y
  {
    WidthBounds();
    Grouped(a, x);
    Grouped(b, y);
    SplitAt(BUNDLE_TAG, Rest(a, x), BUNDLE_TAG, Rest(b, y));
    NumberDelimits(a.version, Rest(a, x)[2..], b.version, Rest(b, y)[2..], 2);
    FieldDelimits(a.peer, Field(a.vantage) + Numbers(a, x), b.peer, Field(b.vantage) + Numbers(b, y));
    FieldDelimits(a.vantage, Numbers(a, x), b.vantage, Numbers(b, y));
    NumbersDelimit(a, x, b, y);
  }

  /** Equal signed bytes force equal contents: a signature covers one bundle only. */
  lemma PayloadInjective(a: Signed, b: Signed)
    requires Fits(a) && Fits(b)
    ensures Payload(a) == Payload(b) <==> a == b
  {
    if Payload(a) == Payload(b) {
      assert Payload(a) + [] == Payload(b) + [];
      PayloadDelimits(a, [], b, []);
    }
  }
}
