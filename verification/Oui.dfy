/**
 * The registry index of MAC address blocks (src/fingerprint/oui.rs).
 *
 * A registry is a sequence of records already split into fields. The source's shifts
 * and masks on 48-bit words are written as arithmetic: clearing the low bits rounds down to a
 * multiple of a power of two. `trim` is a parameter.
 */
module Oui {
  import opened Bytes
  import opened Hex
  import opened Outcomes

  type Mac = m: seq<Byte> | |m| == 6 witness [0, 0, 0, 0, 0, 0]

  /** The value of a hex digit. */
  type Nib = v: nat | v < 16

  type Record = seq<Text>

  datatype Assignment = Assignment(organization: Text, registry: Text)

  type Index = map<(nat, int), Assignment>

  /** The hex digits of a field, anything else dropped, as values: case does not matter. */
  function Digits(field: Text): seq<Nib> {
    if field == [] then []
    else if Nibble(field[0]).Some? then [Nibble(field[0]).value] + Digits(field[1..])
    else Digits(field[1..])
  }

  /** `prefix_bits_for`. */
  function PrefixBits(digits: nat): Option<nat> {
    match digits
    case 6 => Some(24)
    case 7 => Some(28)
    case 9 => Some(36)
    case _ => None
  }

  function Padded(digits: seq<Nib>): seq<Nib> {
    if |digits| >= 12 then digits else digits + seq(12 - |digits|, _ => 0)
  }

  /** `from_str_radix(_, 16)`. */
  function Value(digits: seq<Nib>): nat {
    if digits == [] then 0 else 16 * Value(digits[..|digits| - 1]) + digits[|digits| - 1]
  }

  function Pow16(n: nat): (p: nat)
    ensures p > 0
  {
    if n == 0 then 1 else 16 * Pow16(n - 1)
  }

  /** `value & (!0 << (48 - bits))` for a 48-bit value and a whole number of hex digits. */
  function Masked(value: nat, bits: nat): int
    requires bits <= 48
  {
    var low := Pow16(12 - bits / 4);
    value / low * low
  }

  /** `prefix_key`. */
  function PrefixKey(digits: seq<Nib>, bits: nat): Option<int>
    requires bits <= 48
  {
    var needed := bits / 4;
    if |digits| < needed then None
    else Some(Masked(Value(Padded(digits[..needed])), bits))
  }

  /** The address as one word: its bytes, most significant first. */
  function Word(mac: Mac): nat {
    BigValue(mac)
  }

  /** The hex digits of a byte string. */
  function ByteDigits(bytes: seq<Byte>): (r: seq<Nib>)
    ensures |r| == 2 * |bytes|
  {
    if bytes == [] then []
    else
      var last := bytes[|bytes| - 1];
      ByteDigits(bytes[..|bytes| - 1]) + [last / 16, last % 16]
  }

  function MacDigits(mac: Mac): (r: seq<Nib>)
    ensures |r| == 12
  {
    ByteDigits(mac)
  }

  // ----- building the index

  /** A record that names a block and an organization. */
  predicate Usable(r: Record, trim: Text -> Text) {
    |r| >= 3 && PrefixBits(|Digits(r[1])|).Some? && trim(r[2]) != []
  }

  function Entry(r: Record, trim: Text -> Text): Assignment
    requires Usable(r, trim)
  {
    Assignment(trim(r[2]), trim(r[0]))
  }

  function KeyOf(r: Record, trim: Text -> Text): (nat, int)
    requires Usable(r, trim)
  {
    var bits := PrefixBits(|Digits(r[1])|).value;
    (bits, PrefixKey(Digits(r[1]), bits).value)
  }

  function Indexed(records: seq<Record>, trim: Text -> Text, before: Index): Index {
    if records == [] then before
    else
      var last := records[|records| - 1];
      var index := Indexed(records[..|records| - 1], trim, before);
      if Usable(last, trim) then index[KeyOf(last, trim) := Entry(last, trim)] else index
  }

  /** `parse_ieee_csv`. */
  method ParseCsv(records: seq<Record>, trim: Text -> Text, before: Index) returns (index: Index)
    ensures index == Indexed(records, trim, before)
  {
    index := before;
    for i := 0 to |records|
      invariant index == Indexed(records[..i], trim, before)
    {
      var r := records[i];
      assert records[..i + 1][..i] == records[..i];
      if |r| < 3 {
        continue;
      }
      var digits := Digits(r[1]);
      var bits := PrefixBits(|digits|);
      if bits.None? {
        continue;
      }
      var organization := trim(r[2]);
      if organization == [] {
        continue;
      }
      var key := PrefixKey(digits, bits.value);
      if key.Some? {
        index := index[(bits.value, key.value) := Assignment(organization, trim(r[0]))];
      }
    }
    assert records[..|records|] == records;
  }

  /** `lookup_in_cache`: 36 bits, then 28, then 24. */
  method Lookup(index: Index, mac: Mac) returns (found: Option<Assignment>)
    ensures found == Found(index, mac)
  {
    if index == map[] {
      return None;
    }
    var lengths := [36, 28, 24];
    for i := 0 to |lengths|
      invariant forall j :: 0 <= j < i ==> (lengths[j], Masked(Word(mac), lengths[j])) !in index
    {
      var key := (lengths[i], Masked(Word(mac), lengths[i]));
      if key in index {
        assert i > 0 ==> (lengths[0], Masked(Word(mac), lengths[0])) !in index;
        assert i > 1 ==> (lengths[1], Masked(Word(mac), lengths[1])) !in index;
        return Some(index[key]);
      }
    }
    assert (lengths[0], Masked(Word(mac), lengths[0])) !in index;
    assert (lengths[1], Masked(Word(mac), lengths[1])) !in index;
    assert (lengths[2], Masked(Word(mac), lengths[2])) !in index;
    return None;
  }

  function Found(index: Index, mac: Mac): Option<Assignment> {
    var w := Word(mac);
    if (36, Masked(w, 36)) in index then Some(index[(36, Masked(w, 36))])
    else if (28, Masked(w, 28)) in index then Some(index[(28, Masked(w, 28))])
    else if (24, Masked(w, 24)) in index then Some(index[(24, Masked(w, 24))])
    else None
  }

  // ----- the linear scan it must agree with

  /** A record of six, seven or nine digits that begin the address, with an organization. */
  predicate Matches(r: Record, trim: Text -> Text, mac: Mac) {
    && |r| >= 3 && |Digits(r[1])| in {6, 7, 9} && trim(r[2]) != []
    && Digits(r[1]) == MacDigits(mac)[..|Digits(r[1])|]
  }

  /** Record `i` matches, no matching record has a longer prefix, and no later one as long. */
  predicate Best(records: seq<Record>, trim: Text -> Text, mac: Mac, i: nat) {
    && i < |records| && Matches(records[i], trim, mac)
    && forall j :: 0 <= j < |records| && Matches(records[j], trim, mac) ==>
         && |Digits(records[j][1])| <= |Digits(records[i][1])|
         && (|Digits(records[j][1])| == |Digits(records[i][1])| ==> j <= i)
  }

  predicate Says(a: Assignment, organization: Text, registry: Text) {
    a.organization == organization && a.registry == registry
  }

  // ----- keys agree exactly when digits do

  lemma {:induction false} ValueBounded(s: seq<Nib>)
    ensures Value(s) < Pow16(|s|)
  {
    if s != [] {
      ValueBounded(s[..|s| - 1]);
    }
  }

  lemma {:induction false} ValueSplit(a: seq<Nib>, b: seq<Nib>)
    ensures Value(a + b) == Value(a) * Pow16(|b|) + Value(b)
  {
    if b == [] {
      assert a + b == a;
    } else {
      var init := b[..|b| - 1];
      ValueSplit(a, init);
      assert (a + b)[..|a + b| - 1] == a + init;
      assert 16 * (Value(a) * Pow16(|init|)) == Value(a) * Pow16(|b|);
    }
  }

  /** Texts of one length denote one value only if they are the same digits. */
  lemma {:induction false} ValueInjective(s: seq<Nib>, t: seq<Nib>)
    requires |s| == |t| && Value(s) == Value(t)
    ensures s == t
  {
    if s != [] {
      var n := |s| - 1;
      ValueInjective(s[..n], t[..n]);
      assert s == s[..n] + [s[n]] && t == t[..n] + [t[n]];
    }
  }

  lemma Multiples(d: nat, m: nat, q: nat, r: nat, p: nat)
    requires m < p && r < p && d * p + m == q * p + r
    ensures d == q
  {
    if d < q {
      MultipleAtLeast(q - d, p);
    } else if d > q {
      MultipleAtLeast(d - q, p);
    }
  }

  lemma MultipleAtLeast(k: nat, p: nat)
    requires k >= 1
    ensures k * p >= p
  {
  }

  lemma RoundsDown(q: nat, r: nat, p: nat)
    requires r < p
    ensures (q * p + r) / p == q
  {
    var x := q * p + r;
    assert x == p * (x / p) + x % p;
    Multiples(x / p, x % p, q, r, p);
  }

  /** Masking twelve digits keeps the leading ones and nothing else. */
  lemma MaskKeepsLeading(s: seq<Nib>, bits: nat)
    requires |s| == 12 && bits <= 48
    ensures Masked(Value(s), bits) == Value(s[..bits / 4]) * Pow16(12 - bits / 4)
  {
    var n := bits / 4;
    assert s == s[..n] + s[n..];
    ValueSplit(s[..n], s[n..]);
    ValueBounded(s[n..]);
    RoundsDown(Value(s[..n]), Value(s[n..]), Pow16(12 - n));
  }

  lemma ProductInjective(a: nat, b: nat, p: nat)
    requires p > 0 && a * p == b * p
    ensures a == b
  {
    assert (a - b) * p == 0;
  }

  lemma KeysAgree(s: seq<Nib>, t: seq<Nib>, bits: nat)
    requires |s| == |t| == 12 && bits <= 48
    ensures Masked(Value(s), bits) == Masked(Value(t), bits) <==> s[..bits / 4] == t[..bits / 4]
  {
    var n := bits / 4;
    MaskKeepsLeading(s, bits);
    MaskKeepsLeading(t, bits);
    if Masked(Value(s), bits) == Masked(Value(t), bits) {
      ProductInjective(Value(s[..n]), Value(t[..n]), Pow16(12 - n));
      ValueInjective(s[..n], t[..n]);
    }
  }

  lemma {:induction false} WordIsValue(bytes: seq<Byte>)
    ensures BigValue(bytes) == Value(ByteDigits(bytes))
  {
    if bytes != [] {
      var init, last := bytes[..|bytes| - 1], bytes[|bytes| - 1];
      WordIsValue(init);
      var d := ByteDigits(bytes);
      assert d[..|d| - 1] == ByteDigits(init) + [last / 16];
      assert d[..|d| - 1][..|d| - 2] == ByteDigits(init);
    }
  }

  /** A record's key is the address's key exactly when its digits begin the address. */
  lemma KeyMatches(r: Record, trim: Text -> Text, mac: Mac, bits: nat)
    requires Usable(r, trim) && bits in {24, 28, 36}
    ensures KeyOf(r, trim) == (bits, Masked(Word(mac), bits)) <==> Matches(r, trim, mac) && |Digits(r[1])| == bits / 4
  {
    var d := Digits(r[1]);
    assert d[..|d|] == d;
    assert Padded(d)[..|d|] == d;
    WordIsValue(mac);
    KeysAgree(Padded(d), MacDigits(mac), 4 * |d|);
  }

  lemma {:induction false} DigitsConcat(a: Text, b: Text)
    ensures Digits(a + b) == Digits(a) + Digits(b)
  {
    if a == [] {
      assert a + b == b;
      assert Digits(a + b) == Digits(a) + Digits(b);
    } else {
      DigitsConcat(a[1..], b);
      assert (a + b)[1..] == a[1..] + b;
      assert Digits(a + b) == Digits(a) + Digits(b);
    }
  }

  /** Separators, and whatever else is no hex digit, do not matter. */
  lemma DigitsSkip(a: Text, c: Byte, b: Text)
    requires Nibble(c).None?
    ensures Digits(a + [c] + b) == Digits(a) + Digits(b)
  {
    DigitsConcat(a + [c], b);
    DigitsConcat(a, [c]);
    assert [c][1..] == [] && Digits([c]) == [];
  }

  /** A byte string spelled in hex, in either case, has exactly its own digits. */
  lemma {:induction false} DigitsOfHex(text: Text)
    requires Decoded(text).Some?
    ensures Digits(text) == ByteDigits(Decoded(text).value)
  {
    if text != [] {
      var n := |text| - 2;
      DecodedSplit(text, n);
      DigitsOfHex(text[..n]);
      LastPair(text[..n], text[n..], text);
      PairValue(text[n], text[n + 1]);
    }
  }

  lemma LastPair(init: Text, pair: Text, text: Text)
    requires text == init + pair && |pair| == 2 && Nibble(pair[0]).Some? && Nibble(pair[1]).Some?
    ensures Digits(text) == Digits(init) + [Nibble(pair[0]).value, Nibble(pair[1]).value]
  {
    DigitsConcat(init, pair);
    TwoDigits(pair);
  }

  lemma PairValue(a: Byte, b: Byte)
    requires Nibble(a).Some? && Nibble(b).Some?
    ensures var v := 16 * Nibble(a).value + Nibble(b).value; v / 16 == Nibble(a).value && v % 16 == Nibble(b).value
  {
  }

  lemma TwoDigits(pair: Text)
    requires |pair| == 2 && Nibble(pair[0]).Some? && Nibble(pair[1]).Some?
    ensures Digits(pair) == [Nibble(pair[0]).value, Nibble(pair[1]).value]
  {
    assert pair[1..] == [pair[1]] && pair[1..][1..] == [];
    assert Digits(pair[1..]) == [Nibble(pair[1]).value] + Digits([]);
  }

  lemma {:induction false} DecodedSplit(text: Text, n: nat)
    requires Decoded(text).Some? && |text| == n + 2
    ensures Decoded(text[..n]).Some? && Nibble(text[n]).Some? && Nibble(text[n + 1]).Some?
    ensures Decoded(text).value == Decoded(text[..n]).value + [16 * Nibble(text[n]).value + Nibble(text[n + 1]).value]
  {
    if n > 0 {
      DecodedSplit(text[2..], n - 2);
      assert text[2..][..n - 2] == text[..n][2..];
    } else {
      assert text[..0] == [] && text[2..] == [];
    }
  }

  // ----- the index is the scan

  /** Registries parsed one after another are one registry: what comes later wins. */
  lemma {:induction false} IndexedMore(a: seq<Record>, b: seq<Record>, trim: Text -> Text, before: Index)
    ensures Indexed(b, trim, Indexed(a, trim, before)) == Indexed(a + b, trim, before)
  {
    if b == [] {
      assert a + b == a;
    } else {
      IndexedMore(a, b[..|b| - 1], trim, before);
      assert (a + b)[..|a + b| - 1] == a + b[..|b| - 1];
    }
  }

  /** Record `i` is the last one that matches with a prefix of this length. */
  predicate LastOfLength(records: seq<Record>, trim: Text -> Text, mac: Mac, bits: nat, i: nat) {
    && i < |records| && MatchesAt(records[i], trim, mac, bits)
    && forall j :: i < j < |records| ==> !MatchesAt(records[j], trim, mac, bits)
  }

  predicate MatchesAt(r: Record, trim: Text -> Text, mac: Mac, bits: nat) {
    Matches(r, trim, mac) && |Digits(r[1])| == bits / 4
  }

  lemma {:induction false} IndexedAt(records: seq<Record>, trim: Text -> Text, mac: Mac, bits: nat) returns (i: int)
    requires bits in {24, 28, 36}
    ensures var key := (bits, Masked(Word(mac), bits));
            var index := Indexed(records, trim, map[]);
            if key in index then i >= 0 && LastOfLength(records, trim, mac, bits, i) && index[key] == Entry(records[i], trim)
            else forall j :: 0 <= j < |records| ==> !MatchesAt(records[j], trim, mac, bits)
  {
    i := -1;
    if records != [] {
      var n := |records| - 1;
      i := IndexedAt(records[..n], trim, mac, bits);
      assert forall j :: 0 <= j < n ==> records[..n][j] == records[j];
      if Usable(records[n], trim) {
        KeyMatches(records[n], trim, mac, bits);
        if MatchesAt(records[n], trim, mac, bits) {
          i := n;
        }
      }
    }
  }

  /**
   * The index built from any registry agrees with a scan of it: a lookup finds the record
   * with the longest digits that begin the address, the last such record when several are as
   * long, and nothing exactly when no record's digits begin it.
   */
  lemma LookupIsLongestPrefix(records: seq<Record>, trim: Text -> Text, mac: Mac)
    ensures var found := Found(Indexed(records, trim, map[]), mac);
            && (found.None? <==> forall i :: 0 <= i < |records| ==> !Matches(records[i], trim, mac))
            && (found.Some? ==>
                  exists i: nat :: (Best(records, trim, mac, i) && Says(found.value, trim(records[i][2]), trim(records[i][0]))))
  {
    var a := IndexedAt(records, trim, mac, 36);
    var b := IndexedAt(records, trim, mac, 28);
    var c := IndexedAt(records, trim, mac, 24);
    forall j | 0 <= j < |records| && Matches(records[j], trim, mac)
      ensures MatchesAt(records[j], trim, mac, 36) || MatchesAt(records[j], trim, mac, 28) || MatchesAt(records[j], trim, mac, 24)
    {
    }
    var index := Indexed(records, trim, map[]);
    var i := if (36, Masked(Word(mac), 36)) in index then a else if (28, Masked(Word(mac), 28)) in index then b else c;
    if Found(index, mac).Some? {
      assert Best(records, trim, mac, i);
    }
  }

  /** There is only one best record, so the scan's answer is unique. */
  lemma BestIsUnique(records: seq<Record>, trim: Text -> Text, mac: Mac, i: nat, j: nat)
    requires Best(records, trim, mac, i) && Best(records, trim, mac, j)
    ensures i == j
  {
  }
}
