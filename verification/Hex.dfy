/**
 * The hex codec and the peer identity built on it (src/federation/identity.rs).
 *
 * Every map the ledger, the store and the relay keep is keyed by the hex form of a public
 * key, so restoring a cursor and addressing a mailbox both rest on the laws proved here.
 */
module Hex {
  import opened Bytes
  import opened Outcomes

  function Digit(n: nat): (c: Byte)
    requires n < 16
  {
    if n < 10 then 48 + n else 87 + n
  }

  /** `nibble`: '0'..'9', 'a'..'f' and 'A'..'F'. */
  function Nibble(c: Byte): (n: Option<nat>)
    ensures n.Some? ==> n.value < 16
  {
    if 48 <= c <= 57 then Some(c - 48)
    else if 97 <= c <= 102 then Some(c - 87)
    else if 65 <= c <= 70 then Some(c - 55)
    else None
  }

  predicate IsHex(text: Text) {
    forall i :: 0 <= i < |text| ==> Nibble(text[i]).Some?
  }

  function LowerByte(c: Byte): Byte {
    if 65 <= c <= 90 then c + 32 else c
  }

  /** `to_ascii_lowercase`. */
  function Lower(text: Text): (r: Text)
    ensures |r| == |text|
    ensures forall i :: 0 <= i < |text| ==> r[i] == LowerByte(text[i])
  {
    seq(|text|, i requires 0 <= i < |text| => LowerByte(text[i]))
  }

  /** The two digits of every byte, most significant first. */
  function Encoded(bytes: seq<Byte>): (text: Text)
    ensures |text| == 2 * |bytes|
  {
    seq(2 * |bytes|, i requires 0 <= i < 2 * |bytes| =>
      Digit(if i % 2 == 0 then bytes[i / 2] / 16 else bytes[i / 2] % 16))
  }

  function Decoded(text: Text): Option<seq<Byte>> {
    if |text| % 2 != 0 then None
    else if text == [] then Some([])
    else
      match (Nibble(text[0]), Nibble(text[1]), Decoded(text[2..]))
      case (Some(high), Some(low), Some(rest)) => Some([16 * high + low] + rest)
      case _ => None
  }

  lemma EncodedCons(bytes: seq<Byte>)
    requires bytes != []
    ensures Encoded(bytes) == [Digit(bytes[0] / 16), Digit(bytes[0] % 16)] + Encoded(bytes[1..])
  {
    forall i | 2 <= i < 2 * |bytes| ensures Encoded(bytes)[i] == Encoded(bytes[1..])[i - 2] {
      assert bytes[i / 2] == bytes[1..][(i - 2) / 2];
    }
  }

  /** `encode_hex`: two lower-case digits pushed per byte. */
  method EncodeHex(bytes: seq<Byte>) returns (out: Text)
    ensures out == Encoded(bytes)
  {
    out := [];
    for i := 0 to |bytes|
      invariant out == Encoded(bytes[..i])
    {
      out := out + [Digit(bytes[i] / 16), Digit(bytes[i] % 16)];
    }
    assert bytes[..|bytes|] == bytes;
  }

  /** Decoding undoes encoding, for every byte string. */
  lemma {:induction false} DecodeEncode(bytes: seq<Byte>)
    ensures Decoded(Encoded(bytes)) == Some(bytes)
  {
    if bytes != [] {
      DecodeEncode(bytes[1..]);
      EncodedCons(bytes);
      assert Encoded(bytes)[2..] == Encoded(bytes[1..]);
      assert [bytes[0]] + bytes[1..] == bytes;
    }
  }

  lemma {:induction false} DecodedDomain(text: Text)
    ensures Decoded(text).Some? <==> |text| % 2 == 0 && IsHex(text)
  {
    if |text| >= 2 && |text| % 2 == 0 {
      DecodedDomain(text[2..]);
      assert forall i :: 2 <= i < |text| ==> text[i] == text[2..][i - 2];
    }
  }

  lemma {:induction false} ReencodeLowers(text: Text)
    requires Decoded(text).Some?
    ensures Encoded(Decoded(text).value) == Lower(text)
  {
    if text != [] {
      ReencodeLowers(text[2..]);
      var bytes := Decoded(text).value;
      assert bytes[1..] == Decoded(text[2..]).value;
      DigitNibble(text[0], text[1]);
      EncodedCons(bytes);
      assert Lower(text) == [LowerByte(text[0]), LowerByte(text[1])] + Lower(text[2..]);
    }
  }

  lemma DigitNibble(a: Byte, b: Byte)
    requires Nibble(a).Some? && Nibble(b).Some?
    ensures var v := 16 * Nibble(a).value + Nibble(b).value;
            v < 256 && Digit(v / 16) == LowerByte(a) && Digit(v % 16) == LowerByte(b)
  {
    var v := 16 * Nibble(a).value + Nibble(b).value;
    assert v / 16 == Nibble(a).value && v % 16 == Nibble(b).value;
  }

  /**
   * Decoding succeeds on exactly the even-length hex texts, and re-encoding what was decoded
   * gives back the text with its letters lowered.
   */
  lemma EncodeDecode(text: Text)
    ensures Decoded(text).Some? <==> |text| % 2 == 0 && IsHex(text)
    ensures Decoded(text).Some? ==> Encoded(Decoded(text).value) == Lower(text)
  {
    DecodedDomain(text);
    if Decoded(text).Some? {
      ReencodeLowers(text);
    }
  }

  lemma EncodedInjective(a: seq<Byte>, b: seq<Byte>)
    requires Encoded(a) == Encoded(b)
    ensures a == b
  {
    DecodeEncode(a);
    DecodeEncode(b);
  }

  /** A peer is its 32-byte public key; which byte strings are curve points is the curve's business. */
  datatype PeerId = PeerId(key: seq<Byte>) {
    predicate Valid(onCurve: seq<Byte> -> bool) {
      |key| == 32 && onCurve(key)
    }

    /** `to_hex`. */
    function ToHex(): Text {
      Encoded(key)
    }
  }

  /** `PeerId::from_hex`: hex, then 32 bytes, then a point. `None` is `IdentityError::Malformed`. */
  function PeerFromHex(text: Text, onCurve: seq<Byte> -> bool): Option<PeerId> {
    match Decoded(text)
    case None => None
    case Some(key) => if |key| == 32 && onCurve(key) then Some(PeerId(key)) else None
  }

  /** A valid identity survives the trip through its hex form, and only through it or its upper-case spelling. */
  lemma PeerHexRoundTrip(peer: PeerId, text: Text, onCurve: seq<Byte> -> bool)
    requires peer.Valid(onCurve)
    ensures PeerFromHex(text, onCurve) == Some(peer) <==> (IsHex(text) && Lower(text) == peer.ToHex())
  {
    EncodeDecode(text);
    DecodeEncode(peer.key);
    if IsHex(text) && Lower(text) == peer.ToHex() {
      EncodedInjective(Decoded(text).value, peer.key);
    }
  }

  lemma ToHexInjective(a: PeerId, b: PeerId)
    requires a.ToHex() == b.ToHex()
    ensures a == b
  {
    EncodedInjective(a.key, b.key);
  }
}
