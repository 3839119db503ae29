/**
 * Key agreement and the sealed channel (src/federation/session.rs).
 *
 * The primitives are idealised. A derived key is a value that remembers what it was derived
 * from, a ciphertext is a value that remembers its key, nonce, associated data and message,
 * and decryption succeeds exactly on a match. Exchange and signatures are parameters.
 */
module Session {
  import opened Bytes
  import opened Hex
  import opened Limits
  import opened Outcomes
  import Wire
  import RelayProtocol

  const TAG_BYTES: nat := 16

  /** "idnx-ephemeral-v1\n" and "idnx-pairing-code-v1". */
  const EPHEMERAL_TAG: Text := [105, 100, 110, 120, 45, 101, 112, 104, 101, 109, 101, 114, 97, 108, 45, 118, 49, 10]
  const CODE_TAG: Text := [105, 100, 110, 120, 45, 112, 97, 105, 114, 105, 110, 103, 45, 99, 111, 100, 101, 45, 118, 49]

  datatype Handshake = Handshake(peer: PeerId, ephemeral: seq<Byte>, signature: seq<Byte>)

  /** `SessionOffer`: the secret behind the handshake's ephemeral key. */
  datatype Offer = Offer(secret: seq<Byte>, handshake: Handshake)

  /** X25519, Ed25519 and SHA-256. */
  datatype Primitives = Primitives(publicOf: seq<Byte> -> seq<Byte>,
                                   exchange: (seq<Byte>, seq<Byte>) -> seq<Byte>,
                                   verify: (PeerId, seq<Byte>, seq<Byte>) -> bool,
                                   digest: seq<Byte> -> seq<Byte>)

  /** The key agreement commutes. */
  ghost predicate Symmetric(p: Primitives) {
    forall a, b :: p.exchange(a, p.publicOf(b)) == p.exchange(b, p.publicOf(a))
  }

  function SignedEphemeral(ephemeral: seq<Byte>): seq<Byte> {
    EPHEMERAL_TAG + ephemeral
  }

  /** What one identity key signs in one role is never what it signs in another. */
  lemma DomainsNeverMix(ephemeral: seq<Byte>, bundle: Wire.Signed, nonce: seq<Byte>)
    ensures SignedEphemeral(ephemeral) != Wire.Payload(bundle)
    ensures SignedEphemeral(ephemeral) != RelayProtocol.Challenge(nonce)
    ensures Wire.Payload(bundle) != RelayProtocol.Challenge(nonce)
  {
    assert SignedEphemeral(ephemeral)[5] == 101;
    assert RelayProtocol.Challenge(nonce)[5] == 114;
    Wire.Grouped(bundle, []);
    assert (Wire.Payload(bundle) + [])[5] == Wire.BUNDLE_TAG[5] == 102;
    assert Wire.Payload(bundle) + [] == Wire.Payload(bundle);
  }

  // ----- ordering

  lemma {:induction false} LeqReflexive(a: seq<Byte>)
    ensures TextLeq(a, a)
  {
    if a != [] {
      LeqReflexive(a[1..]);
    }
  }

  function Ordered(a: seq<Byte>, b: seq<Byte>): seq<Byte> {
    if TextLeq(a, b) then a + b else b + a
  }

  lemma OrderedSymmetric(a: seq<Byte>, b: seq<Byte>)
    ensures Ordered(a, b) == Ordered(b, a)
  {
    TextLeqTotal(a, b);
  }

  // ----- the handshake

  /** HKDF's output, for one info string: it remembers its salt and its input secret. */
  datatype Key = Key(salt: seq<Byte>, shared: seq<Byte>)

  /** An established session's fields. */
  datatype End = End(key: Key, peer: PeerId, sendPrefix: Byte, receivePrefix: Byte, sent: nat, code: Text)

  datatype SessionError =
    | BadSignature
    | WrongPeer(expected: Text, offered: Text)
    | Cipher
    | Limit(limit: nat, claimed: nat)
    | CounterExhausted

  /** `accept`: the signature first, then the expected peer, then the key. */
  function Accept(p: Primitives, offer: Offer, theirs: Handshake, expected: PeerId): Result<End, SessionError> {
    if !p.verify(theirs.peer, SignedEphemeral(theirs.ephemeral), theirs.signature) then
      Err(BadSignature)
    else if theirs.peer != expected then
      Err(WrongPeer(expected.ToHex(), theirs.peer.ToHex()))
    else
      var ours := offer.handshake.ephemeral;
      var first := TextLeq(ours, theirs.ephemeral);
      Ok(End(Key(Ordered(ours, theirs.ephemeral), p.exchange(offer.secret, theirs.ephemeral)),
             theirs.peer, if first then 0 else 1, if first then 1 else 0, 0,
             Code(p, offer.handshake.peer, theirs.peer)))
  }

  function ThreeDigits(n: nat): Text
    requires n < 1000
  {
    [48 + n / 100, 48 + n / 10 % 10, 48 + n % 10]
  }

  /** `authentication_code`: six digits, grouped. */
  function Code(p: Primitives, a: PeerId, b: PeerId): (r: Text) {
    var digest := p.digest(CODE_TAG + Ordered(a.ToHex(), b.ToHex()));
    var value := (if |digest| >= 4 then BigValue(digest[..4]) else 0) % 1_000_000;
    ThreeDigits(value / 1000) + [45] + ThreeDigits(value % 1000)
  }

  /** An offer this machine made: its ephemeral key is its secret's public key. */
  predicate Made(p: Primitives, offer: Offer) {
    offer.handshake.ephemeral == p.publicOf(offer.secret)
  }

  /** Two ends that completed against each other's offers. */
  ghost predicate Completed(p: Primitives, a: Offer, b: Offer, x: End, y: End) {
    && Symmetric(p) && Made(p, a) && Made(p, b)
    && Accept(p, a, b.handshake, b.handshake.peer) == Ok(x)
    && Accept(p, b, a.handshake, a.handshake.peer) == Ok(y)
  }

  /**
   * The two ends agree on the key and the code, each on the other's identity, and they send
   * in opposite directions exactly when their ephemeral keys differ. Equal ephemeral keys
   * leave both ends sending under the same prefix.
   */
  lemma EndsAgree(p: Primitives, a: Offer, b: Offer, x: End, y: End)
    requires Completed(p, a, b, x, y)
    ensures x.key == y.key && x.code == y.code && x.sent == y.sent == 0
    ensures x.peer == b.handshake.peer && y.peer == a.handshake.peer
    ensures x.sendPrefix != x.receivePrefix && y.sendPrefix != y.receivePrefix
    ensures a.handshake.ephemeral != b.handshake.ephemeral <==>
            (x.sendPrefix == y.receivePrefix && x.receivePrefix == y.sendPrefix)
    ensures a.handshake.ephemeral == b.handshake.ephemeral ==>
            x.sendPrefix == y.sendPrefix && x.receivePrefix == y.receivePrefix
  {
    OrderedSymmetric(a.handshake.ephemeral, b.handshake.ephemeral);
    OrderedSymmetric(a.handshake.peer.ToHex(), b.handshake.peer.ToHex());
    TextLeqTotal(a.handshake.ephemeral, b.handshake.ephemeral);
    LeqReflexive(a.handshake.ephemeral);
  }

  /** Of keys of one length, the ordered join tells the pair, though not which was whose. */
  lemma OrderedInjective(a: seq<Byte>, b: seq<Byte>, c: seq<Byte>, d: seq<Byte>)
    requires |a| == |b| == |c| == |d|
    ensures Ordered(a, b) == Ordered(c, d) <==> (a == c && b == d) || (a == d && b == c)
  {
    OrderedSymmetric(c, d);
    var n := |a|;
    assert (a + b)[..n] == a && (a + b)[n..] == b && (b + a)[..n] == b && (b + a)[n..] == a;
    assert (c + d)[..n] == c && (c + d)[n..] == d && (d + c)[..n] == d && (d + c)[n..] == c;
  }

  /**
   * The key is the exchange's as much as the ephemeral keys': two sessions, of whatever peers
   * and under whatever primitives, have one key exactly when they are over the same two
   * ephemeral keys and their exchanges came to the same secret.
   */
  lemma KeysEqualExactly(p: Primitives, a: Offer, toA: Handshake, peerA: PeerId, x: End,
                         q: Primitives, b: Offer, toB: Handshake, peerB: PeerId, y: End)
    requires Accept(p, a, toA, peerA) == Ok(x) && Accept(q, b, toB, peerB) == Ok(y)
    requires |a.handshake.ephemeral| == |toA.ephemeral| == |b.handshake.ephemeral| == |toB.ephemeral| == 32
    ensures var (ours, theirs) := (a.handshake.ephemeral, toA.ephemeral);
            x.key == y.key <==>
            && ((ours == b.handshake.ephemeral && theirs == toB.ephemeral) || (ours == toB.ephemeral && theirs == b.handshake.ephemeral))
            && p.exchange(a.secret, toA.ephemeral) == q.exchange(b.secret, toB.ephemeral)
  {
    OrderedInjective(a.handshake.ephemeral, toA.ephemeral, b.handshake.ephemeral, toB.ephemeral);
  }

  /** Only the expected peer, proved by its signature over this very ephemeral key, completes a session. */
  lemma OnlyTheExpectedPeerCompletes(p: Primitives, offer: Offer, theirs: Handshake, expected: PeerId)
    ensures var signed := p.verify(theirs.peer, SignedEphemeral(theirs.ephemeral), theirs.signature);
            var r := Accept(p, offer, theirs, expected);
            && (r.Ok? <==> signed && theirs.peer == expected)
            && (r == Err(BadSignature) <==> !signed)
            && (r.Ok? ==> r.value.peer == expected && r.value.sent == 0)
  {
  }

  /** The number a run of decimal digits spells. */
  function Decimal(text: Text): int {
    if text == [] then 0 else 10 * Decimal(text[..|text| - 1]) + Figure(text[|text| - 1])
  }

  function Figure(c: int): int {
    c - 48
  }

  predicate AllFigures(text: Text) {
    forall i :: 0 <= i < |text| ==> 0 <= Figure(text[i]) <= 9
  }

  lemma ThreeDigitsRead(n: nat)
    requires n < 1000
    ensures Decimal(ThreeDigits(n)) == n && AllFigures(ThreeDigits(n))
  {
    var d := ThreeDigits(n);
    assert d[..2][..1][..0] == [] && Decimal([]) == 0;
    assert Decimal(d[..2][..1]) == n / 100;
    assert Decimal(d[..2]) == 10 * (n / 100) + n / 10 % 10 == n / 10;
  }

  /** The code is two groups of three digits spelling the digest's number below a million, and either end computes it. */
  lemma CodeIsSixDigits(p: Primitives, a: PeerId, b: PeerId)
    ensures var c := Code(p, a, b);
            var digest := p.digest(CODE_TAG + Ordered(a.ToHex(), b.ToHex()));
            && c == Code(p, b, a) && |c| == 7 && c[3] == 45 && AllFigures(c[..3]) && AllFigures(c[4..])
            && (|digest| >= 4 ==> 1000 * Decimal(c[..3]) + Decimal(c[4..]) == BigValue(digest[..4]) % 1_000_000)
  {
    OrderedSymmetric(a.ToHex(), b.ToHex());
    var digest := p.digest(CODE_TAG + Ordered(a.ToHex(), b.ToHex()));
    var value := (if |digest| >= 4 then BigValue(digest[..4]) else 0) % 1_000_000;
    ThreeDigitsRead(value / 1000);
    ThreeDigitsRead(value % 1000);
    var c := Code(p, a, b);
    assert c[..3] == ThreeDigits(value / 1000) && c[4..] == ThreeDigits(value % 1000);
  }

  // ----- sealing and opening

  datatype Ciphertext =
    | Sealed(key: Key, nonce: seq<Byte>, associated: seq<Byte>, message: seq<Byte>)
    | Foreign(bytes: seq<Byte>)
  {
    function Size(): nat {
      if Sealed? then |message| + TAG_BYTES else |bytes|
    }
  }

  /** What travels: too short to hold a counter, or eight bytes of it and the ciphertext. */
  datatype Frame = Short(bytes: seq<Byte>) | Framed(counter: seq<Byte>, ciphertext: Ciphertext) {
    predicate Valid() {
      if Short? then |bytes| < 8 else |counter| == 8
    }

    function Size(): nat {
      if Short? then |bytes| else |counter| + ciphertext.Size()
    }
  }

  /** `nonce`: the prefix, three zero bytes and the counter. */
  function Nonce(prefix: Byte, counter: nat): seq<Byte> {
    [prefix, 0, 0, 0] + Big(counter, 8)
  }

  lemma NonceInjective(p: Byte, m: nat, q: Byte, n: nat)
    requires m < U64 && n < U64
    ensures Nonce(p, m) == Nonce(q, n) <==> p == q && m == n
  {
    if Nonce(p, m) == Nonce(q, n) {
      assert p == Nonce(p, m)[0] == Nonce(q, n)[0] == q;
      assert Big(m, 8) == Nonce(p, m)[4..] == Nonce(q, n)[4..] == Big(n, 8);
      WidthBounds();
      BigInjective(m, n, 8);
    }
  }

  /** Whether a seal reaches the cipher: the counter is claimed first. */
  predicate Claims(e: End) {
    e.sent + 1 < U64
  }

  function SealedFrame(e: End, plaintext: seq<Byte>, associated: seq<Byte>): Frame {
    Framed(Big(e.sent, 8), Sealed(e.key, Nonce(e.sendPrefix, e.sent), associated, plaintext))
  }

  function SealOn(e: End): End {
    if Claims(e) then e.(sent := e.sent + 1) else e
  }

  function OpenOn(e: End, frame: Frame, associated: seq<Byte>): Result<seq<Byte>, SessionError> {
    if frame.Size() > MAX_ENVELOPE_BYTES then Err(Limit(MAX_ENVELOPE_BYTES, frame.Size()))
    else if frame.Short? then Err(Cipher)
    else
      match frame.ciphertext
      case Sealed(key, nonce, ad, message) =>
        if key == e.key && nonce == Nonce(e.receivePrefix, BigValue(frame.counter)) && ad == associated
        then Ok(message) else Err(Cipher)
      case Foreign(_) => Err(Cipher)
  }

  class Channel {
    const key: Key
    const peer: PeerId
    const sendPrefix: Byte
    const receivePrefix: Byte
    var sent: nat
    const code: Text

    ghost function Contents(): End
      reads this
    {
      End(key, peer, sendPrefix, receivePrefix, sent, code)
    }

    constructor (e: End)
      ensures Contents() == e
    {
      key, peer, sendPrefix, receivePrefix, sent, code := e.key, e.peer, e.sendPrefix, e.receivePrefix, e.sent, e.code;
    }

    /** `seal`. `encrypts` is whether the cipher takes the message; the counter is spent either way. */
    method Seal(plaintext: seq<Byte>, associated: seq<Byte>, encrypts: bool) returns (r: Result<Frame, SessionError>)
      modifies this
      ensures Contents() == SealOn(old(Contents()))
      ensures r == (if !Claims(old(Contents())) then Err(CounterExhausted)
                    else if !encrypts then Err(Cipher)
                    else Ok(SealedFrame(old(Contents()), plaintext, associated)))
    {
      var counter := sent;
      if sent + 1 >= U64 {
        return Err(CounterExhausted);
      }
      sent := sent + 1;
      if !encrypts {
        return Err(Cipher);
      }
      return Ok(Framed(Big(counter, 8), Sealed(key, Nonce(sendPrefix, counter), associated, plaintext)));
    }

    method Open(frame: Frame, associated: seq<Byte>) returns (r: Result<seq<Byte>, SessionError>)
      ensures r == OpenOn(Contents(), frame, associated)
    {
      if frame.Size() > MAX_ENVELOPE_BYTES {
        return Err(Limit(MAX_ENVELOPE_BYTES, frame.Size()));
      }
      if frame.Short? || frame.ciphertext.Foreign? {
        return Err(Cipher);
      }
      var c := frame.ciphertext;
      var matches := c.key == key && c.nonce == Nonce(receivePrefix, BigValue(frame.counter)) && c.associated == associated;
      return if matches then Ok(c.message) else Err(Cipher);
    }
  }

  // ----- every run of two ends

  /** A seal by either end. */
  datatype Sealing = Sealing(left: bool, plaintext: seq<Byte>, associated: seq<Byte>, encrypts: bool)

  /** A nonce given to the cipher, with the frame that came of it when the cipher took the message. */
  datatype Use = Use(left: bool, counter: nat, key: Key, nonce: seq<Byte>, sealing: Sealing, frame: Option<Frame>)

  datatype Pair = Pair(x: End, y: End, uses: seq<Use>) {
    function By(left: bool): End {
      if left then x else y
    }
  }

  function Sealed1(s: Pair, seal: Sealing): Pair {
    var e := s.By(seal.left);
    if !Claims(e) then s
    else
      var frame := if seal.encrypts then Some(SealedFrame(e, seal.plaintext, seal.associated)) else None;
      Pair(if seal.left then SealOn(e) else s.x, if seal.left then s.y else SealOn(e),
           s.uses + [Use(seal.left, e.sent, e.key, Nonce(e.sendPrefix, e.sent), seal, frame)])
  }

  function Play(x: End, y: End, seals: seq<Sealing>): Pair {
    if seals == [] then Pair(x, y, [])
    else Sealed1(Play(x, y, seals[..|seals| - 1]), seals[|seals| - 1])
  }

  /** No nonce was given to the cipher twice under one key. */
  predicate Fresh(uses: seq<Use>) {
    forall i, j :: 0 <= i < j < |uses| ==> uses[i].key != uses[j].key || uses[i].nonce != uses[j].nonce
  }

  /** One use, as the end it belongs to made it. */
  predicate Accounted(u: Use, e: End) {
    && u.key == e.key && u.counter < e.sent && u.counter < U64 && u.nonce == Nonce(e.sendPrefix, u.counter)
    && u.frame == if u.sealing.encrypts
                  then Some(SealedFrame(e.(sent := u.counter), u.sealing.plaintext, u.sealing.associated))
                  else None
  }

  predicate SameEnd(a: End, b: End) {
    a.(sent := 0) == b.(sent := 0)
  }

  predicate Tracks(s: Pair, x: End, y: End) {
    && SameEnd(s.x, x) && SameEnd(s.y, y)
    && (forall i :: 0 <= i < |s.uses| ==> Accounted(s.uses[i], s.By(s.uses[i].left)))
    && forall i, j :: 0 <= i < j < |s.uses| && s.uses[i].left == s.uses[j].left ==> s.uses[i].counter < s.uses[j].counter
  }

  lemma SealTracks(s: Pair, x: End, y: End, seal: Sealing)
    requires Tracks(s, x, y)
    ensures Tracks(Sealed1(s, seal), x, y)
  {
    var t := Sealed1(s, seal);
    forall i | 0 <= i < |t.uses| ensures Accounted(t.uses[i], t.By(t.uses[i].left)) {
      if i < |s.uses| {
        assert t.uses[i] == s.uses[i];
        assert Accounted(s.uses[i], s.By(s.uses[i].left));
      }
    }
  }

  lemma {:induction false} RunTracks(x: End, y: End, seals: seq<Sealing>)
    ensures Tracks(Play(x, y, seals), x, y)
  {
    if seals != [] {
      RunTracks(x, y, seals[..|seals| - 1]);
      SealTracks(Play(x, y, seals[..|seals| - 1]), x, y, seals[|seals| - 1]);
    }
  }

  lemma TrackedIsFresh(s: Pair, x: End, y: End)
    requires Tracks(s, x, y) && x.sendPrefix != y.sendPrefix
    ensures Fresh(s.uses)
  {
    forall i, j | 0 <= i < j < |s.uses| ensures s.uses[i].nonce != s.uses[j].nonce {
      var u, v := s.uses[i], s.uses[j];
      assert Accounted(u, s.By(u.left)) && Accounted(v, s.By(v.left));
      NonceInjective(s.By(u.left).sendPrefix, u.counter, s.By(v.left).sendPrefix, v.counter);
    }
  }

  /** With one prefix for both directions, a first message from each end repeats a nonce. */
  lemma SharedPrefixRepeats(x: End, y: End) returns (seals: seq<Sealing>)
    requires x.key == y.key && x.sendPrefix == y.sendPrefix && x.sent == y.sent == 0
    ensures !Fresh(Play(x, y, seals).uses)
  {
    var one, two := Sealing(true, [], [], true), Sealing(false, [], [], true);
    seals := [one, two];
    assert seals[..1] == [one] && [one][..0] == [];
    var s := Play(x, y, [one]);
    assert Play(x, y, []) == Pair(x, y, []);
    assert s == Sealed1(Pair(x, y, []), one);
    assert Play(x, y, seals) == Sealed1(s, two);
    var uses := Play(x, y, seals).uses;
    assert uses[0].key == uses[1].key && uses[0].nonce == uses[1].nonce;
  }

  /**
   * Over every run of seals by two ends that completed, no nonce is used twice under their
   * key - exactly when their ephemeral keys differ.
   */
  lemma NoncesNeverRepeat(p: Primitives, a: Offer, b: Offer, x: End, y: End)
    requires Completed(p, a, b, x, y)
    ensures (forall seals :: Fresh(Play(x, y, seals).uses)) <==> a.handshake.ephemeral != b.handshake.ephemeral
  {
    EndsAgree(p, a, b, x, y);
    if a.handshake.ephemeral != b.handshake.ephemeral {
      forall seals ensures Fresh(Play(x, y, seals).uses) {
        RunTracks(x, y, seals);
        TrackedIsFresh(Play(x, y, seals), x, y);
      }
    } else {
      var seals := SharedPrefixRepeats(x, y);
      assert !Fresh(Play(x, y, seals).uses);
    }
  }

  /**
   * Every message sealed in a run, at any time and in any order of arrival, opens at the
   * other end to its plaintext under its associated data, and never at its own end - if the
   * frame is within the limit and the ephemeral keys differ. Beyond the limit it is refused
   * for its size, and with equal ephemeral keys it does not open.
   */
  lemma SealedOpensAtTheOtherEnd(p: Primitives, a: Offer, b: Offer, x: End, y: End, seals: seq<Sealing>, later: seq<Sealing>,
                                 i: nat)
    requires Completed(p, a, b, x, y) && i < |Play(x, y, seals).uses| && Play(x, y, seals).uses[i].frame.Some?
    ensures var u := Play(x, y, seals).uses[i];
            var other, own := Play(x, y, later).By(!u.left), Play(x, y, later).By(u.left);
            var frame := u.frame.value;
            var small := |u.sealing.plaintext| + TAG_BYTES + 8 <= MAX_ENVELOPE_BYTES;
            && (OpenOn(other, frame, u.sealing.associated) == Ok(u.sealing.plaintext) <==>
                  small && a.handshake.ephemeral != b.handshake.ephemeral)
            && OpenOn(own, frame, u.sealing.associated).Err?
            && (OpenOn(other, frame, u.sealing.associated) == Err(Limit(MAX_ENVELOPE_BYTES, frame.Size())) <==> !small)
  {
    EndsAgree(p, a, b, x, y);
    RunTracks(x, y, seals);
    RunTracks(x, y, later);
    var s, t := Play(x, y, seals), Play(x, y, later);
    var u := s.uses[i];
    assert Accounted(u, s.By(u.left));
    WidthBounds();
    BigRoundTrip(u.counter, 8);
    NonceInjective(s.By(u.left).sendPrefix, u.counter, t.By(!u.left).receivePrefix, u.counter);
    NonceInjective(s.By(u.left).sendPrefix, u.counter, t.By(u.left).receivePrefix, u.counter);
  }

  predicate Carries(frame: Option<Frame>, c: Ciphertext) {
    frame.Some? && frame.value.Framed? && frame.value.ciphertext == c
  }

  /** A frame an outsider can present: its ciphertext is one the run produced, or not made with this key. */
  predicate Presentable(frame: Frame, uses: seq<Use>, key: Key) {
    frame.Framed? && frame.ciphertext.Sealed? && frame.ciphertext.key == key ==>
      exists i :: 0 <= i < |uses| && Carries(uses[i].frame, frame.ciphertext)
  }

  predicate SealedBy(u: Use, left: bool, frame: Frame, associated: seq<Byte>) {
    u.left == left && u.frame == Some(frame) && u.sealing.associated == associated
  }

  /**
   * Whatever an outsider presents - replayed, reflected, re-framed under another counter or
   * given other associated data - opens only if it is, byte for byte, a frame the other end
   * sealed, with the associated data it was sealed with.
   */
  lemma OpensOnlyWhatTheOtherEndSealed(p: Primitives, a: Offer, b: Offer, x: End, y: End, seals: seq<Sealing>,
                                       left: bool, frame: Frame, associated: seq<Byte>)
    requires Completed(p, a, b, x, y) && a.handshake.ephemeral != b.handshake.ephemeral
    requires frame.Valid() && Presentable(frame, Play(x, y, seals).uses, x.key)
    requires OpenOn(Play(x, y, seals).By(left), frame, associated).Ok?
    ensures exists u <- Play(x, y, seals).uses :: SealedBy(u, !left, frame, associated) &&
              OpenOn(Play(x, y, seals).By(left), frame, associated) == Ok(u.sealing.plaintext)
  {
    EndsAgree(p, a, b, x, y);
    RunTracks(x, y, seals);
    var s := Play(x, y, seals);
    var i :| 0 <= i < |s.uses| && Carries(s.uses[i].frame, frame.ciphertext);
    OpenedIsSealed(s.uses[i], s.By(s.uses[i].left), s.By(left), frame, associated);
    assert SealedBy(s.uses[i], !left, frame, associated);
  }

  /** A use whose ciphertext an end opens was made by an end that sends where that one receives, in that very frame. */
  lemma OpenedIsSealed(u: Use, sender: End, receiver: End, frame: Frame, associated: seq<Byte>)
    requires Accounted(u, sender) && frame.Valid() && frame.Framed? && Carries(u.frame, frame.ciphertext)
    requires OpenOn(receiver, frame, associated).Ok?
    ensures sender.sendPrefix == receiver.receivePrefix && u.frame == Some(frame) && u.sealing.associated == associated
    ensures OpenOn(receiver, frame, associated) == Ok(u.sealing.plaintext)
  {
    WidthBounds();
    BigBounded(frame.counter);
    NonceInjective(sender.sendPrefix, u.counter, receiver.receivePrefix, BigValue(frame.counter));
    BytesRoundTrip(frame.counter);
  }
}
