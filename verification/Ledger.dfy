/**
 * Accepting evidence from peers (src/federation/ledger.rs).
 *
 * `State` and the `...On` functions specify one ledger operation each; the class carries the
 * fields the source mutates. The run lemmas then range over every sequence of operations,
 * including receipts that were copied and presented late or twice.
 */
module Ledger {
  import opened Bytes
  import opened Hex
  import opened Outcomes

  type WireRecord = seq<Byte>
  type Fact = seq<Byte>

  datatype Bundle = Bundle(schemaVersion: nat, peer: Text, vantage: Text, sequence: nat,
                           publishedAt: nat, records: seq<WireRecord>, signature: Text)

  datatype BundleError = UnsupportedSchema(version: nat) | BadIdentity

  datatype PeerOrigin = PeerOrigin(peer: Text, vantage: Text, sequence: nat, publishedAt: nat)

  datatype Evidence = Evidence(fact: Fact, origin: PeerOrigin)

  /** `Undecodable` holds the sorted, deduplicated reasons, which is to say the set of them. */
  datatype RejectReason =
    | Unverifiable(error: BundleError)
    | NotPaired(peer: Text)
    | Stale(seen: nat, offered: nat)
    | Busy(busyPeer: Text)
    | Undecodable(reasons: set<Text>)

  datatype Prepared = Prepared(peer: PeerId, vantage: Text, sequence: nat, evidence: seq<Evidence>, token: nat) {
    function ToReceipt(): Receipt {
      Receipt(peer, sequence, token)
    }
  }

  datatype Receipt = Receipt(peer: PeerId, sequence: nat, token: nat)

  /** Signature checking and record decoding: any functions at all. */
  datatype Judge = Judge(verify: Bundle -> Result<PeerId, BundleError>, decode: WireRecord -> Result<Fact, Text>)

  datatype State = State(trusted: map<Text, PeerId>, highest: map<Text, nat>, inFlight: map<Text, nat>, nextToken: nat)

  const FRESH := State(map[], map[], map[], 0)

  function OriginOf(bundle: Bundle, peer: PeerId): PeerOrigin {
    PeerOrigin(peer.ToHex(), bundle.vantage, bundle.sequence, bundle.publishedAt)
  }

  /** The records that decode, converted and attributed, in order. */
  function Readable(records: seq<WireRecord>, origin: PeerOrigin, judge: Judge): seq<Evidence> {
    if records == [] then []
    else
      var init := Readable(records[..|records| - 1], origin, judge);
      match judge.decode(records[|records| - 1])
      case Ok(fact) => init + [Evidence(fact, origin)]
      case Err(_) => init
  }

  function Unreadable(records: seq<WireRecord>, judge: Judge): set<Text> {
    set r | r in records && judge.decode(r).Err? :: judge.decode(r).error
  }

  /** `prepare`: checks in the source's order, and a reservation only when every one passed. */
  function PrepareOn(s: State, judge: Judge, bundle: Bundle): (State, Result<Prepared, RejectReason>) {
    match judge.verify(bundle)
    case Err(error) => (s, Err(Unverifiable(error)))
    case Ok(peer) =>
      var key := peer.ToHex();
      if key !in s.trusted then (s, Err(NotPaired(key)))
      else if key in s.highest && bundle.sequence <= s.highest[key] then
        (s, Err(Stale(s.highest[key], bundle.sequence)))
      else if Unreadable(bundle.records, judge) != {} then
        (s, Err(Undecodable(Unreadable(bundle.records, judge))))
      else if key in s.inFlight then (s, Err(Busy(key)))
      else
        var token := (s.nextToken + 1) % U64;
        (s.(nextToken := token, inFlight := s.inFlight[key := token]),
         Ok(Prepared(peer, bundle.vantage, bundle.sequence,
                     Readable(bundle.records, OriginOf(bundle, peer), judge), token)))
  }

  predicate Owns(s: State, receipt: Receipt) {
    var key := receipt.peer.ToHex();
    key in s.inFlight && s.inFlight[key] == receipt.token
  }

  /** `entry(key).or_default()` raised to `sequence`. */
  function Raised(highest: map<Text, nat>, key: Text, sequence: nat): map<Text, nat> {
    if key in highest && sequence <= highest[key] then highest else highest[key := sequence]
  }

  function Released(s: State, receipt: Receipt): State {
    s.(inFlight := s.inFlight - {receipt.peer.ToHex()})
  }

  function CommitOn(s: State, receipt: Receipt): (State, bool) {
    if !Owns(s, receipt) then (s, false)
    else (Released(s, receipt).(highest := Raised(s.highest, receipt.peer.ToHex(), receipt.sequence)), true)
  }

  function AbandonOn(s: State, receipt: Receipt): (State, bool) {
    if !Owns(s, receipt) then (s, false) else (Released(s, receipt), true)
  }

  function RestoreOn(s: State, peer: PeerId, sequence: nat): State {
    s.(highest := Raised(s.highest, peer.ToHex(), sequence))
  }

  function PairOn(s: State, peer: PeerId): State {
    s.(trusted := s.trusted[peer.ToHex() := peer])
  }

  // ----- one call

  lemma {:induction false} ReadableAll(records: seq<WireRecord>, origin: PeerOrigin, judge: Judge)
    requires forall r :: r in records ==> judge.decode(r).Ok?
    ensures |Readable(records, origin, judge)| == |records|
    ensures forall i :: 0 <= i < |records| ==>
              judge.decode(records[i]) == Ok(Readable(records, origin, judge)[i].fact)
              && Readable(records, origin, judge)[i].origin == origin
  {
    if records != [] {
      ReadableAll(records[..|records| - 1], origin, judge);
    }
  }

  lemma UnreadableEmpty(records: seq<WireRecord>, judge: Judge)
    ensures Unreadable(records, judge) == {} <==> forall r :: r in records ==> judge.decode(r).Ok?
  {
    forall r | r in records && judge.decode(r).Err? ensures judge.decode(r).error in Unreadable(records, judge) {
    }
  }

  /**
   * A bundle is prepared exactly when its signer is known and paired, its sequence is new,
   * every record decodes and no other transaction of that peer is open. What is prepared is
   * that signer's, at the bundle's own vantage and sequence: every record, in order, each
   * attributed to all of these and to when it was published. A refusal changes nothing.
   */
  lemma PrepareAllOrNothing(s: State, judge: Judge, bundle: Bundle)
    ensures var (after, result) := PrepareOn(s, judge, bundle);
            result.Ok? <==> (judge.verify(bundle).Ok?
                             && var key := judge.verify(bundle).value.ToHex();
                             && key in s.trusted && key !in s.inFlight
                             && (key in s.highest ==> s.highest[key] < bundle.sequence)
                             && forall r :: r in bundle.records ==> judge.decode(r).Ok?)
    ensures var (after, result) := PrepareOn(s, judge, bundle);
            result.Err? ==> after == s
    ensures var (after, result) := PrepareOn(s, judge, bundle);
            result.Ok? ==>
              var p := result.value;
              && judge.verify(bundle) == Ok(p.peer) && p.vantage == bundle.vantage && p.sequence == bundle.sequence
              && Owns(after, p.ToReceipt()) && after.highest == s.highest && after.trusted == s.trusted
              && p.ToReceipt().peer == p.peer && p.ToReceipt().sequence == bundle.sequence
              && |p.evidence| == |bundle.records|
              && forall i :: 0 <= i < |bundle.records| ==>
                   && judge.decode(bundle.records[i]) == Ok(p.evidence[i].fact)
                   && p.evidence[i].origin.peer == p.peer.ToHex()
                   && p.evidence[i].origin.vantage == bundle.vantage
                   && p.evidence[i].origin.sequence == bundle.sequence
                   && p.evidence[i].origin.publishedAt == bundle.publishedAt
  {
    UnreadableEmpty(bundle.records, judge);
    if PrepareOn(s, judge, bundle).1.Ok? {
      ReadableAll(bundle.records, OriginOf(bundle, judge.verify(bundle).value), judge);
    }
  }

  /**
   * A refusal names what stood in the way: the verifier's own error, the signer's key, the
   * cursor and the sequence offered, or exactly the errors of the records that do not decode.
   */
  lemma RefusalSaysWhy(s: State, judge: Judge, bundle: Bundle)
    ensures var r := PrepareOn(s, judge, bundle).1;
            r.Err? ==>
              match r.error
              case Unverifiable(e) => judge.verify(bundle) == Err(e)
              case NotPaired(k) => judge.verify(bundle).Ok? && k == judge.verify(bundle).value.ToHex() && k !in s.trusted
              case Busy(k) =>
                && judge.verify(bundle).Ok? && k == judge.verify(bundle).value.ToHex() && k in s.trusted && k in s.inFlight
                && (k in s.highest ==> s.highest[k] < bundle.sequence)
                && forall w :: w in bundle.records ==> judge.decode(w).Ok?
              case Stale(seen, offered) =>
                && judge.verify(bundle).Ok? && judge.verify(bundle).value.ToHex() in s.highest
                && judge.verify(bundle).value.ToHex() in s.trusted
                && seen == s.highest[judge.verify(bundle).value.ToHex()] && offered == bundle.sequence <= seen
              case Undecodable(reasons) =>
                && reasons != {}
                && forall e :: e in reasons <==> exists w :: w in bundle.records && judge.decode(w) == Err(e)
  {
    UnreadableEmpty(bundle.records, judge);
  }

  /** Pairing admits exactly one more peer, and touches nothing else. */
  lemma PairAdmits(s: State, peer: PeerId)
    ensures var after := PairOn(s, peer);
            && (forall k :: k in after.trusted <==> k in s.trusted || k == peer.ToHex())
            && after.highest == s.highest && after.inFlight == s.inFlight && after.nextToken == s.nextToken
  {
  }

  /**
   * Once a bundle has been prepared and its receipt committed, a further readable bundle of
   * its signer is prepared exactly when its sequence is above that bundle's.
   */
  lemma NextIsAboveTheLast(s: State, judge: Judge, bundle: Bundle, next: Bundle, peer: PeerId)
    requires PrepareOn(s, judge, bundle).1.Ok? && judge.verify(bundle) == Ok(peer) && judge.verify(next) == Ok(peer)
    requires forall r :: r in next.records ==> judge.decode(r).Ok?
    ensures var (held, first) := PrepareOn(s, judge, bundle);
            var (after, done) := CommitOn(held, first.value.ToReceipt());
            done && (PrepareOn(after, judge, next).1.Ok? <==> next.sequence > bundle.sequence)
  {
    PrepareAllOrNothing(s, judge, bundle);
    var (held, first) := PrepareOn(s, judge, bundle);
    var (after, done) := CommitOn(held, first.value.ToReceipt());
    PrepareAllOrNothing(after, judge, next);
  }

  /** Abandoning undoes a preparation: the identical bundle is accepted again, with the same evidence. */
  lemma AbandonedIsOfferable(s: State, judge: Judge, bundle: Bundle)
    requires PrepareOn(s, judge, bundle).1.Ok?
    ensures var (held, first) := PrepareOn(s, judge, bundle);
            var (freed, released) := AbandonOn(held, first.value.ToReceipt());
            var again := PrepareOn(freed, judge, bundle).1;
            && released && freed.highest == s.highest && freed.inFlight == s.inFlight
            && again.Ok? && again.value.evidence == first.value.evidence
            && again.value.token != first.value.token
  {
    var key := judge.verify(bundle).value.ToHex();
    var token := (s.nextToken + 1) % U64;
    assert s.inFlight[key := token] - {key} == s.inFlight;
  }

  // ----- every run

  datatype Op =
    | Pair(peer: PeerId)
    | Prepare(bundle: Bundle)
    | Commit(receipt: Receipt)
    | Abandon(receipt: Receipt)
    | Restore(peer: PeerId, sequence: nat)

  /** A ledger together with every receipt it handed out and every one it committed. */
  datatype History = History(state: State, issued: seq<Receipt>, committed: seq<Receipt>)

  /** Receipts are only ever obtained from `prepare`. */
  predicate Allowed(h: History, op: Op) {
    match op
    case Commit(receipt) => receipt in h.issued
    case Abandon(receipt) => receipt in h.issued
    case _ => true
  }

  function Apply(h: History, judge: Judge, op: Op): History {
    match op
    case Pair(peer) => h.(state := PairOn(h.state, peer))
    case Prepare(bundle) =>
      var (state, result) := PrepareOn(h.state, judge, bundle);
      if result.Ok? then h.(state := state, issued := h.issued + [result.value.ToReceipt()]) else h
    case Commit(receipt) =>
      var (state, done) := CommitOn(h.state, receipt);
      if done then h.(state := state, committed := h.committed + [receipt]) else h
    case Abandon(receipt) => h.(state := AbandonOn(h.state, receipt).0)
    case Restore(peer, sequence) => h.(state := RestoreOn(h.state, peer, sequence))
  }

  predicate Legal(h: History, judge: Judge, ops: seq<Op>)
    decreases |ops|
  {
    ops == [] ||
    (Allowed(h, ops[0]) && Legal(Apply(h, judge, ops[0]), judge, ops[1..]))
  }

  function Play(h: History, judge: Judge, ops: seq<Op>): History
    decreases |ops|
  {
    if ops == [] then h else Play(Apply(h, judge, ops[0]), judge, ops[1..])
  }

  const START := History(FRESH, [], [])

  /** Receipt number `i` carries token `i + 1`, modulo the width of the counter. */
  predicate TokensCount(h: History) {
    && h.state.nextToken == |h.issued| % U64
    && forall i :: 0 <= i < |h.issued| ==> h.issued[i].token == (i + 1) % U64
  }

  lemma {:induction false} TokensAlwaysCount(h: History, judge: Judge, ops: seq<Op>)
    requires TokensCount(h)
    ensures TokensCount(Play(h, judge, ops))
    decreases |ops|
  {
    if ops != [] {
      TokensAlwaysCount(Apply(h, judge, ops[0]), judge, ops[1..]);
    }
  }

  /**
   * Two reservations of one run share a token exactly when a multiple of 2^64 reservations
   * separates them, so no token is reused within 2^64 of them.
   */
  lemma TokensNeverReused(judge: Judge, ops: seq<Op>, i: nat, j: nat)
    requires i < j < |Play(START, judge, ops).issued|
    ensures var issued := Play(START, judge, ops).issued;
            issued[i].token == issued[j].token <==> (j - i) % U64 == 0
  {
    TokensAlwaysCount(START, judge, ops);
  }

  /** A receipt's sequence is above every one committed for its peer. */
  predicate IsNews(committed: seq<Receipt>, receipt: Receipt) {
    forall i :: 0 <= i < |committed| && committed[i].peer.ToHex() == receipt.peer.ToHex() ==>
      committed[i].sequence < receipt.sequence
  }

  predicate ReservationOwned(h: History, k: Text, token: nat) {
    && 1 <= token <= |h.issued|
    && h.issued[token - 1].peer.ToHex() == k
    && IsNews(h.committed, h.issued[token - 1])
  }

  /** Each held reservation belongs to a receipt that was issued for that peer and is still news. */
  predicate ReservationsOwned(h: History) {
    forall k :: k in h.state.inFlight ==> ReservationOwned(h, k, h.state.inFlight[k])
  }

  predicate CommitsRecorded(h: History) {
    forall i :: 0 <= i < |h.committed| ==>
      var k := h.committed[i].peer.ToHex();
      k in h.state.highest && h.committed[i].sequence <= h.state.highest[k]
  }

  predicate Sound(h: History) {
    TokensCount(h) && ReservationsOwned(h) && CommitsRecorded(h) && CommitsIncrease(h.committed)
  }

  predicate CommitsIncrease(committed: seq<Receipt>) {
    forall i, j :: 0 <= i < j < |committed| && committed[i].peer == committed[j].peer ==>
      committed[i].sequence < committed[j].sequence
  }

  lemma ReceiptFromToken(h: History, receipt: Receipt)
    requires TokensCount(h) && |h.issued| < U64 && receipt in h.issued
    ensures 1 <= receipt.token <= |h.issued| && h.issued[receipt.token - 1] == receipt
  {
    var i :| 0 <= i < |h.issued| && h.issued[i] == receipt;
  }

  lemma CommitIncreases(h: History, receipt: Receipt)
    requires CommitsIncrease(h.committed) && IsNews(h.committed, receipt)
    ensures CommitsIncrease(h.committed + [receipt])
  {
    var after := h.committed + [receipt];
    forall i, j | 0 <= i < j < |after| && after[i].peer == after[j].peer ensures after[i].sequence < after[j].sequence {
      if j == |h.committed| {
        assert h.committed[i].peer.ToHex() == receipt.peer.ToHex();
      }
    }
  }

  lemma CommitKeepsSound(h: History, judge: Judge, receipt: Receipt)
    requires Sound(h) && |h.issued| < U64 && receipt in h.issued
    ensures Sound(Apply(h, judge, Commit(receipt)))
  {
    if Owns(h.state, receipt) {
      ReceiptFromToken(h, receipt);
      var key := receipt.peer.ToHex();
      var after := Apply(h, judge, Commit(receipt));
      assert ReservationOwned(h, key, receipt.token);
      CommitIncreases(h, receipt);
      forall k | k in after.state.inFlight ensures ReservationOwned(after, k, after.state.inFlight[k]) {
        assert ReservationOwned(h, k, h.state.inFlight[k]);
      }
    }
  }

  lemma PreparedIsNews(h: History, judge: Judge, bundle: Bundle)
    requires CommitsRecorded(h) && PrepareOn(h.state, judge, bundle).1.Ok?
    ensures IsNews(h.committed, PrepareOn(h.state, judge, bundle).1.value.ToReceipt())
  {
  }

  lemma ReservedIsOwned(h: History, next: History, key: Text, receipt: Receipt)
    requires ReservationsOwned(h) && receipt.peer.ToHex() == key && IsNews(h.committed, receipt)
    requires next.issued == h.issued + [receipt] && next.committed == h.committed
    requires next.state.inFlight == h.state.inFlight[key := |next.issued|]
    ensures ReservationsOwned(next)
  {
    forall k | k in next.state.inFlight ensures ReservationOwned(next, k, next.state.inFlight[k]) {
      if k != key {
        assert ReservationOwned(h, k, h.state.inFlight[k]);
      }
    }
  }

  lemma PrepareKeepsSound(h: History, judge: Judge, bundle: Bundle)
    requires Sound(h) && |Apply(h, judge, Prepare(bundle)).issued| < U64
    ensures Sound(Apply(h, judge, Prepare(bundle)))
  {
    var result := PrepareOn(h.state, judge, bundle).1;
    TokensAlwaysCount(h, judge, [Prepare(bundle)]);
    if result.Ok? {
      PreparedIsNews(h, judge, bundle);
      ReservedIsOwned(h, Apply(h, judge, Prepare(bundle)), result.value.peer.ToHex(), result.value.ToReceipt());
    }
  }

  lemma ReleaseKeepsSound(h: History, judge: Judge, receipt: Receipt)
    requires Sound(h)
    ensures Sound(Apply(h, judge, Abandon(receipt)))
  {
  }

  lemma RestoreKeepsSound(h: History, judge: Judge, peer: PeerId, sequence: nat)
    requires Sound(h)
    ensures Sound(Apply(h, judge, Restore(peer, sequence)))
  {
  }

  lemma StepKeepsSound(h: History, judge: Judge, op: Op)
    requires Sound(h) && Allowed(h, op) && |Apply(h, judge, op).issued| < U64
    ensures Sound(Apply(h, judge, op))
  {
    match op
    case Pair(_) =>
    case Prepare(bundle) => PrepareKeepsSound(h, judge, bundle);
    case Commit(receipt) => CommitKeepsSound(h, judge, receipt);
    case Abandon(receipt) => ReleaseKeepsSound(h, judge, receipt);
    case Restore(peer, sequence) => RestoreKeepsSound(h, judge, peer, sequence);
  }

  lemma {:induction false} IssuedGrows(h: History, judge: Judge, ops: seq<Op>)
    ensures h.issued <= Play(h, judge, ops).issued
    decreases |ops|
  {
    if ops != [] {
      IssuedGrows(Apply(h, judge, ops[0]), judge, ops[1..]);
    }
  }

  lemma {:induction false} RunKeepsSound(h: History, judge: Judge, ops: seq<Op>)
    requires Sound(h) && Legal(h, judge, ops) && |Play(h, judge, ops).issued| < U64
    ensures Sound(Play(h, judge, ops))
    decreases |ops|
  {
    if ops != [] {
      var next := Apply(h, judge, ops[0]);
      IssuedGrows(next, judge, ops[1..]);
      StepKeepsSound(h, judge, ops[0]);
      RunKeepsSound(next, judge, ops[1..]);
    }
  }

  /** Over every run, the sequences committed for one peer strictly increase. */
  lemma CommittedSequencesIncrease(judge: Judge, ops: seq<Op>)
    requires Legal(START, judge, ops) && |Play(START, judge, ops).issued| < U64
    ensures CommitsIncrease(Play(START, judge, ops).committed)
  {
    RunKeepsSound(START, judge, ops);
  }

  /**
   * A commit leaves the cursor at its own sequence exactly when the cursor was not beyond it:
   * otherwise the bundle commits below the cursor, which stays where it is.
   */
  lemma CommitReachesTheCursorExactly(s: State, receipt: Receipt)
    requires Owns(s, receipt)
    ensures var key := receipt.peer.ToHex();
            var (after, done) := CommitOn(s, receipt);
            && done && key in after.highest && receipt.sequence <= after.highest[key]
            && (after.highest[key] == receipt.sequence <==> key !in s.highest || s.highest[key] <= receipt.sequence)
            && (key in s.highest ==> s.highest[key] <= after.highest[key])
  {
  }

  /** Restoring a cursor during a transaction is how that happens: sequence 1 commits under a cursor of 9. */
  lemma RestoreMidFlightCommitsBelowTheCursor(judge: Judge, bundle: Bundle)
    requires judge.verify(bundle).Ok? && bundle.sequence == 1 && bundle.records == []
    ensures var peer := judge.verify(bundle).value;
            var held := PrepareOn(PairOn(FRESH, peer), judge, bundle);
            held.1.Ok?
            && var (after, done) := CommitOn(RestoreOn(held.0, peer, 9), held.1.value.ToReceipt());
            done && after.highest[peer.ToHex()] == 9
  {
    var peer := judge.verify(bundle).value;
    assert Unreadable(bundle.records, judge) == {};
  }

  predicate Releases(op: Op, receipt: Receipt) {
    op == Commit(receipt) || op == Abandon(receipt)
  }

  /** One operation takes a reservation from its owner only if it releases it, and never gives it back. */
  lemma OwnershipStep(h: History, judge: Judge, op: Op, receipt: Receipt)
    requires Sound(h) && Allowed(h, op) && |h.issued| + 1 < U64 && receipt in h.issued
    ensures Owns(Apply(h, judge, op).state, receipt) <==> Owns(h.state, receipt) && !Releases(op, receipt)
  {
    ReceiptFromToken(h, receipt);
    match op
    case Commit(other) => ReceiptFromToken(h, other);
    case Abandon(other) => ReceiptFromToken(h, other);
    case _ =>
  }

  lemma {:induction false} NotOwnedStaysUnowned(h: History, judge: Judge, ops: seq<Op>, receipt: Receipt)
    requires Sound(h) && Legal(h, judge, ops) && |Play(h, judge, ops).issued| + 1 < U64
    requires receipt in h.issued && !Owns(h.state, receipt)
    ensures !Owns(Play(h, judge, ops).state, receipt)
    decreases |ops|
  {
    if ops != [] {
      var next := Apply(h, judge, ops[0]);
      IssuedGrows(h, judge, ops);
      IssuedGrows(next, judge, ops[1..]);
      StepKeepsSound(h, judge, ops[0]);
      OwnershipStep(h, judge, ops[0], receipt);
      NotOwnedStaysUnowned(next, judge, ops[1..], receipt);
    }
  }

  /**
   * A reservation is held until its own receipt is committed or abandoned, and exactly until
   * then: a receipt that is merely dropped keeps its peer busy for the rest of the run.
   */
  lemma {:induction false} HeldUntilReleased(h: History, judge: Judge, ops: seq<Op>, receipt: Receipt)
    requires Sound(h) && Legal(h, judge, ops) && |Play(h, judge, ops).issued| + 1 < U64
    requires receipt in h.issued && Owns(h.state, receipt)
    ensures Owns(Play(h, judge, ops).state, receipt) <==> forall op :: op in ops ==> !Releases(op, receipt)
    decreases |ops|
  {
    if ops != [] {
      var next := Apply(h, judge, ops[0]);
      IssuedGrows(h, judge, ops);
      IssuedGrows(next, judge, ops[1..]);
      StepKeepsSound(h, judge, ops[0]);
      OwnershipStep(h, judge, ops[0], receipt);
      assert forall op :: op in ops <==> op == ops[0] || op in ops[1..];
      if Releases(ops[0], receipt) {
        NotOwnedStaysUnowned(next, judge, ops[1..], receipt);
      } else {
        HeldUntilReleased(next, judge, ops[1..], receipt);
      }
    }
  }

  /** A prepared bundle that is dropped blocks its peer: nothing of that peer's is prepared again. */
  lemma DroppedBlocksThePeer(h: History, judge: Judge, ops: seq<Op>, receipt: Receipt, bundle: Bundle)
    requires Sound(h) && Legal(h, judge, ops) && |Play(h, judge, ops).issued| + 1 < U64
    requires receipt in h.issued && Owns(h.state, receipt)
    requires forall op :: op in ops ==> !Releases(op, receipt)
    requires judge.verify(bundle) == Ok(receipt.peer)
    ensures PrepareOn(Play(h, judge, ops).state, judge, bundle).1.Err?
  {
    HeldUntilReleased(h, judge, ops, receipt);
  }

  // ----- the ledger as the source holds it

  class PeerLedger {
    var trusted: map<Text, PeerId>
    var highestSequence: map<Text, nat>
    var inFlight: map<Text, nat>
    var nextToken: nat

    ghost function Contents(): State
      reads this
    {
      State(trusted, highestSequence, inFlight, nextToken)
    }

    constructor ()
      ensures Contents() == FRESH
    {
      trusted, highestSequence, inFlight, nextToken := map[], map[], map[], 0;
    }

    method PairPeer(peer: PeerId)
      modifies this
      ensures Contents() == PairOn(old(Contents()), peer)
    {
      trusted := trusted[peer.ToHex() := peer];
    }

    method PrepareBundle(judge: Judge, bundle: Bundle) returns (result: Result<Prepared, RejectReason>)
      modifies this
      ensures (Contents(), result) == PrepareOn(old(Contents()), judge, bundle)
    {
      var verdict := judge.verify(bundle);
      if verdict.Err? {
        return Err(Unverifiable(verdict.error));
      }
      var peer := verdict.value;
      var key := peer.ToHex();
      if key !in trusted {
        return Err(NotPaired(key));
      }
      if key in highestSequence && bundle.sequence <= highestSequence[key] {
        return Err(Stale(highestSequence[key], bundle.sequence));
      }
      var origin := OriginOf(bundle, peer);
      var evidence: seq<Evidence> := [];
      var undecodable: set<Text> := {};
      for i := 0 to |bundle.records|
        invariant evidence == Readable(bundle.records[..i], origin, judge)
        invariant undecodable == Unreadable(bundle.records[..i], judge)
      {
        var record := bundle.records[i];
        assert bundle.records[..i + 1][..i] == bundle.records[..i];
        assert bundle.records[..i + 1] == bundle.records[..i] + [record];
        match judge.decode(record)
        case Ok(fact) => evidence := evidence + [Evidence(fact, origin)];
        case Err(error) => undecodable := undecodable + {error};
      }
      assert bundle.records[..|bundle.records|] == bundle.records;
      if undecodable != {} {
        return Err(Undecodable(undecodable));
      }
      if key in inFlight {
        return Err(Busy(key));
      }
      nextToken := (nextToken + 1) % U64;
      inFlight := inFlight[key := nextToken];
      return Ok(Prepared(peer, bundle.vantage, bundle.sequence, evidence, nextToken));
    }

    method CommitReceipt(receipt: Receipt) returns (done: bool)
      modifies this
      ensures (Contents(), done) == CommitOn(old(Contents()), receipt)
    {
      var key := receipt.peer.ToHex();
      if key !in inFlight || inFlight[key] != receipt.token {
        return false;
      }
      var entry := if key in highestSequence then highestSequence[key] else 0;
      highestSequence := highestSequence[key := if receipt.sequence > entry then receipt.sequence else entry];
      assert highestSequence == Raised(old(highestSequence), key, receipt.sequence);
      inFlight := inFlight - {key};
      return true;
    }

    method AbandonReceipt(receipt: Receipt) returns (done: bool)
      modifies this
      ensures (Contents(), done) == AbandonOn(old(Contents()), receipt)
    {
      var key := receipt.peer.ToHex();
      if key !in inFlight || inFlight[key] != receipt.token {
        return false;
      }
      inFlight := inFlight - {key};
      return true;
    }

    method RestoreCursor(peer: PeerId, sequence: nat)
      modifies this
      ensures Contents() == RestoreOn(old(Contents()), peer, sequence)
    {
      var key := peer.ToHex();
      var entry := if key in highestSequence then highestSequence[key] else 0;
      highestSequence := highestSequence[key := if sequence > entry then sequence else entry];
      assert highestSequence == Raised(old(highestSequence), key, sequence);
    }
  }
}
