/**
 * Peer evidence waiting for the engine (src/federation/source.rs).
 *
 * The class is the source as one caller sees it. The race below is the source as it runs:
 * any number of deliveries, each three separate atomic actions, interleaved with refusals, the
 * engine's drains and its finish in every possible order.
 */
module Source {
  import opened Bytes
  import opened Buffers
  import opened Hex
  import opened Outcomes
  import opened Ledger

  datatype Accepted = Accepted(peer: PeerId, vantage: Text, sequence: nat, evidence: seq<Evidence>)

  datatype Delivery = Queued | Declined

  datatype PeerOutcome = PeerOutcome(peer: PeerId, vantage: Text, bundles: nat, records: nat, rejected: seq<Text>) {
    predicate For(p: PeerId, v: Text) {
      peer == p && vantage == v
    }
  }

  function Nothing(peer: PeerId, vantage: Text): PeerOutcome {
    PeerOutcome(peer, vantage, 0, 0, [])
  }

  datatype Change = Credit(records: nat) | Refusal(reason: Text) {
    function On(o: PeerOutcome): PeerOutcome {
      match this
      case Credit(n) => o.(bundles := o.bundles + 1, records := o.records + n)
      case Refusal(reason) => o.(rejected := o.rejected + [reason])
    }
  }

  /** The first outcome of a peer at a vantage, or an empty one. */
  function Of(outcomes: seq<PeerOutcome>, peer: PeerId, vantage: Text): PeerOutcome {
    if outcomes == [] then Nothing(peer, vantage)
    else if outcomes[0].For(peer, vantage) then outcomes[0]
    else Of(outcomes[1..], peer, vantage)
  }

  /** `find` then update in place, or push a new entry. */
  function Changed(outcomes: seq<PeerOutcome>, peer: PeerId, vantage: Text, change: Change): seq<PeerOutcome> {
    if outcomes == [] then [change.On(Nothing(peer, vantage))]
    else if outcomes[0].For(peer, vantage) then [change.On(outcomes[0])] + outcomes[1..]
    else [outcomes[0]] + Changed(outcomes[1..], peer, vantage, change)
  }

  /** A change reaches the one outcome it is for and no other. */
  lemma {:induction false} ChangedOf(outcomes: seq<PeerOutcome>, peer: PeerId, vantage: Text, change: Change,
                                     p: PeerId, v: Text)
    ensures Of(Changed(outcomes, peer, vantage, change), p, v)
         == if p == peer && v == vantage then change.On(Of(outcomes, p, v)) else Of(outcomes, p, v)
  {
    if outcomes != [] && !outcomes[0].For(peer, vantage) {
      ChangedOf(outcomes[1..], peer, vantage, change, p, v);
      assert Changed(outcomes, peer, vantage, change)[1..] == Changed(outcomes[1..], peer, vantage, change);
    } else if outcomes != [] {
      assert Changed(outcomes, peer, vantage, change)[1..] == outcomes[1..];
    } else {
      assert Changed(outcomes, peer, vantage, change)[1..] == [];
    }
  }

  /** Where a peer's outcome at a vantage stands; the end if it has none yet. */
  function PlaceOf(outcomes: seq<PeerOutcome>, peer: PeerId, vantage: Text): (i: nat)
    ensures i <= |outcomes|
  {
    if outcomes == [] || outcomes[0].For(peer, vantage) then 0 else 1 + PlaceOf(outcomes[1..], peer, vantage)
  }

  lemma {:induction false} ChangedAt(outcomes: seq<PeerOutcome>, peer: PeerId, vantage: Text, change: Change, i: nat)
    requires i == PlaceOf(outcomes, peer, vantage)
    ensures Changed(outcomes, peer, vantage, change) ==
            if i < |outcomes| then outcomes[i := change.On(outcomes[i])] else outcomes + [change.On(Nothing(peer, vantage))]
  {
    if outcomes != [] && !outcomes[0].For(peer, vantage) {
      ChangedAt(outcomes[1..], peer, vantage, change, i - 1);
    }
  }

  lemma {:induction false} PlaceAfter(outcomes: seq<PeerOutcome>, peer: PeerId, vantage: Text, i: nat)
    requires i <= |outcomes| && forall j :: 0 <= j < i ==> !outcomes[j].For(peer, vantage)
    requires i < |outcomes| ==> outcomes[i].For(peer, vantage)
    ensures PlaceOf(outcomes, peer, vantage) == i
  {
    if i > 0 {
      PlaceAfter(outcomes[1..], peer, vantage, i - 1);
    }
  }

  /** `iter_mut().find(...)`. */
  method FindOutcome(outcomes: seq<PeerOutcome>, peer: PeerId, vantage: Text) returns (i: nat)
    ensures i == PlaceOf(outcomes, peer, vantage)
  {
    i := 0;
    while i < |outcomes| && !outcomes[i].For(peer, vantage)
      invariant i <= |outcomes| && forall j :: 0 <= j < i ==> !outcomes[j].For(peer, vantage)
    {
      i := i + 1;
    }
    PlaceAfter(outcomes, peer, vantage, i);
  }

  class FederationSource {
    var pending: seq<Evidence>
    var stopped: bool
    var outcomes: seq<PeerOutcome>
    var acceptedRecords: nat

    ghost function Buffered(): Buffer<Evidence>
      reads this
    {
      Buffer(pending, stopped)
    }

    constructor ()
      ensures pending == [] && !stopped && outcomes == [] && acceptedRecords == 0
    {
      pending, stopped, outcomes, acceptedRecords := [], false, [], 0;
    }

    method Tally(peer: PeerId, vantage: Text, change: Change)
      modifies this`outcomes
      ensures outcomes == Changed(old(outcomes), peer, vantage, change)
    {
      var i := FindOutcome(outcomes, peer, vantage);
      ChangedAt(outcomes, peer, vantage, change, i);
      if i < |outcomes| {
        outcomes := outcomes[i := change.On(outcomes[i])];
      } else {
        outcomes := outcomes + [change.On(Nothing(peer, vantage))];
      }
    }

    method Deliver(accepted: Accepted) returns (delivery: Delivery)
      modifies this
      ensures stopped == old(stopped) && (delivery == Declined <==> stopped)
      ensures delivery == Declined ==> unchanged(this)
      ensures Buffered() == old(Buffered()).Offered(accepted.evidence)
      ensures delivery == Queued ==>
                && acceptedRecords == (old(acceptedRecords) + |accepted.evidence|) % U64
                && outcomes == Changed(old(outcomes), accepted.peer, accepted.vantage, Credit(|accepted.evidence|))
    {
      if stopped {
        return Declined;
      }
      pending := pending + accepted.evidence;
      acceptedRecords := (acceptedRecords + |accepted.evidence|) % U64;
      Tally(accepted.peer, accepted.vantage, Credit(|accepted.evidence|));
      return Queued;
    }

    /** A refusal that cannot be attributed to a peer is not recorded. */
    method Reject(peer: Option<PeerId>, vantage: Text, reason: Text)
      modifies this`outcomes
      ensures outcomes == if peer.None? then old(outcomes)
                          else Changed(old(outcomes), peer.value, vantage, Refusal(reason))
    {
      if peer.Some? {
        Tally(peer.value, vantage, Refusal(reason));
      }
    }

    method Drain() returns (taken: seq<Evidence>)
      modifies this`pending
      ensures taken == old(pending) && Buffered() == old(Buffered()).Taken(false)
    {
      taken := pending;
      pending := [];
    }

    method Finish() returns (taken: seq<Evidence>)
      modifies this`pending, this`stopped
      ensures taken == old(pending) && Buffered() == old(Buffered()).Taken(true)
    {
      stopped := true;
      taken := pending;
      pending := [];
    }
  }

  // ----- every interleaving

  /** Where one `deliver` call is between its atomic actions. */
  datatype Stage = Arriving | Counting | Tallying | Returned(delivery: Delivery)

  datatype Call = Call(accepted: Accepted, stage: Stage) {
    /** Whether the lock was won while the source was open. */
    predicate Won() {
      stage == Counting || stage == Tallying || stage == Returned(Queued)
    }

    function Size(): nat { |accepted.evidence| }
  }

  /**
   * `taken` logs what won the lock, in order; `absorbed` what the engine took out, in order;
   * `counted` is what the counter would show if it were unbounded; `refusals` every `reject`.
   */
  datatype Race = Race(buffer: Buffer<Evidence>, accepted: nat, counted: nat, outcomes: seq<PeerOutcome>,
                       absorbed: seq<Evidence>, taken: seq<Evidence>, calls: seq<Call>, refusals: seq<Refused>)

  /** A `reject` call: one atomic action. */
  datatype Refused = Refused(peer: Option<PeerId>, vantage: Text, reason: Text)

  datatype Action = Enqueue(i: nat) | Count(i: nat) | Report(i: nat) | Reject(refused: Refused) | Drain | Finish

  predicate Enabled(r: Race, a: Action) {
    match a
    case Enqueue(i) => i < |r.calls| && r.calls[i].stage == Arriving
    case Count(i) => i < |r.calls| && r.calls[i].stage == Counting
    case Report(i) => i < |r.calls| && r.calls[i].stage == Tallying
    case _ => true
  }

  function Staged(r: Race, i: nat, stage: Stage): Race
    requires i < |r.calls|
  {
    r.(calls := r.calls[i := r.calls[i].(stage := stage)])
  }

  function Act(r: Race, a: Action): Race
    requires Enabled(r, a)
  {
    match a
    case Enqueue(i) =>
      if r.buffer.stopped then Staged(r, i, Returned(Declined))
      else Staged(r, i, Counting).(buffer := r.buffer.Offered(r.calls[i].accepted.evidence),
                                   taken := r.taken + r.calls[i].accepted.evidence)
    case Count(i) => Staged(r, i, Tallying).(accepted := (r.accepted + r.calls[i].Size()) % U64,
                                             counted := r.counted + r.calls[i].Size())
    case Report(i) =>
      var accepted := r.calls[i].accepted;
      Staged(r, i, Returned(Queued)).(
        outcomes := Changed(r.outcomes, accepted.peer, accepted.vantage, Credit(|accepted.evidence|)))
    case Reject(refused) =>
      r.(refusals := r.refusals + [refused],
         outcomes := if refused.peer.None? then r.outcomes
                     else Changed(r.outcomes, refused.peer.value, refused.vantage, Refusal(refused.reason)))
    case Drain => r.(buffer := r.buffer.Taken(false), absorbed := r.absorbed + r.buffer.pending)
    case Finish => r.(buffer := r.buffer.Taken(true), absorbed := r.absorbed + r.buffer.pending)
  }

  predicate Legal(r: Race, actions: seq<Action>)
    decreases |actions|
  {
    actions == [] || (Enabled(r, actions[0]) && Legal(Act(r, actions[0]), actions[1..]))
  }

  function Play(r: Race, actions: seq<Action>): Race
    requires Legal(r, actions)
    decreases |actions|
  {
    if actions == [] then r else Play(Act(r, actions[0]), actions[1..])
  }

  predicate IsStart(r: Race) {
    && r.buffer == Buffer([], false) && r.absorbed == r.taken == [] && r.accepted == r.counted == 0
    && r.outcomes == [] && r.refusals == []
    && forall i :: 0 <= i < |r.calls| ==> r.calls[i].stage == Arriving
  }

  /** Records of calls that won the lock and have not added to the counter yet. */
  function Uncounted(calls: seq<Call>): nat {
    if calls == [] then 0
    else Uncounted(calls[..|calls| - 1]) +
         (if calls[|calls| - 1].stage == Counting then calls[|calls| - 1].Size() else 0)
  }

  /** Every record of every call that won the lock. */
  function WonRecords(calls: seq<Call>): multiset<Evidence> {
    if calls == [] then multiset{}
    else WonRecords(calls[..|calls| - 1]) + Share(calls[|calls| - 1])
  }

  function Share(c: Call): multiset<Evidence> {
    if c.Won() then multiset(c.accepted.evidence) else multiset{}
  }

  predicate CreditedTo(c: Call, peer: PeerId, vantage: Text) {
    c.stage == Returned(Queued) && c.accepted.peer == peer && c.accepted.vantage == vantage
  }

  /** Records the returned calls of one peer at one vantage brought. */
  function Credited(calls: seq<Call>, peer: PeerId, vantage: Text): nat {
    if calls == [] then 0
    else
      var last := calls[|calls| - 1];
      Credited(calls[..|calls| - 1], peer, vantage) + if CreditedTo(last, peer, vantage) then last.Size() else 0
  }

  /** How many of them there were. */
  function Bundles(calls: seq<Call>, peer: PeerId, vantage: Text): nat {
    if calls == [] then 0
    else Bundles(calls[..|calls| - 1], peer, vantage) + if CreditedTo(calls[|calls| - 1], peer, vantage) then 1 else 0
  }

  /** The reasons bundles of one peer at one vantage were refused for, in order. */
  function Reasons(refusals: seq<Refused>, peer: PeerId, vantage: Text): seq<Text> {
    if refusals == [] then []
    else
      var last := refusals[|refusals| - 1];
      Reasons(refusals[..|refusals| - 1], peer, vantage) +
      if last.peer == Some(peer) && last.vantage == vantage then [last.reason] else []
  }

  predicate Conserved(r: Race) {
    && r.taken == r.absorbed + r.buffer.pending
    && (r.buffer.stopped ==> r.buffer.pending == [])
    && WonRecords(r.calls) == multiset(r.taken)
  }

  predicate Counted(r: Race) {
    r.accepted == r.counted % U64 && r.counted + Uncounted(r.calls) == |r.taken|
  }

  /** What one peer at one vantage brought, and what of it was refused. */
  function Tallied(r: Race, p: PeerId, v: Text): PeerOutcome {
    PeerOutcome(p, v, Bundles(r.calls, p, v), Credited(r.calls, p, v), Reasons(r.refusals, p, v))
  }

  ghost predicate TalliesHold(r: Race) {
    forall p, v :: Of(r.outcomes, p, v) == Tallied(r, p, v)
  }

  lemma {:induction false} UncountedAfter(calls: seq<Call>, i: nat, stage: Stage)
    requires i < |calls|
    ensures var c := calls[i].(stage := stage);
            Uncounted(calls[i := c]) + (if calls[i].stage == Counting then c.Size() else 0) ==
            Uncounted(calls) + (if stage == Counting then c.Size() else 0)
  {
    var init, c := calls[..|calls| - 1], calls[i].(stage := stage);
    if i < |init| {
      UncountedAfter(init, i, stage);
      assert calls[i := c][..|calls| - 1] == init[i := c];
    } else {
      assert calls[i := c][..|calls| - 1] == init;
    }
  }

  lemma {:induction false} WonAfter(calls: seq<Call>, i: nat, c: Call)
    requires i < |calls|
    ensures WonRecords(calls[i := c]) + Share(calls[i]) == WonRecords(calls) + Share(c)
  {
    var init, last := calls[..|calls| - 1], calls[|calls| - 1];
    if i < |init| {
      WonAfter(init, i, c);
      WonSplits(calls, i, c);
      Regroup(WonRecords(init[i := c]), Share(calls[i]), WonRecords(init), Share(c), Share(last));
    } else {
      assert calls[i := c][..|calls| - 1] == init;
    }
  }

  lemma WonSplits(calls: seq<Call>, i: nat, c: Call)
    requires i < |calls| - 1
    ensures var init, last := calls[..|calls| - 1], calls[|calls| - 1];
            WonRecords(calls) == WonRecords(init) + Share(last) && WonRecords(calls[i := c]) == WonRecords(init[i := c]) + Share(last)
  {
    assert calls[i := c][..|calls| - 1] == calls[..|calls| - 1][i := c];
  }

  lemma Regroup(a: multiset<Evidence>, x: multiset<Evidence>, b: multiset<Evidence>, y: multiset<Evidence>,
                m: multiset<Evidence>)
    requires a + x == b + y
    ensures a + m + x == b + m + y
  {
    forall e ensures (a + m + x)[e] == (b + m + y)[e] {
      assert (a + x)[e] == (b + y)[e];
    }
  }

  lemma {:induction false} CreditedAfter(calls: seq<Call>, i: nat, stage: Stage, p: PeerId, v: Text)
    requires i < |calls| && calls[i].stage != Returned(Queued)
    ensures var c := calls[i].(stage := stage);
            && Credited(calls[i := c], p, v) == Credited(calls, p, v) + (if CreditedTo(c, p, v) then c.Size() else 0)
            && Bundles(calls[i := c], p, v) == Bundles(calls, p, v) + (if CreditedTo(c, p, v) then 1 else 0)
  {
    var init, c := calls[..|calls| - 1], calls[i].(stage := stage);
    if i < |init| {
      CreditedAfter(init, i, stage, p, v);
      assert calls[i := c][..|calls| - 1] == init[i := c];
    } else {
      assert calls[i := c][..|calls| - 1] == init;
    }
  }

  /** Advancing a call's stage moves exactly its own share. */
  lemma StageMovesShare(calls: seq<Call>, i: nat, stage: Stage)
    requires i < |calls|
    ensures var c := calls[i].(stage := stage);
            && (Share(calls[i]) == Share(c) ==> WonRecords(calls[i := c]) == WonRecords(calls))
            && (!calls[i].Won() && c.Won() ==>
                  WonRecords(calls[i := c]) == WonRecords(calls) + multiset(c.accepted.evidence))
  {
    var c := calls[i].(stage := stage);
    WonAfter(calls, i, c);
    forall e ensures WonRecords(calls[i := c])[e] + Share(calls[i])[e] == WonRecords(calls)[e] + Share(c)[e] {
      assert (WonRecords(calls[i := c]) + Share(calls[i]))[e] == (WonRecords(calls) + Share(c))[e];
    }
  }

  lemma TakenGrows(taken: seq<Evidence>, absorbed: seq<Evidence>, pending: seq<Evidence>, e: seq<Evidence>)
    requires taken == absorbed + pending
    ensures taken + e == absorbed + (pending + e) && multiset(taken + e) == multiset(taken) + multiset(e)
  {
  }

  lemma EnqueueConserves(r: Race, i: nat)
    requires Conserved(r) && Enabled(r, Enqueue(i))
    ensures Conserved(Act(r, Enqueue(i)))
  {
    StageMovesShare(r.calls, i, if r.buffer.stopped then Returned(Declined) else Counting);
    TakenGrows(r.taken, r.absorbed, r.buffer.pending, r.calls[i].accepted.evidence);
  }

  lemma AdvanceConserves(r: Race, i: nat, a: Action)
    requires Conserved(r) && Enabled(r, a) && (a == Count(i) || a == Report(i))
    ensures Conserved(Act(r, a))
  {
    StageMovesShare(r.calls, i, Act(r, a).calls[i].stage);
  }

  lemma ActConserves(r: Race, a: Action)
    requires Conserved(r) && Enabled(r, a)
    ensures Conserved(Act(r, a))
  {
    match a
    case Enqueue(i) => EnqueueConserves(r, i);
    case Count(i) => AdvanceConserves(r, i, a);
    case Report(i) => AdvanceConserves(r, i, a);
    case _ => assert r.taken + [] == r.taken;
  }

  lemma ActKeepsCount(r: Race, a: Action)
    requires Counted(r) && Enabled(r, a)
    ensures Counted(Act(r, a))
  {
    match a
    case Enqueue(i) => UncountedAfter(r.calls, i, if r.buffer.stopped then Returned(Declined) else Counting);
    case Count(i) =>
      UncountedAfter(r.calls, i, Tallying);
      WrappedSum(r.counted, r.calls[i].Size());
    case Report(i) => UncountedAfter(r.calls, i, Returned(Queued));
    case _ =>
  }

  lemma WrappedSum(a: nat, b: nat)
    ensures (a % U64 + b) % U64 == (a + b) % U64
  {
  }

  lemma ReasonsNext(refusals: seq<Refused>, refused: Refused, p: PeerId, v: Text)
    ensures Reasons(refusals + [refused], p, v) ==
            Reasons(refusals, p, v) + if refused.peer == Some(p) && refused.vantage == v then [refused.reason] else []
  {
    assert (refusals + [refused])[..|refusals|] == refusals;
  }

  lemma RejectTallies(r: Race, refused: Refused, p: PeerId, v: Text)
    requires Of(r.outcomes, p, v) == Tallied(r, p, v)
    ensures Of(Act(r, Reject(refused)).outcomes, p, v) == Tallied(Act(r, Reject(refused)), p, v)
  {
    ReasonsNext(r.refusals, refused, p, v);
    if refused.peer.Some? {
      ChangedOf(r.outcomes, refused.peer.value, refused.vantage, Refusal(refused.reason), p, v);
    }
    assert Reasons(r.refusals, p, v) + [] == Reasons(r.refusals, p, v);
  }

  lemma ReportTallies(r: Race, i: nat, p: PeerId, v: Text)
    requires Enabled(r, Report(i)) && Of(r.outcomes, p, v) == Tallied(r, p, v)
    ensures Of(Act(r, Report(i)).outcomes, p, v) == Tallied(Act(r, Report(i)), p, v)
  {
    var accepted := r.calls[i].accepted;
    CreditedAfter(r.calls, i, Returned(Queued), p, v);
    ChangedOf(r.outcomes, accepted.peer, accepted.vantage, Credit(|accepted.evidence|), p, v);
  }

  lemma ActKeepsTallies(r: Race, a: Action)
    requires TalliesHold(r) && Enabled(r, a)
    ensures TalliesHold(Act(r, a))
  {
    forall p, v ensures Of(Act(r, a).outcomes, p, v) == Tallied(Act(r, a), p, v) {
      assert Of(r.outcomes, p, v) == Tallied(r, p, v);
      match a
      case Enqueue(i) => CreditedAfter(r.calls, i, if r.buffer.stopped then Returned(Declined) else Counting, p, v);
      case Count(i) => CreditedAfter(r.calls, i, Tallying, p, v);
      case Report(i) => ReportTallies(r, i, p, v);
      case Reject(refused) => RejectTallies(r, refused, p, v);
      case _ =>
    }
  }

  lemma {:induction false} RunConserves(r: Race, actions: seq<Action>)
    requires Conserved(r) && Counted(r) && TalliesHold(r) && Legal(r, actions)
    ensures Conserved(Play(r, actions)) && Counted(Play(r, actions)) && TalliesHold(Play(r, actions))
    decreases |actions|
  {
    if actions != [] {
      ActConserves(r, actions[0]);
      ActKeepsCount(r, actions[0]);
      ActKeepsTallies(r, actions[0]);
      RunConserves(Act(r, actions[0]), actions[1..]);
    }
  }

  lemma {:induction false} NothingWonYet(calls: seq<Call>)
    requires forall i :: 0 <= i < |calls| ==> calls[i].stage == Arriving
    ensures Uncounted(calls) == 0 && WonRecords(calls) == multiset{}
    ensures forall p, v :: Credited(calls, p, v) == 0 && Bundles(calls, p, v) == 0
  {
    if calls != [] {
      NothingWonYet(calls[..|calls| - 1]);
    }
  }

  lemma {:induction false} AllReturnedAreCounted(calls: seq<Call>)
    requires forall i :: 0 <= i < |calls| ==> calls[i].stage.Returned?
    ensures Uncounted(calls) == 0
  {
    if calls != [] {
      AllReturnedAreCounted(calls[..|calls| - 1]);
    }
  }

  /**
   * Whatever the interleaving, once the source is finished and every delivery has returned:
   * the engine absorbed every record of every queued delivery exactly once and nothing of a
   * declined one, in the order they were queued; the counter equals the number absorbed; and
   * each peer's tally holds exactly its queued bundles and their records, and the reasons of
   * its refused ones in order.
   */
  lemma QueuedExactlyAbsorbed(start: Race, actions: seq<Action>)
    requires IsStart(start) && Legal(start, actions)
    requires var end := Play(start, actions);
             end.buffer.stopped && forall i :: 0 <= i < |end.calls| ==> end.calls[i].stage.Returned?
    ensures var end := Play(start, actions);
            && end.absorbed == end.taken
            && multiset(end.absorbed) == WonRecords(end.calls)
            && end.accepted == |end.absorbed| % U64
            && forall p, v :: Of(end.outcomes, p, v) == Tallied(end, p, v)
  {
    NothingWonYet(start.calls);
    RunConserves(start, actions);
    AllReturnedAreCounted(Play(start, actions).calls);
    assert Play(start, actions).absorbed + [] == Play(start, actions).absorbed;
  }

  /** After the finish nothing is queued, so nothing can be queued and never drained. */
  lemma {:induction false} NothingIsTakenAfterTheFinish(r: Race, actions: seq<Action>)
    requires r.buffer.stopped && Legal(r, actions)
    ensures Play(r, actions).buffer.stopped && Play(r, actions).taken == r.taken
    decreases |actions|
  {
    if actions != [] {
      NothingIsTakenAfterTheFinish(Act(r, actions[0]), actions[1..]);
    }
  }
}
