/**
 * The transaction the ledger and the store exist for: prepare, hand over, make the cursor
 * durable, commit, with an abandon on either failure (src/federation/ledger.rs:78-88 and
 * 183-188). Any number of connections interleave, a task may be dropped at any point, and the
 * process may crash between or inside steps and be started again from its file.
 */
module Ingest {
  import opened Bytes
  import opened Hex
  import opened Outcomes
  import opened Buffers
  import Ledger
  import Store

  /** How far a connection's transaction has come. */
  datatype Phase = Prepared | Queued | Durable

  datatype Transaction = Transaction(receipt: Ledger.Receipt, evidence: seq<Ledger.Evidence>, phase: Phase) {
    function Key(): Text { receipt.peer.ToHex() }
  }

  /** One entry per bundle: which peer's, and which sequence. */
  datatype Mark = Mark(key: Text, sequence: nat)

  /** What one delivery hands the engine. */
  datatype Batch = Batch(mark: Mark, evidence: seq<Ledger.Evidence>)

  /**
   * One process's dealings with its engine: the source they share, everything delivered into
   * it and everything the engine took out, in order; and of what was delivered, what was let
   * go again, what was made durable, and what was then committed.
   */
  datatype Feed = Feed(buffer: Buffer<Batch>, taken: seq<Batch>, absorbed: seq<Batch>,
                       released: seq<Batch>, kept: seq<Batch>, settled: seq<Batch>)

  const CLOSED := Feed(Buffer([], true), [], [], [], [], [])

  /**
   * `offered`, `queued`, `durable` and `committed` log the bundles that arrived, what the
   * engine's queue took, what reached the file and what the ledger committed, across every
   * process this machine ever ran.
   */
  datatype System = System(ledger: Ledger.State, world: Store.World, open: map<nat, Transaction>,
                           queued: seq<Mark>, durable: seq<Mark>, committed: seq<Mark>, feed: Feed,
                           offered: seq<Ledger.Bundle>)

  datatype Env = Env(judge: Ledger.Judge, onCurve: seq<Byte> -> bool)

  const START := System(Ledger.FRESH, Store.World(None, Store.Missing), map[], [], [], [], CLOSED, [])

  /** Seeds a fresh ledger the way startup does, one `restore_cursor` per listed cursor. */
  function RestoreAll(ledger: Ledger.State, cursors: seq<(PeerId, nat)>): Ledger.State {
    if cursors == [] then ledger
    else
      var last := cursors[|cursors| - 1];
      Ledger.RestoreOn(RestoreAll(ledger, cursors[..|cursors| - 1]), last.0, last.1)
  }

  function Heard(s: System, bundle: Ledger.Bundle): System {
    s.(offered := s.offered + [bundle])
  }

  function MarkOf(t: Transaction): Mark {
    Mark(t.Key(), t.receipt.sequence)
  }

  function BatchOf(t: Transaction): Batch {
    Batch(MarkOf(t), t.evidence)
  }

  /** Once delivered, evidence is the engine's: letting its transaction go does not take it back. */
  function Dropped(s: System, c: nat): System
    requires c in s.open
  {
    s.(open := s.open - {c},
       feed := if s.open[c].phase.Queued? then s.feed.(released := s.feed.released + [BatchOf(s.open[c])]) else s.feed)
  }

  function Abandoned(s: System, c: nat): System
    requires c in s.open
  {
    Dropped(s, c).(ledger := Ledger.AbandonOn(s.ledger, s.open[c].receipt).0)
  }

  /** What recording an open transaction does, when the write goes through. */
  function Recorded(s: System, c: nat): System
    requires c in s.open && s.world.process.Some?
  {
    var t := s.open[c];
    var world := Store.RecordOn(s.world, t.receipt.peer, t.receipt.sequence, Store.Renamed).0;
    s.(world := world, open := s.open[c := t.(phase := Durable)], durable := s.durable + [MarkOf(t)],
       feed := s.feed.(kept := s.feed.kept + [BatchOf(t)]))
  }

  /** What delivering an open transaction's evidence does, when the source is running. */
  function Delivered(s: System, c: nat): System
    requires c in s.open
  {
    var b := BatchOf(s.open[c]);
    s.(open := s.open[c := s.open[c].(phase := Queued)], queued := s.queued + [MarkOf(s.open[c])],
       feed := s.feed.(buffer := s.feed.buffer.Offered([b]), taken := s.feed.taken + [b]))
  }

  /** The engine drains its source, or finishes it. */
  function Polled(s: System, finishing: bool): System {
    s.(feed := s.feed.(buffer := s.feed.buffer.Taken(finishing), absorbed := s.feed.absorbed + s.feed.buffer.pending))
  }

  /** A further run of the engine in the same process brings a source of its own. */
  function Listening(s: System): System {
    s.(feed := s.feed.(buffer := Buffer([], false)))
  }

  function Committed(s: System, c: nat): System
    requires c in s.open
  {
    Dropped(s, c).(ledger := Ledger.CommitOn(s.ledger, s.open[c].receipt).0,
                   committed := s.committed + [MarkOf(s.open[c])],
                   feed := s.feed.(settled := s.feed.settled + [BatchOf(s.open[c])]))
  }

  function Down(s: System, file: Store.File): System {
    s.(ledger := Ledger.FRESH, world := Store.World(None, file), open := map[], feed := CLOSED)
  }

  datatype Step =
    | Boot(freshSeed: seq<Byte>, write: Store.Write, cursors: seq<(PeerId, nat)>)
    | Pair(peer: PeerId)
    | Prepare(conn: nat, bundle: Ledger.Bundle)
    | Deliver(conn: nat)
    | Poll(finishing: bool)
    | Listen
    | Record(conn: nat, write: Store.Write)
    | Commit(conn: nat)
    | Drop(conn: nat)
    | Crash
    | CrashInRecord(conn: nat)

  ghost predicate Enabled(s: System, env: Env, step: Step) {
    if step.Boot? then
      && s.world.process.None?
      && var after := Store.OpenOn(s.world, step.freshSeed, step.write);
         (after.process.Some? ==> Store.Lists(step.cursors, after.process.value.inbound, env.onCurve))
    else
      && s.world.process.Some?
      && match step
         case Prepare(c, bundle) =>
           c !in s.open && (env.judge.verify(bundle).Ok? ==> env.judge.verify(bundle).value.Valid(env.onCurve))
         case Listen => s.feed.buffer.stopped
         case Deliver(c) => c in s.open && s.open[c].phase.Prepared?
         case Record(c, _) => c in s.open && s.open[c].phase.Queued?
         case CrashInRecord(c) => c in s.open && s.open[c].phase.Queued?
         case Commit(c) => c in s.open && s.open[c].phase.Durable?
         case Drop(c) => c in s.open
         case _ => true
  }

  ghost function Next(s: System, env: Env, step: Step): System
    requires Enabled(s, env, step)
  {
    match step
    case Boot(seed, write, cursors) =>
      var world := Store.OpenOn(s.world, seed, write);
      if world.process.None? then s.(world := world)
      else s.(world := world, ledger := RestoreAll(Ledger.FRESH, cursors), feed := CLOSED.(buffer := Buffer([], false)))
    case Pair(peer) => s.(ledger := Ledger.PairOn(s.ledger, peer))
    case Prepare(c, bundle) =>
      var (ledger, result) := Ledger.PrepareOn(s.ledger, env.judge, bundle);
      if result.Err? then Heard(s, bundle)
      else Heard(s, bundle).(ledger := ledger,
              open := s.open[c := Transaction(result.value.ToReceipt(), result.value.evidence, Phase.Prepared)])
    case Deliver(c) => if s.feed.buffer.stopped then Abandoned(s, c) else Delivered(s, c)
    case Poll(finishing) => Polled(s, finishing)
    case Listen => Listening(s)
    case Record(c, write) =>
      var (world, ok) := Store.RecordOn(s.world, s.open[c].receipt.peer, s.open[c].receipt.sequence, write);
      if ok then s.(world := world, open := s.open[c := s.open[c].(phase := Durable)],
                    durable := s.durable + [MarkOf(s.open[c])],
                    feed := s.feed.(kept := s.feed.kept + [BatchOf(s.open[c])]))
      else Abandoned(s, c).(world := world)
    case Commit(c) => Committed(s, c)
    case Drop(c) => Dropped(s, c)
    case Crash => Down(s, s.world.file)
    case CrashInRecord(c) =>
      Down(Recorded(s, c), Recorded(s, c).world.file)
  }

  ghost predicate Legal(s: System, env: Env, steps: seq<Step>)
    decreases |steps|
  {
    steps == [] || (Enabled(s, env, steps[0]) && Legal(Next(s, env, steps[0]), env, steps[1..]))
  }

  ghost function Play(s: System, env: Env, steps: seq<Step>): System
    requires Legal(s, env, steps)
    decreases |steps|
  {
    if steps == [] then s else Play(Next(s, env, steps[0]), env, steps[1..])
  }

  // ----- what every step keeps

  function Inbound(s: System): map<Text, nat> {
    if s.world.file.Holds? then s.world.file.stored.inbound else map[]
  }

  predicate SameAt(a: map<Text, nat>, b: map<Text, nat>, key: Text) {
    (key in a <==> key in b) && (key in a ==> a[key] == b[key])
  }

  /** The cursor in memory is never ahead of the one on disk. */
  predicate CursorBehindDisk(s: System) {
    forall k :: k in s.ledger.highest ==> k in Inbound(s) && s.ledger.highest[k] <= Inbound(s)[k]
  }

  predicate Covers(cursors: map<Text, nat>, m: Mark) {
    m.key in cursors && m.sequence <= cursors[m.key]
  }

  /**
   * What holds of one peer: memory is not ahead of disk and equals it while the peer is idle,
   * disk covers what was logged as durable, memory what was committed, and the key parses.
   */
  predicate PeerHolds(s: System, env: Env, k: Text) {
    && (k in s.ledger.highest ==> k in Inbound(s) && s.ledger.highest[k] <= Inbound(s)[k])
    && (s.world.process.Some? && k !in s.ledger.inFlight ==> SameAt(s.ledger.highest, Inbound(s), k))
    && (k in Inbound(s) ==> PeerFromHex(k, env.onCurve).Some? && PeerFromHex(k, env.onCurve).value.ToHex() == k)
    && (forall m :: m in s.durable && m.key == k ==> Covers(Inbound(s), m))
    && (forall m :: m in s.committed && m.key == k ==>
          m in s.durable && (s.world.process.Some? ==> Covers(s.ledger.highest, m)))
  }

  /** An open transaction holds its peer's reservation and still brings something new. */
  predicate TransactionHolds(s: System, env: Env, t: Transaction) {
    && t.receipt.peer.Valid(env.onCurve)
    && Ledger.Owns(s.ledger, t.receipt)
    && (t.Key() in s.ledger.highest ==> s.ledger.highest[t.Key()] < t.receipt.sequence)
    && match t.phase
       case Durable => t.Key() in Inbound(s) && Inbound(s)[t.Key()] == t.receipt.sequence && MarkOf(t) in s.durable
       case _ => SameAt(s.ledger.highest, Inbound(s), t.Key())
  }

  predicate TransactionsHold(s: System, env: Env) {
    Serial(s) && forall c :: c in s.open ==> TransactionHolds(s, env, s.open[c])
  }

  /** No two open transactions are for one peer. */
  predicate Serial(s: System) {
    forall c, d :: c in s.open && d in s.open && c != d ==> s.open[c].Key() != s.open[d].Key()
  }

  predicate Increasing(marks: seq<Mark>) {
    forall i, j :: 0 <= i < j < |marks| && marks[i].key == marks[j].key ==> marks[i].sequence < marks[j].sequence
  }

  predicate WorldHolds(s: System) {
    && Store.MemoryIsDisk(s.world) && !s.world.file.Garbled?
    && (s.world.process.None? ==> s.open == map[] && s.ledger == Ledger.FRESH)
    && Increasing(s.committed) && Increasing(s.durable)
  }

  ghost predicate Inv(s: System, env: Env) {
    WorldHolds(s) && TransactionsHold(s, env) && forall k :: PeerHolds(s, env, k)
  }

  /** A log grew by at most marks of one peer. */
  predicate Grew(before: seq<Mark>, after: seq<Mark>, key: Text) {
    before <= after && forall i :: |before| <= i < |after| ==> after[i].key == key
  }

  predicate SamePeer(s: System, after: System, k: Text) {
    && SameAt(s.ledger.highest, after.ledger.highest, k)
    && SameAt(s.ledger.inFlight, after.ledger.inFlight, k)
    && SameAt(Inbound(s), Inbound(after), k)
  }

  lemma UntouchedPeer(s: System, after: System, env: Env, k: Text, key: Text)
    requires PeerHolds(s, env, k) && k != key && SamePeer(s, after, k)
    requires s.world.process.Some? && after.world.process.Some?
    requires Grew(s.durable, after.durable, key) && Grew(s.committed, after.committed, key)
    ensures PeerHolds(after, env, k)
  {
    assert forall m :: m in after.durable && m.key == k ==> m in s.durable;
    assert forall m :: m in after.committed && m.key == k ==> m in s.committed;
  }

  lemma UntouchedTransaction(s: System, after: System, env: Env, t: Transaction)
    requires TransactionHolds(s, env, t) && SamePeer(s, after, t.Key()) && s.durable <= after.durable
    ensures TransactionHolds(after, env, t)
  {
  }

  /** A step of a running system touches connection `c` and peer `key` and nothing else. */
  ghost predicate Touches(s: System, after: System, c: nat, key: Text) {
    && s.world.process.Some? && after.world.process.Some?
    && (forall d :: d in after.open && d != c ==> d in s.open && after.open[d] == s.open[d] && s.open[d].Key() != key)
    && (c in after.open ==> after.open[c].Key() == key)
    && (forall k :: k != key ==> SamePeer(s, after, k))
    && Grew(s.durable, after.durable, key) && Grew(s.committed, after.committed, key)
  }

  /** Such a step keeps everything if it keeps what concerns that connection and that peer. */
  lemma OnePeerStep(s: System, after: System, env: Env, c: nat, key: Text)
    requires Inv(s, env) && Touches(s, after, c, key)
    requires WorldHolds(after) && PeerHolds(after, env, key)
    requires c in after.open ==> TransactionHolds(after, env, after.open[c])
    ensures Inv(after, env)
  {
    forall d | d in after.open ensures TransactionHolds(after, env, after.open[d]) {
      if d != c {
        UntouchedTransaction(s, after, env, s.open[d]);
      }
    }
    forall k ensures PeerHolds(after, env, k) {
      if k != key {
        UntouchedPeer(s, after, env, k, key);
      }
    }
  }

  lemma {:induction false} RestoreAllKeepsRest(cursors: seq<(PeerId, nat)>)
    ensures RestoreAll(Ledger.FRESH, cursors).inFlight == map[]
    ensures forall k :: k in RestoreAll(Ledger.FRESH, cursors).highest <==> exists c :: c in cursors && c.0.ToHex() == k
    ensures forall c :: c in cursors ==> c.1 <= RestoreAll(Ledger.FRESH, cursors).highest[c.0.ToHex()]
    ensures forall k :: k in RestoreAll(Ledger.FRESH, cursors).highest ==>
              exists c :: c in cursors && c.0.ToHex() == k && c.1 == RestoreAll(Ledger.FRESH, cursors).highest[k]
  {
    if cursors != [] {
      var init, last := cursors[..|cursors| - 1], cursors[|cursors| - 1];
      RestoreAllKeepsRest(init);
      assert forall c :: c in cursors <==> c in init || c == last;
    }
  }

  /** A restart rebuilds exactly the cursors the file holds. */
  lemma RestartRestoresEveryCursor(cursors: seq<(PeerId, nat)>, inbound: map<Text, nat>, onCurve: seq<Byte> -> bool)
    requires Store.Lists(cursors, inbound, onCurve)
    requires forall k :: k in inbound ==>
               PeerFromHex(k, onCurve).Some? && PeerFromHex(k, onCurve).value.ToHex() == k
    ensures RestoreAll(Ledger.FRESH, cursors).highest == inbound
  {
    var highest := RestoreAll(Ledger.FRESH, cursors).highest;
    RestoreAllKeepsRest(cursors);
    forall c | c in cursors ensures c.0.ToHex() in inbound && inbound[c.0.ToHex()] == c.1 {
      var k :| k in inbound && PeerFromHex(k, onCurve) == Some(c.0) && inbound[k] == c.1;
    }
    forall k | k in inbound ensures k in highest {
      assert (PeerFromHex(k, onCurve).value, inbound[k]) in cursors;
    }
  }

  /** A process that has just restored its cursors from the file. */
  lemma RestoredKeepsInv(s: System, after: System, env: Env)
    requires Inv(s, env) && WorldHolds(after) && after.open == map[] && Inbound(after) == Inbound(s)
    requires after.ledger.highest == Inbound(s) && after.ledger.inFlight == map[]
    requires after.durable == s.durable && after.committed == s.committed
    ensures Inv(after, env)
  {
    forall k ensures PeerHolds(after, env, k) {
      assert PeerHolds(s, env, k);
      forall m | m in s.committed && m.key == k ensures m in s.durable && Covers(Inbound(s), m) {
      }
    }
  }

  lemma BootKeepsInv(s: System, env: Env, step: Step)
    requires Inv(s, env) && step.Boot? && Enabled(s, env, step)
    ensures Inv(Next(s, env, step), env)
  {
    var after := Next(s, env, step);
    if after.world.process.Some? {
      assert Inbound(after) == Inbound(s);
      RestoreAllKeepsRest(step.cursors);
      forall k | k in Inbound(s)
        ensures PeerFromHex(k, env.onCurve).Some? && PeerFromHex(k, env.onCurve).value.ToHex() == k
      {
        assert PeerHolds(s, env, k);
      }
      RestartRestoresEveryCursor(step.cursors, Inbound(s), env.onCurve);
      RestoredKeepsInv(s, after, env);
    } else {
      assert after == s;
    }
  }

  /** A down system keeps what its file and its logs say. */
  lemma DownKeepsInv(s: System, after: System, env: Env)
    requires WorldHolds(s) && (forall k :: PeerHolds(s, env, k))
    requires after == Down(s, s.world.file)
    ensures Inv(after, env)
  {
    forall k ensures PeerHolds(after, env, k) {
      assert PeerHolds(s, env, k);
    }
  }

  lemma PrepareKeepsInv(s: System, env: Env, step: Step)
    requires Inv(s, env) && step.Prepare? && Enabled(s, env, step)
    ensures Inv(Next(s, env, step), env)
  {
    var result := Ledger.PrepareOn(s.ledger, env.judge, step.bundle).1;
    var heard := Heard(s, step.bundle);
    LogsKeepInv(s, heard, env);
    if result.Ok? {
      var p := result.value;
      assert Next(s, env, step) == Reserved(heard, step.conn, p);
      ReservedKeepsInv(heard, env, step.conn, p);
    }
  }

  /** A reservation granted, and its transaction opened. */
  function Reserved(s: System, c: nat, p: Ledger.Prepared): System {
    s.(ledger := s.ledger.(nextToken := p.token, inFlight := s.ledger.inFlight[p.peer.ToHex() := p.token]),
       open := s.open[c := Transaction(p.ToReceipt(), p.evidence, Phase.Prepared)])
  }

  lemma ReservedTouches(s: System, env: Env, c: nat, p: Ledger.Prepared)
    requires TransactionsHold(s, env) && s.world.process.Some? && p.peer.ToHex() !in s.ledger.inFlight
    ensures Touches(s, Reserved(s, c, p), c, p.peer.ToHex())
  {
    var key, after := p.peer.ToHex(), Reserved(s, c, p);
    IdlePeerHasNoTransaction(s, env, key);
    forall k | k != key ensures SamePeer(s, after, k) {
    }
    assert after.open[c].Key() == key;
  }

  lemma ReservedPeer(s: System, env: Env, c: nat, p: Ledger.Prepared)
    requires PeerHolds(s, env, p.peer.ToHex()) && s.world.process.Some? && p.peer.ToHex() !in s.ledger.inFlight
    requires p.peer.Valid(env.onCurve)
    requires p.peer.ToHex() in s.ledger.highest ==> s.ledger.highest[p.peer.ToHex()] < p.sequence
    ensures PeerHolds(Reserved(s, c, p), env, p.peer.ToHex())
    ensures TransactionHolds(Reserved(s, c, p), env, Reserved(s, c, p).open[c])
  {
  }

  lemma ReservedKeepsInv(s: System, env: Env, c: nat, p: Ledger.Prepared)
    requires Inv(s, env) && s.world.process.Some? && p.peer.ToHex() !in s.ledger.inFlight
    requires p.peer.Valid(env.onCurve)
    requires p.peer.ToHex() in s.ledger.highest ==> s.ledger.highest[p.peer.ToHex()] < p.sequence
    ensures Inv(Reserved(s, c, p), env)
  {
    ReservedTouches(s, env, c, p);
    assert PeerHolds(s, env, p.peer.ToHex());
    ReservedPeer(s, env, c, p);
    OnePeerStep(s, Reserved(s, c, p), env, c, p.peer.ToHex());
  }

  lemma IdlePeerHasNoTransaction(s: System, env: Env, key: Text)
    requires TransactionsHold(s, env) && key !in s.ledger.inFlight
    ensures forall d :: d in s.open ==> s.open[d].Key() != key
  {
    forall d | d in s.open ensures s.open[d].Key() != key {
      assert TransactionHolds(s, env, s.open[d]);
    }
  }

  lemma AbandonedPeer(s: System, env: Env, c: nat)
    requires c in s.open && PeerHolds(s, env, s.open[c].Key())
    requires TransactionHolds(s, env, s.open[c]) && !s.open[c].phase.Durable?
    ensures PeerHolds(Abandoned(s, c), env, s.open[c].Key())
  {
  }

  lemma RemovalTouches(s: System, after: System, c: nat)
    requires c in s.open && Serial(s) && s.world.process.Some?
    requires after == Dropped(s, c) || after == Abandoned(s, c)
    ensures Touches(s, after, c, s.open[c].Key())
  {
  }

  lemma AbandonKeepsInv(s: System, env: Env, c: nat)
    requires Inv(s, env) && s.world.process.Some? && c in s.open && !s.open[c].phase.Durable?
    ensures Inv(Abandoned(s, c), env)
  {
    AbandonedPeer(s, env, c);
    RemovalTouches(s, Abandoned(s, c), c);
    OnePeerStep(s, Abandoned(s, c), env, c, s.open[c].Key());
  }

  /** A dropped task leaves its reservation behind and every cursor where it was. */
  lemma DropKeepsInv(s: System, env: Env, c: nat)
    requires Inv(s, env) && s.world.process.Some? && c in s.open
    ensures Inv(Dropped(s, c), env)
  {
    var key := s.open[c].Key();
    assert PeerHolds(s, env, key);
    RemovalTouches(s, Dropped(s, c), c);
    OnePeerStep(s, Dropped(s, c), env, c, key);
  }

  lemma DeliveredTouches(s: System, c: nat)
    requires c in s.open && Serial(s) && s.world.process.Some?
    ensures Touches(s, Delivered(s, c), c, s.open[c].Key())
  {
  }

  lemma DeliveredHolds(s: System, env: Env, c: nat)
    requires c in s.open && s.open[c].phase.Prepared? && WorldHolds(s)
    requires TransactionHolds(s, env, s.open[c]) && PeerHolds(s, env, s.open[c].Key())
    ensures var after := Delivered(s, c);
            WorldHolds(after) && PeerHolds(after, env, s.open[c].Key()) && TransactionHolds(after, env, after.open[c])
  {
  }

  lemma DeliverKeepsInv(s: System, env: Env, step: Step)
    requires Inv(s, env) && step.Deliver? && Enabled(s, env, step)
    ensures Inv(Next(s, env, step), env)
  {
    if !s.feed.buffer.stopped {
      var c := step.conn;
      DeliveredTouches(s, c);
      DeliveredHolds(s, env, c);
      OnePeerStep(s, Delivered(s, c), env, c, s.open[c].Key());
    } else {
      AbandonKeepsInv(s, env, step.conn);
    }
  }

  lemma KeyParses(peer: PeerId, env: Env)
    requires peer.Valid(env.onCurve)
    ensures PeerFromHex(peer.ToHex(), env.onCurve) == Some(peer)
  {
    DecodeEncode(peer.key);
  }

  lemma RecordedPeer(s: System, env: Env, c: nat)
    requires c in s.open && s.world.process.Some? && WorldHolds(s) && s.open[c].phase.Queued?
    requires PeerHolds(s, env, s.open[c].Key()) && TransactionHolds(s, env, s.open[c])
    ensures var after := Recorded(s, c);
            && Inbound(after) == Inbound(s)[s.open[c].Key() := s.open[c].receipt.sequence]
            && WorldHolds(after) && PeerHolds(after, env, s.open[c].Key())
            && TransactionHolds(after, env, after.open[c])
  {
    KeyParses(s.open[c].receipt.peer, env);
  }

  lemma RecordedTouches(s: System, c: nat)
    requires c in s.open && Serial(s) && s.world.process.Some? && Recorded(s, c).world.process.Some?
    requires Inbound(Recorded(s, c)) == Inbound(s)[s.open[c].Key() := s.open[c].receipt.sequence]
    ensures Touches(s, Recorded(s, c), c, s.open[c].Key())
  {
  }

  lemma RecordedKeepsInv(s: System, env: Env, c: nat)
    requires Inv(s, env) && s.world.process.Some? && c in s.open && s.open[c].phase.Queued?
    ensures Inv(Recorded(s, c), env)
  {
    RecordedPeer(s, env, c);
    RecordedTouches(s, c);
    OnePeerStep(s, Recorded(s, c), env, c, s.open[c].Key());
  }

  lemma RecordKeepsInv(s: System, env: Env, step: Step)
    requires Inv(s, env) && step.Record? && Enabled(s, env, step)
    ensures Inv(Next(s, env, step), env)
  {
    var t := s.open[step.conn];
    assert TransactionHolds(s, env, t);
    assert !Store.Covered(s.world.process.value, t.Key(), t.receipt.sequence);
    if step.write.Renamed? {
      RecordedKeepsInv(s, env, step.conn);
    } else {
      AbandonKeepsInv(s, env, step.conn);
    }
  }

  lemma CommittedPeer(s: System, env: Env, c: nat)
    requires c in s.open && s.world.process.Some? && WorldHolds(s) && s.open[c].phase.Durable?
    requires PeerHolds(s, env, s.open[c].Key()) && TransactionHolds(s, env, s.open[c])
    ensures var after := Committed(s, c);
            && after.ledger.highest == s.ledger.highest[s.open[c].Key() := s.open[c].receipt.sequence]
            && after.ledger.inFlight == s.ledger.inFlight - {s.open[c].Key()}
            && WorldHolds(after) && PeerHolds(after, env, s.open[c].Key())
  {
  }

  lemma CommittedTouches(s: System, c: nat)
    requires c in s.open && Serial(s) && s.world.process.Some?
    ensures Touches(s, Committed(s, c), c, s.open[c].Key())
  {
  }

  lemma CommittedKeepsInv(s: System, env: Env, c: nat)
    requires Inv(s, env) && s.world.process.Some? && c in s.open && s.open[c].phase.Durable?
    ensures Inv(Committed(s, c), env)
  {
    CommittedPeer(s, env, c);
    CommittedTouches(s, c);
    OnePeerStep(s, Committed(s, c), env, c, s.open[c].Key());
  }

  lemma StepKeepsInv(s: System, env: Env, step: Step)
    requires Inv(s, env) && Enabled(s, env, step)
    ensures Inv(Next(s, env, step), env)
  {
    match step
    case Boot(_, _, _) => BootKeepsInv(s, env, step);
    case Pair(peer) => PairKeepsInv(s, env, peer);
    case Prepare(_, _) => PrepareKeepsInv(s, env, step);
    case Deliver(_) => DeliverKeepsInv(s, env, step);
    case Poll(finishing) => LogsKeepInv(s, Polled(s, finishing), env);
    case Listen => LogsKeepInv(s, Listening(s), env);
    case Record(_, _) => RecordKeepsInv(s, env, step);
    case Commit(c) => CommittedKeepsInv(s, env, c);
    case Drop(c) => DropKeepsInv(s, env, c);
    case Crash => DownKeepsInv(s, Next(s, env, step), env);
    case CrashInRecord(c) =>
      RecordedKeepsInv(s, env, c);
      DownKeepsInv(Recorded(s, c), Next(s, env, step), env);
  }

  /** Nothing of the above depends on the engine's side, or on what was offered. */
  lemma LogsKeepInv(s: System, after: System, env: Env)
    requires Inv(s, env) && after == s.(feed := after.feed, offered := after.offered)
    ensures Inv(after, env)
  {
    forall k ensures PeerHolds(after, env, k) {
      assert PeerHolds(s, env, k);
    }
    forall c | c in s.open ensures TransactionHolds(after, env, s.open[c]) {
      UntouchedTransaction(s, after, env, s.open[c]);
    }
  }

  lemma PairKeepsInv(s: System, env: Env, peer: PeerId)
    requires Inv(s, env) && s.world.process.Some?
    ensures Inv(s.(ledger := Ledger.PairOn(s.ledger, peer)), env)
  {
    var after := s.(ledger := Ledger.PairOn(s.ledger, peer));
    forall k ensures PeerHolds(after, env, k) {
      assert PeerHolds(s, env, k);
    }
    forall c | c in s.open ensures TransactionHolds(after, env, s.open[c]) {
      UntouchedTransaction(s, after, env, s.open[c]);
    }
  }

  // ----- every run

  lemma {:induction false} RunKeepsInv(s: System, env: Env, steps: seq<Step>)
    requires Inv(s, env) && Legal(s, env, steps)
    ensures Inv(Play(s, env, steps), env)
    decreases |steps|
  {
    if steps != [] {
      StepKeepsInv(s, env, steps[0]);
      RunKeepsInv(Next(s, env, steps[0]), env, steps[1..]);
    }
  }

  /**
   * Under every interleaving, every failure and every crash, the cursor in memory is never
   * ahead of the durable one, and no (peer, sequence) is ever committed twice: each peer's
   * committed sequences strictly increase, across restarts too.
   */
  lemma NeverCommittedTwice(env: Env, steps: seq<Step>)
    requires Legal(START, env, steps)
    ensures var s := Play(START, env, steps);
            && CursorBehindDisk(s)
            && Increasing(s.committed)
            && forall m :: m in s.committed ==> Covers(Inbound(s), m)
  {
    StartHolds(env);
    RunKeepsInv(START, env, steps);
    var s := Play(START, env, steps);
    forall k | k in s.ledger.highest ensures k in Inbound(s) && s.ledger.highest[k] <= Inbound(s)[k] {
      assert PeerHolds(s, env, k);
    }
    forall m | m in s.committed ensures Covers(Inbound(s), m) {
      assert PeerHolds(s, env, m.key);
    }
  }

  lemma StartHolds(env: Env)
    ensures Inv(START, env)
  {
  }

  /**
   * Evidence whose cursor reached the file is never handed to the engine again: in any
   * reachable system, what a connection may still deliver is beyond everything durable.
   */
  lemma DurableIsNeverQueuedAgain(env: Env, steps: seq<Step>, c: nat)
    requires Legal(START, env, steps)
    requires var s := Play(START, env, steps);
             c in s.open && s.open[c].phase.Prepared?
    ensures var s := Play(START, env, steps);
            forall m :: m in s.durable && m.key == s.open[c].Key() ==> m.sequence < s.open[c].receipt.sequence
  {
    StartHolds(env);
    RunKeepsInv(START, env, steps);
    var s := Play(START, env, steps);
    assert TransactionHolds(s, env, s.open[c]) && PeerHolds(s, env, s.open[c].Key());
  }

  lemma AcceptedUntilDurable(s: System, env: Env, bundle: Ledger.Bundle)
    requires Inv(s, env) && s.world.process.Some?
    requires env.judge.verify(bundle).Ok? && forall r :: r in bundle.records ==> env.judge.decode(r).Ok?
    requires var key := env.judge.verify(bundle).value.ToHex(); key in s.ledger.trusted && key !in s.ledger.inFlight
    ensures Ledger.PrepareOn(s.ledger, env.judge, bundle).1.Ok? <==>
            !Covers(Inbound(s), Mark(env.judge.verify(bundle).value.ToHex(), bundle.sequence))
  {
    assert PeerHolds(s, env, env.judge.verify(bundle).value.ToHex());
    Ledger.PrepareAllOrNothing(s.ledger, env.judge, bundle);
  }

  /**
   * In every reachable running system a bundle that verifies, is paired and decodes, of a peer
   * with no transaction open, is accepted exactly when its sequence is not covered by the
   * cursor on disk - however often the engine was handed it before, by this process or another.
   */
  lemma AcceptedExactlyUntilDurable(env: Env, steps: seq<Step>, bundle: Ledger.Bundle)
    requires Legal(START, env, steps) && Play(START, env, steps).world.process.Some?
    requires env.judge.verify(bundle).Ok? && forall r :: r in bundle.records ==> env.judge.decode(r).Ok?
    requires var s, key := Play(START, env, steps), env.judge.verify(bundle).value.ToHex();
             key in s.ledger.trusted && key !in s.ledger.inFlight
    ensures var s, key := Play(START, env, steps), env.judge.verify(bundle).value.ToHex();
            Ledger.PrepareOn(s.ledger, env.judge, bundle).1.Ok? <==> !Covers(Inbound(s), Mark(key, bundle.sequence))
  {
    StartHolds(env);
    RunKeepsInv(START, env, steps);
    AcceptedUntilDurable(Play(START, env, steps), env, bundle);
  }

  /** A process that comes up after a crash finds the cursors the file had and no reservation. */
  lemma Rebooted(s: System, env: Env, boot: Step, down: System, up: System)
    requires Inv(s, env) && s.world.process.Some? && down == Next(s, env, Crash)
    requires boot.Boot? && Enabled(down, env, boot) && up == Next(down, env, boot) && up.world.process.Some?
    ensures Inv(up, env) && Inbound(up) == Inbound(s) && up.ledger.inFlight == map[]
  {
    DownKeepsInv(s, down, env);
    BootKeepsInv(down, env, boot);
    RestoreAllKeepsRest(boot.cursors);
  }

  lemma QueuedIsNotCovered(s: System, env: Env, c: nat)
    requires Inv(s, env) && c in s.open && s.open[c].phase.Queued?
    ensures !Covers(Inbound(s), MarkOf(s.open[c]))
  {
    assert TransactionHolds(s, env, s.open[c]);
  }

  /**
   * So evidence the engine already took is accepted again whenever the process ends before its
   * cursor is written: here a crash between the two, a restart and a pairing.
   */
  lemma CrashBeforeTheWriteAcceptsAgain(s: System, env: Env, c: nat, bundle: Ledger.Bundle, boot: Step,
                                        down: System, up: System)
    requires Inv(s, env) && s.world.process.Some? && c in s.open && s.open[c].phase.Queued?
    requires env.judge.verify(bundle) == Ok(s.open[c].receipt.peer) && bundle.sequence == s.open[c].receipt.sequence
    requires forall r :: r in bundle.records ==> env.judge.decode(r).Ok?
    requires down == Next(s, env, Crash) && boot.Boot? && Enabled(down, env, boot)
    requires up == Next(down, env, boot) && up.world.process.Some?
    ensures Ledger.PrepareOn(Next(up, env, Pair(s.open[c].receipt.peer)).ledger, env.judge, bundle).1.Ok?
  {
    QueuedIsNotCovered(s, env, c);
    Rebooted(s, env, boot, down, up);
    var paired := up.(ledger := Ledger.PairOn(up.ledger, s.open[c].receipt.peer));
    PairKeepsInv(up, env, s.open[c].receipt.peer);
    assert Inbound(paired) == Inbound(s);
    AcceptedUntilDurable(paired, env, bundle);
  }

  // ----- what the engine absorbed of what was committed

  /** Delivered, and neither durable nor let go yet. */
  predicate Waiting(s: System, b: Batch) {
    exists c :: c in s.open && s.open[c].phase.Queued? && BatchOf(s.open[c]) == b
  }

  function Times(batches: seq<Batch>, b: Batch): nat {
    multiset(batches)[b]
  }

  /** Each delivery was made durable, let go, or is still waiting. */
  ghost predicate Balanced(s: System) {
    forall b :: Times(s.feed.taken, b) ==
                Times(s.feed.released, b) + Times(s.feed.kept, b) + if Waiting(s, b) then 1 else 0
  }

  /** What this process made durable ends the log of all that ever was. */
  predicate KeptEndsDurable(kept: seq<Batch>, durable: seq<Mark>) {
    |kept| <= |durable| && forall i :: 0 <= i < |kept| ==> durable[|durable| - |kept| + i] == kept[i].mark
  }

  ghost predicate Accounts(s: System) {
    && s.feed.taken == s.feed.absorbed + s.feed.buffer.pending
    && (s.feed.buffer.stopped ==> s.feed.buffer.pending == [])
    && Balanced(s) && KeptEndsDurable(s.feed.kept, s.durable)
    && (forall b :: b in s.feed.settled ==> b in s.feed.kept)
    && (forall c :: c in s.open && s.open[c].phase.Durable? ==> BatchOf(s.open[c]) in s.feed.kept)
  }

  /** Taking one connection's transaction out of waiting, or into it, changes nothing for any other batch. */
  lemma WaitingAfter(s: System, after: System, c: nat)
    requires Serial(s) && c in s.open && (forall d :: d != c ==> (d in after.open <==> d in s.open))
    requires forall d :: d in s.open && d != c ==> after.open[d] == s.open[d]
    requires c in after.open ==> BatchOf(after.open[c]) == BatchOf(s.open[c])
    ensures forall b :: b != BatchOf(s.open[c]) ==> (Waiting(after, b) <==> Waiting(s, b))
    ensures Waiting(s, BatchOf(s.open[c])) <==> s.open[c].phase.Queued?
    ensures Waiting(after, BatchOf(s.open[c])) <==> c in after.open && after.open[c].phase.Queued?
  {
    var own := BatchOf(s.open[c]);
    forall d | d in s.open && d != c ensures BatchOf(s.open[d]) != own {
      assert s.open[d].Key() != s.open[c].Key();
    }
    forall b | b != own ensures Waiting(after, b) <==> Waiting(s, b) {
      if Waiting(s, b) {
        var d :| d in s.open && s.open[d].phase.Queued? && BatchOf(s.open[d]) == b;
        assert d in after.open && after.open[d] == s.open[d];
      }
      if Waiting(after, b) {
        var d :| d in after.open && after.open[d].phase.Queued? && BatchOf(after.open[d]) == b;
        assert d in s.open;
      }
    }
  }

  lemma DeliveredBalances(s: System, c: nat)
    requires Serial(s) && c in s.open && s.open[c].phase.Prepared? && Balanced(s)
    ensures Balanced(Delivered(s, c))
  {
    var after := Delivered(s, c);
    WaitingAfter(s, after, c);
    forall b ensures Times(after.feed.taken, b) ==
                     Times(after.feed.released, b) + Times(after.feed.kept, b) + if Waiting(after, b) then 1 else 0
    {
      assert Times(s.feed.taken, b) == Times(s.feed.released, b) + Times(s.feed.kept, b) + if Waiting(s, b) then 1 else 0;
    }
  }

  lemma RecordedBalances(s: System, c: nat)
    requires Serial(s) && c in s.open && s.open[c].phase.Queued? && s.world.process.Some? && Balanced(s)
    ensures Balanced(Recorded(s, c))
  {
    var after := Recorded(s, c);
    WaitingAfter(s, after, c);
    forall b ensures Times(after.feed.taken, b) ==
                     Times(after.feed.released, b) + Times(after.feed.kept, b) + if Waiting(after, b) then 1 else 0
    {
      assert Times(s.feed.taken, b) == Times(s.feed.released, b) + Times(s.feed.kept, b) + if Waiting(s, b) then 1 else 0;
    }
  }

  lemma DroppedBalances(s: System, c: nat)
    requires Serial(s) && c in s.open && Balanced(s)
    ensures Balanced(Dropped(s, c))
  {
    var after := Dropped(s, c);
    WaitingAfter(s, after, c);
    forall b ensures Times(after.feed.taken, b) ==
                     Times(after.feed.released, b) + Times(after.feed.kept, b) + if Waiting(after, b) then 1 else 0
    {
      assert Times(s.feed.taken, b) == Times(s.feed.released, b) + Times(s.feed.kept, b) + if Waiting(s, b) then 1 else 0;
    }
  }

  /** A step that leaves the feed and every waiting batch alone. */
  lemma SameBalance(s: System, after: System)
    requires Balanced(s) && after.feed.taken == s.feed.taken && after.feed.released == s.feed.released
    requires after.feed.kept == s.feed.kept && forall b :: Waiting(after, b) <==> Waiting(s, b)
    ensures Balanced(after)
  {
    forall b ensures Times(after.feed.taken, b) ==
                     Times(after.feed.released, b) + Times(after.feed.kept, b) + if Waiting(after, b) then 1 else 0
    {
      assert Times(s.feed.taken, b) == Times(s.feed.released, b) + Times(s.feed.kept, b) + if Waiting(s, b) then 1 else 0;
    }
  }

  lemma DroppedAccounts(s: System, after: System, c: nat)
    requires Accounts(s) && Serial(s) && c in s.open
    requires after.open == Dropped(s, c).open && after.durable == s.durable
    requires after.feed == Dropped(s, c).feed
    ensures Accounts(after)
  {
    DroppedBalances(s, c);
    SameBalance(Dropped(s, c), after);
  }

  lemma CommittedAccounts(s: System, c: nat)
    requires Accounts(s) && Serial(s) && c in s.open && s.open[c].phase.Durable?
    ensures Accounts(Committed(s, c))
  {
    var after := Committed(s, c);
    DroppedBalances(s, c);
    SameBalance(Dropped(s, c), after);
    assert BatchOf(s.open[c]) in s.feed.kept;
  }

  lemma DeliveredAccounts(s: System, c: nat)
    requires Accounts(s) && Serial(s) && c in s.open && s.open[c].phase.Prepared? && !s.feed.buffer.stopped
    ensures Accounts(Delivered(s, c))
  {
    DeliveredBalances(s, c);
    var b := BatchOf(s.open[c]);
    assert s.feed.absorbed + s.feed.buffer.pending + [b] == s.feed.absorbed + (s.feed.buffer.pending + [b]);
  }

  lemma RecordedAccounts(s: System, c: nat)
    requires Accounts(s) && Serial(s) && c in s.open && s.open[c].phase.Queued? && s.world.process.Some?
    ensures Accounts(Recorded(s, c))
  {
    RecordedBalances(s, c);
    var after := Recorded(s, c);
    forall d | d in after.open && after.open[d].phase.Durable? ensures BatchOf(after.open[d]) in after.feed.kept {
      if d == c {
        assert after.feed.kept[|s.feed.kept|] == BatchOf(after.open[c]);
      }
    }
    forall b | b in after.feed.settled ensures b in after.feed.kept {
      assert b in s.feed.kept;
    }
  }

  lemma ReservedAccounts(s: System, env: Env, c: nat, p: Ledger.Prepared)
    requires Accounts(s) && c !in s.open
    ensures Accounts(Reserved(s, c, p))
  {
    var after := Reserved(s, c, p);
    forall b ensures Waiting(after, b) <==> Waiting(s, b) {
      if Waiting(s, b) {
        var d :| d in s.open && s.open[d].phase.Queued? && BatchOf(s.open[d]) == b;
        assert d in after.open;
      }
    }
    SameBalance(s, after);
  }

  lemma HeardAccounts(s: System, bundle: Ledger.Bundle)
    requires Accounts(s)
    ensures Accounts(Heard(s, bundle))
  {
    SameBalance(s, Heard(s, bundle));
  }

  lemma PolledAccounts(s: System, finishing: bool)
    requires Accounts(s)
    ensures Accounts(Polled(s, finishing))
  {
    SameBalance(s, Polled(s, finishing));
    assert s.feed.taken + [] == s.feed.taken;
  }

  lemma StepKeepsAccounts(s: System, env: Env, step: Step)
    requires Inv(s, env) && Accounts(s) && Enabled(s, env, step)
    ensures Accounts(Next(s, env, step))
  {
    var after := Next(s, env, step);
    match step
    case Boot(_, _, _) => BootAccounts(s, after);
    case Pair(_) => SameBalance(s, after);
    case Prepare(c, bundle) =>
      var result := Ledger.PrepareOn(s.ledger, env.judge, bundle).1;
      var heard := Heard(s, bundle);
      HeardAccounts(s, bundle);
      if result.Ok? {
        assert after == Reserved(heard, c, result.value);
        ReservedAccounts(heard, env, c, result.value);
      }
    case Deliver(c) =>
      if s.feed.buffer.stopped {
        DroppedAccounts(s, after, c);
      } else {
        DeliveredAccounts(s, c);
      }
    case Poll(finishing) => PolledAccounts(s, finishing);
    case Listen => SameBalance(s, after);
    case Record(c, write) => RecordAccounts(s, env, c, write);
    case Commit(c) => CommittedAccounts(s, c);
    case Drop(c) => DroppedAccounts(s, after, c);
    case _ => ClosedAccounts(after);
  }

  lemma RecordAccounts(s: System, env: Env, c: nat, write: Store.Write)
    requires Inv(s, env) && Accounts(s) && Enabled(s, env, Record(c, write))
    ensures Accounts(Next(s, env, Record(c, write)))
  {
    var t := s.open[c];
    assert TransactionHolds(s, env, t);
    assert !Store.Covered(s.world.process.value, t.Key(), t.receipt.sequence);
    if write.Renamed? {
      RecordedAccounts(s, c);
    } else {
      DroppedAccounts(s, Next(s, env, Record(c, write)), c);
    }
  }

  lemma ClosedAccounts(s: System)
    requires s.open == map[] && s.feed == CLOSED.(buffer := s.feed.buffer) && s.feed.buffer.pending == []
    ensures Accounts(s)
  {
  }

  lemma BootAccounts(s: System, after: System)
    requires Accounts(s) && s.open == after.open == map[] && s.durable == after.durable
    requires after.feed == s.feed || after.feed == CLOSED.(buffer := Buffer([], false))
    ensures Accounts(after)
  {
    if after.feed == s.feed {
      SameBalance(s, after);
    }
  }

  lemma {:induction false} RunKeepsAccounts(s: System, env: Env, steps: seq<Step>)
    requires Inv(s, env) && Accounts(s) && Legal(s, env, steps)
    ensures Accounts(Play(s, env, steps))
    decreases |steps|
  {
    if steps != [] {
      StepKeepsInv(s, env, steps[0]);
      StepKeepsAccounts(s, env, steps[0]);
      RunKeepsAccounts(Next(s, env, steps[0]), env, steps[1..]);
    }
  }

  lemma {:induction false} KeptOnce(kept: seq<Batch>, durable: seq<Mark>, b: Batch)
    requires KeptEndsDurable(kept, durable) && Increasing(durable) && b in kept
    ensures Times(kept, b) == 1
  {
    var n := |kept| - 1;
    assert kept == kept[..n] + [kept[n]];
    if kept[n] == b {
      forall i | 0 <= i < n ensures kept[i] != b {
        assert durable[|durable| - |kept| + i] == kept[i].mark && durable[|durable| - 1] == kept[n].mark;
      }
      assert b !in kept[..n];
    } else {
      KeptEnds(kept, durable);
      KeptOnce(kept[..n], durable[..|durable| - 1], b);
    }
  }

  lemma KeptEnds(kept: seq<Batch>, durable: seq<Mark>)
    requires KeptEndsDurable(kept, durable) && kept != []
    ensures KeptEndsDurable(kept[..|kept| - 1], durable[..|durable| - 1])
  {
  }

  /**
   * Once its engine has finished, a process has had the evidence of everything it committed
   * absorbed: once, and once more for each time it delivered that very evidence and let the
   * transaction go, by a failed write or a dropped task, before the delivery that stuck. So
   * exactly once exactly when it never let it go.
   */
  lemma CommittedIsAbsorbed(env: Env, steps: seq<Step>, b: Batch)
    requires Legal(START, env, steps)
    requires var s := Play(START, env, steps); s.feed.buffer.stopped && b in s.feed.settled
    ensures var feed := Play(START, env, steps).feed;
            && Times(feed.absorbed, b) == 1 + Times(feed.released, b)
            && (Times(feed.absorbed, b) == 1 <==> b !in feed.released)
  {
    StartHolds(env);
    ClosedAccounts(START);
    RunKeepsInv(START, env, steps);
    RunKeepsAccounts(START, env, steps);
    var s := Play(START, env, steps);
    KeptOnce(s.feed.kept, s.durable, b);
    DurableIsNotWaiting(s, env, b);
    assert s.feed.absorbed + [] == s.feed.absorbed;
  }

  lemma DurableIsNotWaiting(s: System, env: Env, b: Batch)
    requires Inv(s, env) && Accounts(s) && b in s.feed.kept
    ensures !Waiting(s, b)
  {
    var i :| 0 <= i < |s.feed.kept| && s.feed.kept[i] == b;
    assert s.durable[|s.durable| - |s.feed.kept| + i] == b.mark;
    forall c | c in s.open && s.open[c].phase.Queued? ensures BatchOf(s.open[c]) != b {
      assert TransactionHolds(s, env, s.open[c]) && PeerHolds(s, env, s.open[c].Key());
      assert BatchOf(s.open[c]) == b ==> Covers(Inbound(s), b.mark);
    }
  }

  // ----- everything comes from a bundle that arrived

  /** A mark is the signer and the sequence of a bundle. */
  predicate Names(env: Env, w: Ledger.Bundle, m: Mark) {
    env.judge.verify(w).Ok? && m.key == env.judge.verify(w).value.ToHex() && m.sequence == w.sequence
  }

  /** A batch is a bundle's records, all of them, in order and attributed to it. */
  predicate Bears(env: Env, w: Ledger.Bundle, b: Batch) {
    && Names(env, w, b.mark) && |b.evidence| == |w.records|
    && forall i :: 0 <= i < |w.records| ==>
         && env.judge.decode(w.records[i]) == Ok(b.evidence[i].fact)
         && b.evidence[i].origin == Ledger.PeerOrigin(b.mark.key, w.vantage, w.sequence, w.publishedAt)
  }

  predicate BatchArrived(env: Env, offered: seq<Ledger.Bundle>, b: Batch) {
    exists w :: w in offered && Bears(env, w, b)
  }

  predicate MarkArrived(env: Env, offered: seq<Ledger.Bundle>, m: Mark) {
    exists w :: w in offered && Names(env, w, m)
  }

  predicate BatchesArrived(env: Env, offered: seq<Ledger.Bundle>, batches: seq<Batch>) {
    forall b :: b in batches ==> BatchArrived(env, offered, b)
  }

  predicate MarksArrived(env: Env, offered: seq<Ledger.Bundle>, marks: seq<Mark>) {
    forall m :: m in marks ==> MarkArrived(env, offered, m)
  }

  predicate OpenArrived(env: Env, s: System) {
    forall c :: c in s.open ==> BatchArrived(env, s.offered, BatchOf(s.open[c]))
  }

  predicate Arrived(env: Env, s: System) {
    && OpenArrived(env, s) && BatchesArrived(env, s.offered, s.feed.taken) && BatchesArrived(env, s.offered, s.feed.settled)
    && MarksArrived(env, s.offered, s.durable) && MarksArrived(env, s.offered, s.committed)
  }

  lemma MoreArrived(env: Env, s: System, w: Ledger.Bundle)
    requires Arrived(env, s)
    ensures Arrived(env, Heard(s, w))
  {
    var more := s.offered + [w];
    forall b | BatchArrived(env, s.offered, b) ensures BatchArrived(env, more, b) {
      var v :| v in s.offered && Bears(env, v, b);
      assert v in more;
    }
    forall m | MarkArrived(env, s.offered, m) ensures MarkArrived(env, more, m) {
      var v :| v in s.offered && Names(env, v, m);
      assert v in more;
    }
  }

  lemma PreparedArrived(env: Env, s: System, c: nat, w: Ledger.Bundle)
    requires Arrived(env, s) && w in s.offered && Ledger.PrepareOn(s.ledger, env.judge, w).1.Ok?
    ensures Arrived(env, Reserved(s, c, Ledger.PrepareOn(s.ledger, env.judge, w).1.value))
  {
    var p := Ledger.PrepareOn(s.ledger, env.judge, w).1.value;
    Ledger.PrepareAllOrNothing(s.ledger, env.judge, w);
    assert Bears(env, w, Batch(Mark(p.peer.ToHex(), p.sequence), p.evidence));
  }

  lemma OpenMarkArrived(env: Env, s: System, c: nat)
    requires OpenArrived(env, s) && c in s.open
    ensures MarkArrived(env, s.offered, MarkOf(s.open[c]))
  {
    var w :| w in s.offered && Bears(env, w, BatchOf(s.open[c]));
  }

  lemma StepArrived(s: System, env: Env, step: Step)
    requires Arrived(env, s) && Enabled(s, env, step)
    ensures Arrived(env, Next(s, env, step))
  {
    match step
    case Prepare(c, bundle) =>
      MoreArrived(env, s, bundle);
      if Ledger.PrepareOn(s.ledger, env.judge, bundle).1.Ok? {
        PreparedArrived(env, Heard(s, bundle), c, bundle);
      }
    case Deliver(c) => DeliveredArrived(env, s, c);
    case Record(c, write) => RecordedArrived(env, s, c, Next(s, env, step));
    case CrashInRecord(c) => RecordedArrived(env, s, c, Recorded(s, c));
    case Commit(c) => CommittedArrived(env, s, c);
    case _ =>
  }

  lemma DeliveredArrived(env: Env, s: System, c: nat)
    requires Arrived(env, s) && c in s.open
    ensures Arrived(env, Delivered(s, c))
  {
  }

  lemma CommittedArrived(env: Env, s: System, c: nat)
    requires Arrived(env, s) && c in s.open
    ensures Arrived(env, Committed(s, c))
  {
    OpenMarkArrived(env, s, c);
  }

  /** Whether the write went through or the transaction was let go. */
  lemma RecordedArrived(env: Env, s: System, c: nat, after: System)
    requires Arrived(env, s) && c in s.open && after.offered == s.offered && after.committed == s.committed
    requires after.feed.taken == s.feed.taken && after.feed.settled == s.feed.settled
    requires after.durable == s.durable || after.durable == s.durable + [MarkOf(s.open[c])]
    requires forall d :: d in after.open ==> d in s.open && BatchOf(after.open[d]) == BatchOf(s.open[d])
    ensures Arrived(env, after)
  {
    OpenMarkArrived(env, s, c);
  }

  lemma {:induction false} RunArrived(s: System, env: Env, steps: seq<Step>)
    requires Arrived(env, s) && Legal(s, env, steps)
    ensures Arrived(env, Play(s, env, steps))
    decreases |steps|
  {
    if steps != [] {
      StepArrived(s, env, steps[0]);
      RunArrived(Next(s, env, steps[0]), env, steps[1..]);
    }
  }

  /**
   * Over every run, every sequence recorded or committed is the signer's and the sequence of a
   * bundle that arrived, and everything the engine was handed is the whole of such a bundle,
   * decoded, in order and attributed to it.
   */
  lemma EverythingComesFromABundle(env: Env, steps: seq<Step>)
    requires Legal(START, env, steps)
    ensures var s := Play(START, env, steps);
            && (forall m :: m in s.durable || m in s.committed ==> exists w :: w in s.offered && Names(env, w, m))
            && (forall b :: b in s.feed.taken || b in s.feed.settled ==> exists w :: w in s.offered && Bears(env, w, b))
  {
    RunArrived(START, env, steps);
    var s := Play(START, env, steps);
    forall m | m in s.durable || m in s.committed ensures MarkArrived(env, s.offered, m) {
    }
    forall b | b in s.feed.taken || b in s.feed.settled ensures BatchArrived(env, s.offered, b) {
    }
  }
}
