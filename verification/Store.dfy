/**
 * Durable federation state (src/federation/store.rs).
 *
 * The file at the store's path either does not exist, holds a state, or cannot be parsed. It
 * is written through a temporary file that is created, filled and renamed over it, and that
 * is removed again if any of these fails; the process may end between any two of them.
 */
module Store {
  import opened Bytes
  import opened Hex
  import opened Outcomes

  datatype Stored = Stored(identitySeed: Text, paired: map<Text, Text>, outbound: nat, inbound: map<Text, nat>)

  const DEFAULT := Stored([], map[], 0, map[])

  datatype File = Missing | Holds(stored: Stored) | Garbled

  // ----- one write

  /** Where a `persist` can fail. */
  datatype Moment = Creating | Filling | Renaming

  /** How one `persist` ended. After a failure the temporary is removed, if that works. */
  datatype Write = Renamed | Failed(at: Moment, cleaned: bool)

  /** The store's path and the temporaries beside it, by their unique names. */
  datatype Directory = Directory(file: File, temporaries: map<nat, File>)

  datatype Io = Create | Fill | Rename | Remove

  /** A temporary that has been created and not filled parses as nothing. */
  function IoOn(d: Directory, name: nat, stored: Stored, io: Io): Directory {
    match io
    case Create => d.(temporaries := d.temporaries[name := Garbled])
    case Fill => d.(temporaries := d.temporaries[name := Holds(stored)])
    case Rename =>
      if name in d.temporaries then Directory(d.temporaries[name], d.temporaries - {name}) else d
    case Remove => d.(temporaries := d.temporaries - {name})
  }

  /** What `persist` does to the directory, in order. */
  function Plan(write: Write): seq<Io> {
    match write
    case Renamed => [Create, Fill, Rename]
    case Failed(at, cleaned) =>
      (match at
       case Creating => []
       case Filling => [Create]
       case Renaming => [Create, Fill]) + if cleaned then [Remove] else []
  }

  function CarriedOut(d: Directory, name: nat, stored: Stored, plan: seq<Io>): Directory {
    if plan == [] then d
    else IoOn(CarriedOut(d, name, stored, plan[..|plan| - 1]), name, stored, plan[|plan| - 1])
  }

  lemma PlanStarts(write: Write, n: nat)
    requires n <= |Plan(write)|
    ensures Plan(write)[..n] in {[], [Create], [Create, Fill], [Create, Fill, Rename], [Remove], [Create, Remove], [Create, Fill, Remove]}
    ensures write.Failed? ==> Plan(write)[..n] != [Create, Fill, Rename]
  {
    var plan := Plan(write);
    assert n == 0 ==> plan[..n] == [];
    assert n == 1 ==> plan[..n] == [plan[0]];
    assert n == 2 ==> plan[..n] == [plan[0], plan[1]];
    assert n == 3 ==> plan[..n] == [plan[0], plan[1], plan[2]];
  }

  lemma Carried(d: Directory, name: nat, stored: Stored, plan: seq<Io>)
    requires plan in {[], [Create], [Create, Fill], [Create, Fill, Rename], [Remove], [Create, Remove], [Create, Fill, Remove]}
    ensures CarriedOut(d, name, stored, plan).file == if plan == [Create, Fill, Rename] then Holds(stored) else d.file
    ensures name !in d.temporaries && plan != [Create] && plan != [Create, Fill] ==>
              CarriedOut(d, name, stored, plan).temporaries == d.temporaries
  {
    assert CarriedOut(d, name, stored, []) == d;
    var created := IoOn(d, name, stored, Create);
    assert [Create][..0] == [] && CarriedOut(d, name, stored, [Create]) == created;
    var filled := IoOn(created, name, stored, Fill);
    assert [Create, Fill][..1] == [Create] && CarriedOut(d, name, stored, [Create, Fill]) == filled;
    assert [Remove][..0] == [] && [Create, Remove][..1] == [Create] && [Create, Fill, Remove][..2] == [Create, Fill];
    assert [Create, Fill, Rename][..2] == [Create, Fill];
    assert name !in d.temporaries ==> created.temporaries - {name} == d.temporaries && filled.temporaries - {name} == d.temporaries;
  }

  /**
   * Wherever a write is cut off, the file is the old one or the whole new one; carried to its
   * end it is the new one exactly when the rename happened; and unless removing it failed too,
   * no temporary is left behind.
   */
  lemma WriteIsOldOrNew(d: Directory, name: nat, stored: Stored, write: Write, n: nat)
    requires n <= |Plan(write)| && name !in d.temporaries
    ensures var cut := CarriedOut(d, name, stored, Plan(write)[..n]);
            && (cut.file == d.file || cut.file == Holds(stored))
            && (write.Failed? ==> cut.file == d.file)
    ensures var end := CarriedOut(d, name, stored, Plan(write));
            && end.file == (if write.Renamed? then Holds(stored) else d.file)
            && (write.Renamed? || write.cleaned ==> end.temporaries == d.temporaries)
  {
    PlanStarts(write, n);
    Carried(d, name, stored, Plan(write)[..n]);
    PlanStarts(write, |Plan(write)|);
    assert Plan(write)[..|Plan(write)|] == Plan(write);
    Carried(d, name, stored, Plan(write));
  }

  /** The running process, if there is one, beside the file it keeps. */
  datatype World = World(process: Option<Stored>, file: File)

  /** `commit`: change and write, or neither. */
  function CommitOn(w: World, change: Stored -> Stored, write: Write): World
    requires w.process.Some?
  {
    if write.Failed? then w else World(Some(change(w.process.value)), Holds(change(w.process.value)))
  }

  /** What `open` starts from, before it writes: the stored state, given a seed if it had none. */
  function Loaded(file: File, freshSeed: seq<Byte>): Option<Stored> {
    match file
    case Garbled => None
    case Missing => Some(DEFAULT.(identitySeed := Encoded(freshSeed)))
    case Holds(stored) =>
      if stored.identitySeed == [] then Some(stored.(identitySeed := Encoded(freshSeed)))
      else if Decoded(stored.identitySeed).Some? && |Decoded(stored.identitySeed).value| == 32 then Some(stored)
      else None
  }

  function OpenOn(w: World, freshSeed: seq<Byte>, write: Write): World {
    match Loaded(w.file, freshSeed)
    case None => World(None, w.file)
    case Some(stored) => if write.Failed? then World(None, w.file) else World(Some(stored), Holds(stored))
  }

  function Recorded(stored: Stored, key: Text, sequence: nat): Stored {
    stored.(inbound := stored.inbound[key := sequence])
  }

  predicate Covered(stored: Stored, key: Text, sequence: nat) {
    key in stored.inbound && stored.inbound[key] >= sequence
  }

  /** `record_inbound`: nothing to write for a sequence already covered. */
  function RecordOn(w: World, peer: PeerId, sequence: nat, write: Write): (World, bool)
    requires w.process.Some?
  {
    if Covered(w.process.value, peer.ToHex(), sequence) then (w, true)
    else (CommitOn(w, (stored: Stored) => Recorded(stored, peer.ToHex(), sequence), write), write.Renamed?)
  }

  function Claimed(stored: Stored): Stored {
    stored.(outbound := (stored.outbound + 1) % U64)
  }

  /** `next_sequence`: the number is durable before it is handed out. */
  function NextSequenceOn(w: World, write: Write): (World, Option<nat>)
    requires w.process.Some?
  {
    var after := CommitOn(w, Claimed, write);
    (after, if write.Renamed? then Some(after.process.value.outbound) else None)
  }

  function Paired(stored: Stored, peer: PeerId, note: Text): Stored {
    stored.(paired := stored.paired[peer.ToHex() := note])
  }

  function Unpaired(stored: Stored, peer: PeerId): Stored {
    stored.(paired := stored.paired - {peer.ToHex()})
  }

  function PairOn(w: World, peer: PeerId, note: Text, write: Write): World
    requires w.process.Some?
  {
    CommitOn(w, (stored: Stored) => Paired(stored, peer, note), write)
  }

  function UnpairOn(w: World, peer: PeerId, write: Write): World
    requires w.process.Some?
  {
    CommitOn(w, (stored: Stored) => Unpaired(stored, peer), write)
  }

  // ----- every run, with crashes

  datatype Op =
    | Open(freshSeed: seq<Byte>, openWrite: Write)
    | Pair(peer: PeerId, note: Text, write: Write)
    | Unpair(peer: PeerId, write: Write)
    | NextSequence(write: Write)
    | RecordInbound(peer: PeerId, sequence: nat, write: Write)
    | Crash
    | CrashDuring(during: Op, steps: nat)

  /** A pairing made or ended, once it is durable. */
  datatype Pairing = Joined(key: Text, note: Text) | Left(key: Text)

  /** A world, every number `next_sequence` returned in it and every durable pairing, across all its processes. */
  datatype History = History(world: World, numbers: seq<nat>, pairings: seq<Pairing>)

  /** What an operation sets out to write, if anything. */
  function Intent(h: History, op: Op): Option<Stored> {
    match op
    case Open(freshSeed, _) => Loaded(h.world.file, freshSeed)
    case Pair(peer, note, _) => if Running(h) then Some(Paired(h.world.process.value, peer, note)) else None
    case Unpair(peer, _) => if Running(h) then Some(Unpaired(h.world.process.value, peer)) else None
    case NextSequence(_) => if Running(h) then Some(Claimed(h.world.process.value)) else None
    case RecordInbound(peer, sequence, _) =>
      if Running(h) && !Covered(h.world.process.value, peer.ToHex(), sequence)
      then Some(Recorded(h.world.process.value, peer.ToHex(), sequence)) else None
    case _ => None
  }

  function WriteOf(op: Op): Write {
    match op
    case Open(_, write) => write
    case Pair(_, _, write) => write
    case Unpair(_, write) => write
    case NextSequence(write) => write
    case RecordInbound(_, _, write) => write
    case _ => Failed(Creating, true)
  }

  /** The file when the process ends after the first steps of an operation's write. */
  function CutOff(h: History, op: Op, steps: nat): File {
    var plan := Plan(WriteOf(op));
    match Intent(h, op)
    case None => h.world.file
    case Some(stored) =>
      CarriedOut(Directory(h.world.file, map[]), 0, stored, plan[..if steps < |plan| then steps else |plan|]).file
  }

  /** What pairing an operation makes durable: its rename happened, whether or not the process outlived it. */
  function Sealed(h: History, op: Op): seq<Pairing> {
    match op
    case Pair(peer, note, write) => if Running(h) && write.Renamed? then [Joined(peer.ToHex(), note)] else []
    case Unpair(peer, write) => if Running(h) && write.Renamed? then [Left(peer.ToHex())] else []
    case CrashDuring(during, steps) =>
      if during.CrashDuring? || steps < |Plan(WriteOf(during))| then [] else Sealed(h, during)
    case _ => []
  }

  function Apply(h: History, op: Op): History {
    Did(h, op).(pairings := h.pairings + Sealed(h, op))
  }

  /** Operations asked of a process that is not running do nothing. */
  function Did(h: History, op: Op): History {
    match op
    case Crash => h.(world := World(None, h.world.file))
    case CrashDuring(during, steps) => h.(world := World(None, CutOff(h, during, steps)))
    case Open(freshSeed, write) => h.(world := OpenOn(h.world, freshSeed, write))
    case Pair(peer, note, write) => if Running(h) then h.(world := PairOn(h.world, peer, note, write)) else h
    case Unpair(peer, write) => if Running(h) then h.(world := UnpairOn(h.world, peer, write)) else h
    case RecordInbound(peer, sequence, write) =>
      if Running(h) then h.(world := RecordOn(h.world, peer, sequence, write).0) else h
    case NextSequence(write) =>
      if Running(h) then
        var (after, number) := NextSequenceOn(h.world, write);
        h.(world := after, numbers := if number.Some? then h.numbers + [number.value] else h.numbers)
      else h
  }

  predicate Running(h: History) {
    h.world.process.Some?
  }

  function Play(h: History, ops: seq<Op>): History
    decreases |ops|
  {
    if ops == [] then h else Play(Apply(h, ops[0]), ops[1..])
  }

  const START := History(World(None, Missing), [], [])

  /** What the running process believes is what the file says. */
  predicate MemoryIsDisk(w: World) {
    w.process.Some? ==> w.file == Holds(w.process.value)
  }

  lemma {:induction false} StepKeepsMemoryOnDisk(h: History, op: Op)
    requires MemoryIsDisk(h.world)
    ensures MemoryIsDisk(Apply(h, op).world)
  {
  }

  /** Whether each operation succeeded, failed or was cut off, memory equals disk afterwards. */
  lemma {:induction false} MemoryAlwaysDisk(h: History, ops: seq<Op>)
    requires MemoryIsDisk(h.world)
    ensures MemoryIsDisk(Play(h, ops).world)
    decreases |ops|
  {
    if ops != [] {
      StepKeepsMemoryOnDisk(h, ops[0]);
      MemoryAlwaysDisk(Apply(h, ops[0]), ops[1..]);
    }
  }

  /**
   * A process that ends anywhere inside an operation, at whatever step of its write, leaves
   * the file as it was or as the whole operation would leave it.
   */
  lemma CrashIsOldOrNew(h: History, op: Op, steps: nat)
    ensures CutOff(h, op, steps) == h.world.file || CutOff(h, op, steps) == Apply(h, op).world.file
    ensures !op.CrashDuring? && steps >= |Plan(WriteOf(op))| ==> CutOff(h, op, steps) == Apply(h, op).world.file
  {
    if Intent(h, op).Some? {
      var plan := Plan(WriteOf(op));
      var n := if steps < |plan| then steps else |plan|;
      WriteIsOldOrNew(Directory(h.world.file, map[]), 0, Intent(h, op).value, WriteOf(op), n);
      assert plan[..|plan|] == plan;
      IntentIsWritten(h, op);
    }
  }

  lemma IntentIsWritten(h: History, op: Op)
    requires Intent(h, op).Some?
    ensures Apply(h, op).world.file == if WriteOf(op).Renamed? then Holds(Intent(h, op).value) else h.world.file
  {
  }

  /** The identity stands and no inbound cursor goes back or away. */
  predicate Keeps(a: Stored, b: Stored) {
    && (a.identitySeed != [] ==> b.identitySeed == a.identitySeed)
    && forall k :: k in a.inbound ==> k in b.inbound && a.inbound[k] <= b.inbound[k]
  }

  predicate FileKeeps(a: File, b: File) {
    match a
    case Missing => true
    case Garbled => b.Garbled?
    case Holds(before) => b.Holds? && Keeps(before, b.stored)
  }

  lemma StepKeepsFile(h: History, op: Op)
    requires MemoryIsDisk(h.world)
    ensures FileKeeps(h.world.file, Apply(h, op).world.file)
  {
    if op.CrashDuring? && !op.during.CrashDuring? {
      CrashIsOldOrNew(h, op.during, op.steps);
      StepKeepsFile(h, op.during);
    }
  }

  /**
   * Over every run the identity never changes, no inbound cursor ever decreases, and a file
   * that cannot be parsed is left exactly that: it is an error, never a reason to start over.
   */
  lemma {:induction false} CursorsNeverGoBack(h: History, ops: seq<Op>)
    requires MemoryIsDisk(h.world)
    ensures FileKeeps(h.world.file, Play(h, ops).world.file)
    decreases |ops|
  {
    if ops != [] {
      var next := Apply(h, ops[0]);
      StepKeepsMemoryOnDisk(h, ops[0]);
      StepKeepsFile(h, ops[0]);
      CursorsNeverGoBack(next, ops[1..]);
    }
  }

  /** A file that was written opens as it is; a missing one gets the fresh identity and nothing else. */
  lemma OpenKeepsEverything(w: World, freshSeed: seq<Byte>, write: Write)
    ensures w.file.Holds? && w.file.stored.identitySeed != [] && write.Renamed? ==>
              var seed := Decoded(w.file.stored.identitySeed);
              OpenOn(w, freshSeed, write) ==
              World(if seed.Some? && |seed.value| == 32 then Some(w.file.stored) else None, w.file)
    ensures w.file.Holds? && w.file.stored.identitySeed == [] && write.Renamed? ==>
              var s := w.file.stored;
              OpenOn(w, freshSeed, write).process == Some(Stored(Encoded(freshSeed), s.paired, s.outbound, s.inbound))
    ensures w.file.Missing? && write.Renamed? ==>
              var made := OpenOn(w, freshSeed, write);
              && made.process == Some(Stored(Encoded(freshSeed), map[], 0, map[]))
              && made.file == Holds(Stored(Encoded(freshSeed), map[], 0, map[]))
    ensures w.file.Garbled? || write.Failed? ==> OpenOn(w, freshSeed, write) == World(None, w.file)
  {
  }

  /** How a peer last stood: its note if it was paired, nothing if it was unpaired or never paired. */
  function LastStanding(pairings: seq<Pairing>, key: Text): Option<Text> {
    if pairings == [] then None
    else
      match pairings[|pairings| - 1]
      case Joined(k, note) => if k == key then Some(note) else LastStanding(pairings[..|pairings| - 1], key)
      case Left(k) => if k == key then None else LastStanding(pairings[..|pairings| - 1], key)
  }

  function PairedOn(file: File): map<Text, Text> {
    if file.Holds? then file.stored.paired else map[]
  }

  predicate StandsAs(paired: map<Text, Text>, pairings: seq<Pairing>, key: Text) {
    match LastStanding(pairings, key)
    case Some(note) => key in paired && paired[key] == note
    case None => key !in paired
  }

  /** What is on disk is what the durable pairings left. */
  ghost predicate PairingsHold(h: History) {
    && !h.world.file.Garbled? && MemoryIsDisk(h.world)
    && forall key :: StandsAs(PairedOn(h.world.file), h.pairings, key)
  }

  lemma SamePairings(h: History, after: History)
    requires PairingsHold(h) && after.pairings == h.pairings && MemoryIsDisk(after.world)
    requires after.world.file == h.world.file ||
             (after.world.file.Holds? &&
              after.world.file.stored.paired == PairedOn(h.world.file))
    ensures PairingsHold(after)
  {
    forall key ensures StandsAs(PairedOn(after.world.file), after.pairings, key) {
      assert StandsAs(PairedOn(h.world.file), h.pairings, key);
    }
  }

  lemma OnePairing(h: History, after: History, p: Pairing)
    requires PairingsHold(h) && h.world.file.Holds? && MemoryIsDisk(after.world) && after.pairings == h.pairings + [p]
    requires after.world.file.Holds?
    requires after.world.file.stored.paired ==
             if p.Joined? then h.world.file.stored.paired[p.key := p.note] else h.world.file.stored.paired - {p.key}
    ensures PairingsHold(after)
  {
    assert after.pairings[..|h.pairings|] == h.pairings;
    forall key ensures StandsAs(PairedOn(after.world.file), after.pairings, key) {
      assert StandsAs(PairedOn(h.world.file), h.pairings, key);
    }
  }

  /** What an operation does to the pairings on disk, if its write goes through. */
  lemma IntendedPairings(h: History, op: Op)
    requires PairingsHold(h) && Intent(h, op).Some? && !op.CrashDuring?
    ensures var before := PairedOn(h.world.file);
            Intent(h, op).value.paired ==
            match op
            case Pair(peer, note, _) => before[peer.ToHex() := note]
            case Unpair(peer, _) => before - {peer.ToHex()}
            case _ => before
    ensures op.Pair? || op.Unpair? ==> Running(h) && h.world.file.Holds?
  {
  }

  /** An operation whose write is cut off or carried out: the disk and the log agree on which. */
  lemma WrittenPairings(h: History, op: Op, after: History)
    requires PairingsHold(h) && Intent(h, op).Some? && !op.CrashDuring? && MemoryIsDisk(after.world)
    requires after.world.file == Holds(Intent(h, op).value) && WriteOf(op).Renamed?
    requires after.pairings == h.pairings + Sealed(h, op)
    ensures PairingsHold(after)
  {
    IntendedPairings(h, op);
    if op.Pair? || op.Unpair? {
      OnePairing(h, after, Sealed(h, op)[0]);
    } else {
      assert h.pairings + [] == h.pairings;
      SamePairings(h, after);
    }
  }

  lemma StepKeepsPairings(h: History, op: Op)
    requires PairingsHold(h)
    ensures PairingsHold(Apply(h, op))
  {
    var after := Apply(h, op);
    StepKeepsMemoryOnDisk(h, op);
    if Sealed(h, op) == [] {
      assert h.pairings + [] == h.pairings;
    }
    if op.CrashDuring? {
      if op.during.CrashDuring? || Intent(h, op.during).None? {
        assert !op.during.CrashDuring? ==> Sealed(h, op.during) == [];
        assert Sealed(h, op) == [];
        SamePairings(h, after);
      } else {
        CutPairings(h, op.during, op.steps, after);
      }
    } else if Intent(h, op).None? {
      SamePairings(h, after);
    } else {
      CrashIsOldOrNew(h, op, |Plan(WriteOf(op))|);
      CutPairings(h, op, |Plan(WriteOf(op))|, after);
    }
  }

  lemma CutPairings(h: History, op: Op, steps: nat, after: History)
    requires PairingsHold(h) && Intent(h, op).Some? && !op.CrashDuring? && MemoryIsDisk(after.world)
    requires after.world.file == CutOff(h, op, steps)
    requires after.pairings == h.pairings + if steps < |Plan(WriteOf(op))| then [] else Sealed(h, op)
    ensures PairingsHold(after)
  {
    RenameComesLast(h, op, steps);
    if WriteOf(op).Renamed? && steps >= |Plan(WriteOf(op))| {
      WrittenPairings(h, op, after);
    } else {
      assert h.pairings + [] == h.pairings;
      SamePairings(h, after);
    }
  }

  /** The new file is there exactly once every step of a successful write is done. */
  lemma RenameComesLast(h: History, op: Op, steps: nat)
    requires Intent(h, op).Some? && !op.CrashDuring?
    ensures CutOff(h, op, steps) ==
            if WriteOf(op).Renamed? && steps >= |Plan(WriteOf(op))| then Holds(Intent(h, op).value) else h.world.file
    ensures !WriteOf(op).Renamed? ==> Sealed(h, op) == []
  {
    var plan := Plan(WriteOf(op));
    var n := if steps < |plan| then steps else |plan|;
    PlanStarts(WriteOf(op), n);
    Carried(Directory(h.world.file, map[]), 0, Intent(h, op).value, plan[..n]);
    assert n < 3 ==> |plan[..n]| != |[Create, Fill, Rename]|;
    assert WriteOf(op).Renamed? && n == 3 ==> plan[..n] == plan;
  }

  lemma {:induction false} RunKeepsPairings(h: History, ops: seq<Op>)
    requires PairingsHold(h)
    ensures PairingsHold(Play(h, ops))
    decreases |ops|
  {
    if ops != [] {
      StepKeepsPairings(h, ops[0]);
      RunKeepsPairings(Apply(h, ops[0]), ops[1..]);
    }
  }

  /**
   * Over every run, with failures, crashes and restarts, a peer is paired on disk exactly when
   * its last durable pairing or unpairing was a pairing, and under that pairing's note; and a
   * running process pairs exactly whom the disk does.
   */
  lemma PairedExactlyAsLastMadeDurable(ops: seq<Op>, key: Text)
    ensures var h := Play(START, ops);
            var onDisk := PairedOn(h.world.file);
            && (key in onDisk <==> LastStanding(h.pairings, key).Some?)
            && (key in onDisk ==> LastStanding(h.pairings, key) == Some(onDisk[key]))
            && (h.world.process.Some? ==> h.world.process.value.paired == onDisk)
  {
    RunKeepsPairings(START, ops);
    var h := Play(START, ops);
    assert StandsAs(PairedOn(h.world.file), h.pairings, key);
  }

  function Outbound(file: File): nat {
    if file.Holds? then file.stored.outbound else 0
  }

  predicate Increasing(numbers: seq<nat>) {
    forall i, j :: 0 <= i < j < |numbers| ==> numbers[i] < numbers[j]
  }

  /** Every number handed out is below or at the durable counter, which `claims` operations brought there. */
  predicate Numbered(h: History, claims: nat) {
    && MemoryIsDisk(h.world)
    && Outbound(h.world.file) <= claims
    && Increasing(h.numbers)
    && forall i :: 0 <= i < |h.numbers| ==> h.numbers[i] <= Outbound(h.world.file)
  }

  predicate Claims(op: Op) {
    op.NextSequence? || (op.CrashDuring? && op.during.NextSequence?)
  }

  function ClaimCount(ops: seq<Op>): nat {
    if ops == [] then 0 else (if Claims(ops[0]) then 1 else 0) + ClaimCount(ops[1..])
  }

  lemma OutboundStep(h: History, op: Op, claims: nat)
    requires Numbered(h, claims) && claims + 1 < U64
    ensures Outbound(h.world.file) <= Outbound(Apply(h, op).world.file) <= claims + (if Claims(op) then 1 else 0)
  {
    if op.CrashDuring? && !op.during.CrashDuring? {
      CrashIsOldOrNew(h, op.during, op.steps);
      OutboundStep(h, op.during, claims);
    }
  }

  lemma StepKeepsNumbered(h: History, op: Op, claims: nat)
    requires Numbered(h, claims) && claims + 1 < U64
    ensures Numbered(Apply(h, op), claims + (if Claims(op) then 1 else 0))
  {
    StepKeepsMemoryOnDisk(h, op);
    OutboundStep(h, op, claims);
  }

  lemma {:induction false} RunKeepsNumbered(h: History, ops: seq<Op>, claims: nat)
    requires Numbered(h, claims) && claims + ClaimCount(ops) + 1 < U64
    ensures Increasing(Play(h, ops).numbers)
    decreases |ops|
  {
    if ops != [] {
      StepKeepsNumbered(h, ops[0], claims);
      RunKeepsNumbered(Apply(h, ops[0]), ops[1..], claims + (if Claims(ops[0]) then 1 else 0));
    }
  }

  /** Across any mix of failures, crashes and restarts, `next_sequence` never repeats or goes back. */
  lemma NumbersStrictlyIncrease(ops: seq<Op>)
    requires ClaimCount(ops) + 1 < U64
    ensures Increasing(Play(START, ops).numbers)
  {
    RunKeepsNumbered(START, ops, 0);
  }

  /** One claim moves the counter forward exactly when the counter is not at the top of its width. */
  lemma NextSequenceAdvances(w: World)
    requires w.process.Some? && w.process.value.outbound < U64
    ensures NextSequenceOn(w, Renamed).1.value > w.process.value.outbound <==> w.process.value.outbound + 1 != U64
    ensures w.process.value.outbound + 1 != U64 ==> NextSequenceOn(w, Renamed).1 == Some(w.process.value.outbound + 1)
  {
  }

  /** A recorded cursor is the higher of what it was and what was recorded, and nothing else changes; a failed write changes nothing. */
  lemma RecordRaisesExactly(w: World, peer: PeerId, sequence: nat, write: Write)
    requires w.process.Some? && MemoryIsDisk(w)
    ensures var (after, ok) := RecordOn(w, peer, sequence, write);
            var k, before := peer.ToHex(), w.process.value;
            && (ok <==> write.Renamed? || (k in before.inbound && sequence <= before.inbound[k]))
            && (!ok ==> after == w)
            && (ok ==> exists s :: after == World(Some(s), Holds(s)) &&
                         s == Stored(before.identitySeed, before.paired, before.outbound, s.inbound) &&
                         k in s.inbound && s.inbound.Keys == before.inbound.Keys + {k} &&
                         s.inbound[k] == (if k in before.inbound && before.inbound[k] > sequence then before.inbound[k] else sequence) &&
                         forall j :: j in before.inbound && j != k ==> s.inbound[j] == before.inbound[j])
  {
    var (after, ok) := RecordOn(w, peer, sequence, write);
    if ok {
      var s := after.process.value;
      assert after == World(Some(s), Holds(s));
    }
  }

  /** Each plan, one step at a time. */
  lemma Steps(d: Directory, name: nat, stored: Stored, write: Write)
    ensures var created := d.temporaries[name := Garbled];
            var filled := created[name := Holds(stored)];
            CarriedOut(d, name, stored, Plan(write)) ==
            match write
            case Renamed => Directory(Holds(stored), filled - {name})
            case Failed(at, cleaned) =>
              var left := match at case Creating => d.temporaries case Filling => created case Renaming => filled;
              Directory(d.file, if cleaned then left - {name} else left)
  {
    assert CarriedOut(d, name, stored, []) == d;
    var created := IoOn(d, name, stored, Create);
    assert [Create][..0] == [] && CarriedOut(d, name, stored, [Create]) == created;
    var filled := IoOn(created, name, stored, Fill);
    assert [Create, Fill][..1] == [Create] && CarriedOut(d, name, stored, [Create, Fill]) == filled;
    assert [Remove][..0] == [] && [Create, Remove][..1] == [Create] && [Create, Fill, Remove][..2] == [Create, Fill];
    assert [Create, Fill, Rename][..2] == [Create, Fill];
    assert [Create] + [Remove] == [Create, Remove];
    assert [Create, Fill] + [Remove] == [Create, Fill, Remove];
    var none: seq<Io> := [];
    assert none + none == none && [Create] + none == [Create] && [Create, Fill] + none == [Create, Fill];
  }

  // ----- the store as the source holds it

  class FederationStore {
    var state: Stored
    var file: File
    var temporaries: map<nat, File>
    var counter: nat

    /** Every temporary was named by the counter, so its next name is free. */
    ghost predicate Valid()
      reads this
    {
      forall name :: name in temporaries ==> name < counter
    }

    ghost function Contents(): World
      reads this
    {
      World(Some(state), file)
    }

    constructor (loaded: Stored)
      ensures Valid() && Contents() == World(Some(loaded), Holds(loaded))
    {
      state, file, temporaries, counter := loaded, Holds(loaded), map[], 0;
    }

    /** `open`: nothing is opened over a file that does not load or cannot be written back. */
    static method Open(found: File, freshSeed: seq<Byte>, write: Write) returns (result: Option<FederationStore>)
      ensures var world := OpenOn(World(None, found), freshSeed, write);
              if result.Some? then fresh(result.value) && result.value.Valid() && result.value.Contents() == world
              else world == World(None, found)
    {
      var loaded := Loaded(found, freshSeed);
      if loaded.None? || write.Failed? {
        return None;
      }
      var store := new FederationStore(loaded.value);
      return Some(store);
    }

    /** `persist`: a temporary created, filled and renamed into place, or removed on any failure. */
    method Persist(write: Write) returns (ok: bool)
      requires Valid()
      modifies this`file, this`temporaries, this`counter
      ensures Valid() && ok == write.Renamed?
      ensures Directory(file, temporaries) == CarriedOut(Directory(old(file), old(temporaries)), old(counter), state, Plan(write))
      ensures file == if ok then Holds(state) else old(file)
    {
      var name := counter;
      ghost var before := Directory(file, temporaries);
      WriteIsOldOrNew(before, name, state, write, 0);
      Steps(before, name, state, write);
      counter := counter + 1;
      if write != Failed(Creating, true) && write != Failed(Creating, false) {
        temporaries := temporaries[name := Garbled];
        if write.Renamed? || write.at.Renaming? {
          temporaries := temporaries[name := Holds(state)];
          if write.Renamed? {
            file := temporaries[name];
            temporaries := temporaries - {name};
            return true;
          }
        }
      }
      if write.cleaned {
        temporaries := temporaries - {name};
      }
      return false;
    }

    method Commit(change: Stored -> Stored, write: Write) returns (ok: bool)
      requires Valid()
      modifies this
      ensures Valid()
      ensures ok == write.Renamed?
      ensures Contents() == CommitOn(old(Contents()), change, write)
    {
      var previous := state;
      state := change(state);
      ok := Persist(write);
      if !ok {
        state := previous;
      }
    }

    method PairPeer(peer: PeerId, note: Text, write: Write) returns (ok: bool)
      requires Valid()
      modifies this
      ensures Valid()
      ensures ok == write.Renamed?
      ensures Contents() == PairOn(old(Contents()), peer, note, write)
    {
      ok := Commit((stored: Stored) => Paired(stored, peer, note), write);
    }

    method UnpairPeer(peer: PeerId, write: Write) returns (ok: bool)
      requires Valid()
      modifies this
      ensures Valid()
      ensures ok == write.Renamed?
      ensures Contents() == UnpairOn(old(Contents()), peer, write)
    {
      ok := Commit((stored: Stored) => Unpaired(stored, peer), write);
    }

    method ClaimSequence(write: Write) returns (number: Option<nat>)
      requires Valid()
      modifies this
      ensures Valid()
      ensures (Contents(), number) == NextSequenceOn(old(Contents()), write)
    {
      var ok := Commit(Claimed, write);
      number := if ok then Some(state.outbound) else None;
    }

    method Record(peer: PeerId, sequence: nat, write: Write) returns (ok: bool)
      requires Valid()
      modifies this
      ensures Valid()
      ensures (Contents(), ok) == RecordOn(old(Contents()), peer, sequence, write)
    {
      var key := peer.ToHex();
      if key in state.inbound && state.inbound[key] >= sequence {
        return true;
      }
      ok := Commit((stored: Stored) => Recorded(stored, key, sequence), write);
    }

    /** `inbound_cursors`: every cursor whose key parses, in some order. */
    method InboundCursors(onCurve: seq<Byte> -> bool) returns (cursors: seq<(PeerId, nat)>)
      ensures Lists(cursors, state.inbound, onCurve)
    {
      cursors := [];
      var left := state.inbound.Keys;
      while left != {}
        invariant left <= state.inbound.Keys
        invariant Lists(cursors, map k | k in state.inbound && k !in left :: state.inbound[k], onCurve)
      {
        var key :| key in left;
        left := left - {key};
        match PeerFromHex(key, onCurve)
        case Some(peer) => cursors := cursors + [(peer, state.inbound[key])];
        case None =>
      }
      assert (map k | k in state.inbound && k !in left :: state.inbound[k]) == state.inbound;
    }
  }

  /** `cursors` names exactly the peers and numbers the parsable keys of `inbound` name. */
  ghost predicate Lists(cursors: seq<(PeerId, nat)>, inbound: map<Text, nat>, onCurve: seq<Byte> -> bool) {
    && (forall c :: c in cursors ==>
          exists k :: k in inbound && PeerFromHex(k, onCurve) == Some(c.0) && inbound[k] == c.1)
    && (forall k :: k in inbound && PeerFromHex(k, onCurve).Some? ==>
          (PeerFromHex(k, onCurve).value, inbound[k]) in cursors)
  }
}
