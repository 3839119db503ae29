/**
 * The relay's bounded store-and-forward queue (src/federation/relay.rs:39-175).
 *
 * Time is passed in. `Boxes` and the functions over it specify each operation; the class is
 * the queue the source mutates, with its eviction loop.
 */
module Relay {
  import opened Bytes
  import opened Limits
  import opened Outcomes

  const MAX_QUEUED_ENVELOPES: nat := 256
  const MAX_TOTAL_BYTES: nat := 256 * 1024 * 1024
  const MAX_MAILBOXES: nat := 4096
  const ENVELOPE_TTL: nat := 24 * 60 * 60

  datatype Held = Held(bytes: seq<Byte>, deposited: nat)

  type Boxes = map<Text, seq<Held>>

  datatype RelayError = TooLarge(limit: nat, claimed: nat) | FullMailboxes | FullBytes | Unauthenticated

  // ----- sizes

  /** What is added up over the envelopes: their sizes, or how many there are. */
  datatype Measure = InBytes | InEnvelopes {
    function Of(h: Held): nat {
      if InBytes? then |h.bytes| else 1
    }
  }

  function QueueSum(q: seq<Held>, w: Measure): nat {
    if q == [] then 0 else QueueSum(q[..|q| - 1], w) + w.Of(q[|q| - 1])
  }

  ghost function BoxesSum(m: Boxes, w: Measure): nat {
    if m == map[] then 0
    else
      var k :| k in m;
      QueueSum(m[k], w) + BoxesSum(m - {k}, w)
  }

  ghost function BoxesBytes(m: Boxes): nat {
    BoxesSum(m, InBytes)
  }

  /** The sum does not depend on the order in which mailboxes are added up. */
  lemma {:induction false} BoxesSumWithout(m: Boxes, k: Text, w: Measure)
    requires k in m
    ensures BoxesSum(m, w) == QueueSum(m[k], w) + BoxesSum(m - {k}, w)
    decreases |m|
  {
    var j :| j in m && BoxesSum(m, w) == QueueSum(m[j], w) + BoxesSum(m - {j}, w);
    if j != k {
      BoxesSumWithout(m - {j}, k, w);
      BoxesSumWithout(m - {k}, j, w);
      assert m - {j} - {k} == m - {k} - {j};
    }
  }

  lemma BoxesSumUpdate(m: Boxes, k: Text, q: seq<Held>, w: Measure)
    ensures BoxesSum(m[k := q], w) + (if k in m then QueueSum(m[k], w) else 0) == BoxesSum(m, w) + QueueSum(q, w)
  {
    BoxesSumWithout(m[k := q], k, w);
    if k in m {
      BoxesSumWithout(m, k, w);
      assert m[k := q] - {k} == m - {k};
    } else {
      assert m[k := q] - {k} == m;
    }
  }

  lemma {:induction false} QueueSumSplit(a: seq<Held>, b: seq<Held>, w: Measure)
    ensures QueueSum(a + b, w) == QueueSum(a, w) + QueueSum(b, w)
  {
    if b == [] {
      assert a + b == a;
    } else {
      QueueSumSplit(a, b[..|b| - 1], w);
      assert (a + b)[..|a + b| - 1] == a + b[..|b| - 1];
    }
  }

  lemma QueueSumHead(q: seq<Held>, w: Measure)
    requires q != []
    ensures QueueSum(q, w) == w.Of(q[0]) + QueueSum(q[1..], w)
  {
    assert q == [q[0]] + q[1..];
    QueueSumSplit([q[0]], q[1..], w);
    assert [q[0]][..0] == [];
  }

  // ----- what every operation keeps

  predicate TimeOrdered(q: seq<Held>) {
    forall i, j :: 0 <= i < j < |q| ==> q[i].deposited <= q[j].deposited
  }

  /** One mailbox: never empty, within its own bounds, oldest first, nothing from the future. */
  predicate QueueHolds(q: seq<Held>, now: nat) {
    && 1 <= |q| <= MAX_QUEUED_ENVELOPES
    && TimeOrdered(q) && q[|q| - 1].deposited <= now
    && forall i :: 0 <= i < |q| ==> |q[i].bytes| <= MAX_ENVELOPE_BYTES
  }

  predicate BoxesHold(m: Boxes, now: nat) {
    |m| <= MAX_MAILBOXES && forall k :: k in m ==> QueueHolds(m[k], now)
  }

  predicate IsSuffix<T(==)>(a: seq<T>, b: seq<T>) {
    |a| <= |b| && a == b[|b| - |a|..]
  }

  // ----- expiry

  function Unexpired(q: seq<Held>, now: nat): seq<Held> {
    if q == [] then []
    else
      var init := Unexpired(q[..|q| - 1], now);
      if now - q[|q| - 1].deposited < ENVELOPE_TTL then init + [q[|q| - 1]] else init
  }

  function Expired(m: Boxes, now: nat): Boxes {
    map k | k in m && Unexpired(m[k], now) != [] :: Unexpired(m[k], now)
  }

  predicate IsExpired(h: Held, now: nat) {
    now - h.deposited >= ENVELOPE_TTL
  }

  lemma {:induction false} AllExpire(q: seq<Held>, now: nat)
    requires forall i :: 0 <= i < |q| ==> IsExpired(q[i], now)
    ensures Unexpired(q, now) == []
  {
    if q != [] {
      AllExpire(q[..|q| - 1], now);
      assert IsExpired(q[|q| - 1], now);
    }
  }

  lemma UnexpiredNext(init: seq<Held>, last: Held, q: seq<Held>, now: nat)
    requires q == init + [last] && IsSuffix(Unexpired(init, now), init) && !IsExpired(last, now)
    ensures IsSuffix(Unexpired(q, now), q) && |Unexpired(q, now)| == |Unexpired(init, now)| + 1
  {
    assert q[..|q| - 1] == init;
    SuffixPush(Unexpired(init, now), init, last);
  }

  /** In a time-ordered mailbox the envelopes past their time are the front of it. */
  lemma {:induction false} UnexpiredIsSuffix(q: seq<Held>, now: nat)
    requires TimeOrdered(q)
    ensures IsSuffix(Unexpired(q, now), q)
    ensures forall i :: 0 <= i < |q| ==> (i < |q| - |Unexpired(q, now)| <==> IsExpired(q[i], now))
  {
    if q != [] {
      var init, last := q[..|q| - 1], q[|q| - 1];
      UnexpiredIsSuffix(init, now);
      assert q == init + [last];
      if IsExpired(last, now) {
        AllExpire(q, now);
      } else {
        UnexpiredNext(init, last, q, now);
        forall i | 0 <= i < |q| ensures i < |q| - |Unexpired(q, now)| <==> IsExpired(q[i], now) {
          assert i < |init| ==> q[i] == init[i];
        }
      }
    }
  }

  /** An envelope is held for less than a day after its deposit, and no longer. */
  lemma {:induction false} ExpiryIsExact(q: seq<Held>, now: nat, h: Held)
    ensures h in Unexpired(q, now) <==> h in q && now < h.deposited + 24 * 60 * 60
  {
    if q != [] {
      ExpiryIsExact(q[..|q| - 1], now, h);
      assert q == q[..|q| - 1] + [q[|q| - 1]];
    }
  }

  lemma SuffixHolds(q: seq<Held>, r: seq<Held>, now: nat)
    requires QueueHolds(q, now) && IsSuffix(r, q) && r != []
    ensures QueueHolds(r, now)
  {
    assert forall i :: 0 <= i < |r| ==> r[i] == q[|q| - |r| + i];
  }

  lemma KeyCount(m: Boxes, n: Boxes)
    requires n.Keys <= m.Keys
    ensures |n| <= |m|
  {
    SubsetSize(n.Keys, m.Keys);
  }

  lemma {:induction false} SubsetSize(a: set<Text>, b: set<Text>)
    requires a <= b
    ensures |a| <= |b|
  {
    if a != {} {
      var x :| x in a;
      SubsetSize(a - {x}, b - {x});
    }
  }

  /** A later state whose mailboxes are all ends of the earlier ones'. */
  ghost predicate Shed(m: Boxes, n: Boxes) {
    forall k :: k in n ==> k in m && IsSuffix(n[k], m[k])
  }

  lemma ShedHolds(m: Boxes, n: Boxes, now: nat)
    requires BoxesHold(m, now) && Shed(m, n) && forall k :: k in n ==> n[k] != []
    ensures BoxesHold(n, now)
  {
    KeyCount(m, n);
    forall k | k in n ensures QueueHolds(n[k], now) {
      SuffixHolds(m[k], n[k], now);
    }
  }

  lemma ExpiredSheds(m: Boxes, now: nat)
    requires BoxesHold(m, now)
    ensures Shed(m, Expired(m, now)) && BoxesHold(Expired(m, now), now)
  {
    forall k | k in Expired(m, now) ensures k in m && IsSuffix(Expired(m, now)[k], m[k]) {
      UnexpiredIsSuffix(m[k], now);
    }
    ShedHolds(m, Expired(m, now), now);
  }

  // ----- eviction

  /** A mailbox whose front envelope is the oldest held anywhere. */
  predicate Oldest(m: Boxes, k: Text) {
    k in m && m[k] != [] && forall j :: j in m && m[j] != [] ==> m[k][0].deposited <= m[j][0].deposited
  }

  function Evicted(m: Boxes, k: Text): Boxes
    requires k in m && m[k] != []
  {
    if |m[k]| == 1 then m - {k} else m[k := m[k][1..]]
  }

  /** Eviction removes an envelope no other held one is older than, and its exact size. */
  lemma EvictionSheds(m: Boxes, k: Text, now: nat)
    requires BoxesHold(m, now) && Oldest(m, k)
    ensures Shed(m, Evicted(m, k)) && BoxesHold(Evicted(m, k), now)
    ensures forall j, i :: j in m && 0 <= i < |m[j]| ==> m[k][0].deposited <= m[j][i].deposited
  {
    EvictedSheds(m, k);
    ShedHolds(m, Evicted(m, k), now);
    forall j, i | j in m && 0 <= i < |m[j]| ensures m[k][0].deposited <= m[j][i].deposited {
      FrontIsOldest(m[j], now, i);
    }
  }

  lemma EvictedSheds(m: Boxes, k: Text)
    requires k in m && m[k] != []
    ensures Shed(m, Evicted(m, k))
    ensures (forall j :: j in m ==> m[j] != []) ==> forall j :: j in Evicted(m, k) ==> Evicted(m, k)[j] != []
  {
  }

  lemma FrontIsOldest(q: seq<Held>, now: nat, i: nat)
    requires QueueHolds(q, now) && i < |q|
    ensures q[0].deposited <= q[i].deposited
  {
  }

  lemma EvictionSum(m: Boxes, k: Text, w: Measure)
    requires k in m && m[k] != []
    ensures BoxesSum(Evicted(m, k), w) + w.Of(m[k][0]) == BoxesSum(m, w)
  {
    QueueSumHead(m[k], w);
    BoxesSumWithout(m, k, w);
    if |m[k]| == 1 {
      assert m[k][1..] == [];
    } else {
      BoxesSumUpdate(m, k, m[k][1..], w);
    }
  }

  function EvictAll(m: Boxes, names: seq<Text>): Boxes {
    if names == [] then m
    else
      var n := EvictAll(m, names[..|names| - 1]);
      var name := names[|names| - 1];
      if name in n && n[name] != [] then Evicted(n, name) else n
  }

  /** A course of the eviction loop: while the envelope does not fit, the oldest goes. */
  ghost predicate Course(m: Boxes, size: nat, names: seq<Text>) {
    names == [] ||
    var n := EvictAll(m, names[..|names| - 1]);
    && Course(m, size, names[..|names| - 1])
    && BoxesBytes(n) + size > MAX_TOTAL_BYTES && Oldest(n, names[|names| - 1])
  }

  /** A course that ends because the envelope fits. */
  ghost predicate EvictionPlan(m: Boxes, size: nat, names: seq<Text>) {
    Course(m, size, names) && BoxesBytes(EvictAll(m, names)) + size <= MAX_TOTAL_BYTES
  }

  lemma {:induction false} CourseSheds(m: Boxes, size: nat, names: seq<Text>, now: nat)
    requires BoxesHold(m, now) && Course(m, size, names)
    ensures Shed(m, EvictAll(m, names)) && BoxesHold(EvictAll(m, names), now)
  {
    if names != [] {
      var n := EvictAll(m, names[..|names| - 1]);
      CourseSheds(m, size, names[..|names| - 1], now);
      EvictionSheds(n, names[|names| - 1], now);
      ShedTwice(m, n, EvictAll(m, names));
    }
  }

  lemma ShedTwice(m: Boxes, n: Boxes, o: Boxes)
    requires Shed(m, n) && Shed(n, o)
    ensures Shed(m, o)
  {
    forall k | k in o ensures k in m && IsSuffix(o[k], m[k]) {
      SuffixOfSuffix(o[k], n[k], m[k]);
    }
  }

  // ----- deposit and collect

  function At(m: Boxes, k: Text): seq<Held> {
    if k in m then m[k] else []
  }

  /** The push: a full mailbox loses its front first. */
  function Pushed(m: Boxes, k: Text, held: Held): Boxes {
    var q := At(m, k);
    m[k := (if |q| >= MAX_QUEUED_ENVELOPES then q[1..] else q) + [held]]
  }

  lemma PushedBytes(m: Boxes, k: Text, held: Held)
    ensures BoxesBytes(Pushed(m, k, held)) + (if |At(m, k)| >= MAX_QUEUED_ENVELOPES then |At(m, k)[0].bytes| else 0) ==
            BoxesBytes(m) + |held.bytes|
  {
    var q := At(m, k);
    var kept := if |q| >= MAX_QUEUED_ENVELOPES then q[1..] else q;
    BoxesSumUpdate(m, k, kept + [held], InBytes);
    QueueSumSplit(kept, [held], InBytes);
    assert [held][..0] == [];
    if |q| >= MAX_QUEUED_ENVELOPES {
      QueueSumHead(q, InBytes);
    }
  }

  lemma PushedQueueHolds(q: seq<Held>, held: Held, now: nat)
    requires q == [] || QueueHolds(q, now)
    requires now <= held.deposited && |held.bytes| <= MAX_ENVELOPE_BYTES
    ensures QueueHolds((if |q| >= MAX_QUEUED_ENVELOPES then q[1..] else q) + [held], held.deposited)
  {
  }

  lemma PushedHolds(m: Boxes, k: Text, held: Held, now: nat)
    requires BoxesHold(m, now) && now <= held.deposited && |held.bytes| <= MAX_ENVELOPE_BYTES
    requires k in m || |m| < MAX_MAILBOXES
    ensures BoxesHold(Pushed(m, k, held), held.deposited)
  {
    PushedQueueHolds(At(m, k), held, now);
    assert Pushed(m, k, held).Keys == m.Keys + {k};
    forall j | j in m && j != k ensures QueueHolds(Pushed(m, k, held)[j], held.deposited) {
      assert QueueHolds(m[j], now);
    }
  }

  /** What one `deposit` may do. A refusal for bytes is not among the cases. */
  ghost predicate Deposits(m: Boxes, box: Text, envelope: seq<Byte>, now: nat, stamp: nat,
                           n: Boxes, result: Result<(), RelayError>)
  {
    var e := Expired(m, now);
    if |envelope| > MAX_ENVELOPE_BYTES then
      result == Err(TooLarge(MAX_ENVELOPE_BYTES, |envelope|)) && n == m
    else if box !in e && |e| >= MAX_MAILBOXES then
      result == Err(FullMailboxes) && n == e
    else
      result == Ok(()) &&
      exists names :: EvictionPlan(e, |envelope|, names) && n == Pushed(EvictAll(e, names), box, Held(envelope, stamp))
  }

  /**
   * A deposit is refused for its size, or for a mailbox too many once the expired ones are
   * gone, and for nothing else. A size refusal is decided before anything is touched.
   */
  lemma DepositIsAcceptedExactly(m: Boxes, box: Text, envelope: seq<Byte>, now: nat, stamp: nat, n: Boxes,
                                 result: Result<(), RelayError>)
    requires Deposits(m, box, envelope, now, stamp, n, result)
    ensures result.Ok? <==>
            |envelope| <= MAX_ENVELOPE_BYTES && (box in Expired(m, now) || |Expired(m, now)| < MAX_MAILBOXES)
    ensures result.Err? && |envelope| > MAX_ENVELOPE_BYTES ==> result.error == TooLarge(MAX_ENVELOPE_BYTES, |envelope|) && n == m
    ensures result.Err? && |envelope| <= MAX_ENVELOPE_BYTES ==> result.error == FullMailboxes && n == Expired(m, now)
  {
  }

  /** An accepted envelope is the last of its mailbox, and every other mailbox only loses fronts. */
  lemma DepositIsKept(m: Boxes, box: Text, envelope: seq<Byte>, now: nat, stamp: nat, n: Boxes, result: Result<(), RelayError>)
    requires BoxesHold(m, now) && Deposits(m, box, envelope, now, stamp, n, result) && result.Ok?
    ensures box in n && n[box] != [] && n[box][|n[box]| - 1] == Held(envelope, stamp)
    ensures forall k :: k in n && k != box ==> k in m && IsSuffix(n[k], m[k])
  {
    var e := Expired(m, now);
    var names :| EvictionPlan(e, |envelope|, names) && n == Pushed(EvictAll(e, names), box, Held(envelope, stamp));
    ExpiredSheds(m, now);
    CourseSheds(e, |envelope|, names, now);
    ShedTwice(m, e, EvictAll(e, names));
    PushedEnds(EvictAll(e, names), box, Held(envelope, stamp));
  }

  lemma PushedEnds(m: Boxes, k: Text, held: Held)
    ensures var q := Pushed(m, k, held)[k];
            q != [] && q[|q| - 1] == held
    ensures forall j :: j in Pushed(m, k, held) && j != k ==> j in m && Pushed(m, k, held)[j] == m[j]
  {
  }

  /** Where there is room nothing that had not expired is lost. */
  lemma DepositWithRoomLosesNothing(m: Boxes, box: Text, envelope: seq<Byte>, now: nat, stamp: nat, n: Boxes,
                                    result: Result<(), RelayError>)
    requires Deposits(m, box, envelope, now, stamp, n, result) && result.Ok?
    requires var e := Expired(m, now);
             BoxesBytes(e) + |envelope| <= MAX_TOTAL_BYTES && |At(e, box)| < MAX_QUEUED_ENVELOPES
    ensures var e := Expired(m, now);
            n == e[box := At(e, box) + [Held(envelope, stamp)]]
  {
    var e := Expired(m, now);
    var names :| EvictionPlan(e, |envelope|, names) && n == Pushed(EvictAll(e, names), box, Held(envelope, stamp));
    NothingEvicted(e, |envelope|, names);
  }

  /** A full mailbox, in a relay with room, makes way by losing its oldest envelope and no other. */
  lemma FullMailboxLosesItsFront(m: Boxes, box: Text, envelope: seq<Byte>, now: nat, stamp: nat, n: Boxes,
                                 result: Result<(), RelayError>)
    requires Deposits(m, box, envelope, now, stamp, n, result) && result.Ok?
    requires var e := Expired(m, now);
             BoxesBytes(e) + |envelope| <= MAX_TOTAL_BYTES && |At(e, box)| == MAX_QUEUED_ENVELOPES
    ensures var e := Expired(m, now);
            n == e[box := e[box][1..] + [Held(envelope, stamp)]]
  {
    var e := Expired(m, now);
    var names :| EvictionPlan(e, |envelope|, names) && n == Pushed(EvictAll(e, names), box, Held(envelope, stamp));
    NothingEvicted(e, |envelope|, names);
  }

  lemma EvictsNoMore(m: Boxes, size: nat, names: seq<Text>, now: nat)
    requires BoxesHold(m, now) && Course(m, size, names) && names != []
    ensures BoxesBytes(EvictAll(m, names)) + size + MAX_ENVELOPE_BYTES > MAX_TOTAL_BYTES
  {
    var n, last := EvictAll(m, names[..|names| - 1]), names[|names| - 1];
    CourseSheds(m, size, names[..|names| - 1], now);
    EvictionSum(n, last, InBytes);
    assert QueueHolds(n[last], now);
  }

  /**
   * Making room never empties the relay: an accepted envelope that did not fit leaves it less
   * than two envelopes' bound short of full.
   */
  lemma EvictionStopsInTime(m: Boxes, box: Text, envelope: seq<Byte>, now: nat, stamp: nat, n: Boxes,
                            result: Result<(), RelayError>)
    requires BoxesHold(m, now) && Deposits(m, box, envelope, now, stamp, n, result) && result.Ok?
    requires BoxesBytes(Expired(m, now)) + |envelope| > MAX_TOTAL_BYTES
    ensures BoxesBytes(n) + 2 * MAX_ENVELOPE_BYTES > MAX_TOTAL_BYTES
  {
    var e := Expired(m, now);
    var names :| EvictionPlan(e, |envelope|, names) && n == Pushed(EvictAll(e, names), box, Held(envelope, stamp));
    ExpiredSheds(m, now);
    assert names == [] ==> EvictAll(e, names) == e;
    EvictsNoMore(e, |envelope|, names, now);
    CourseSheds(e, |envelope|, names, now);
    PushedLoses(EvictAll(e, names), box, Held(envelope, stamp), now);
  }

  lemma PushedLoses(m: Boxes, k: Text, held: Held, now: nat)
    requires BoxesHold(m, now)
    ensures BoxesBytes(Pushed(m, k, held)) + MAX_ENVELOPE_BYTES >= BoxesBytes(m) + |held.bytes|
  {
    PushedBytes(m, k, held);
    if k in m {
      assert QueueHolds(m[k], now);
    }
  }

  lemma {:induction false} NothingEvicted(m: Boxes, size: nat, names: seq<Text>)
    requires Course(m, size, names) && BoxesBytes(m) + size <= MAX_TOTAL_BYTES
    ensures names == []
  {
    assert EvictAll(m, []) == m;
    if names != [] {
      NothingEvicted(m, size, names[..|names| - 1]);
    }
  }

  function Payloads(q: seq<Held>): (r: seq<seq<Byte>>)
    ensures |r| == |q| && forall i :: 0 <= i < |q| ==> r[i] == q[i].bytes
  {
    seq(|q|, i requires 0 <= i < |q| => q[i].bytes)
  }

  // ----- every run

  /** A held envelope with whatever the observer wants to remember about its deposit. */
  datatype Tagged<T> = Tagged(held: Held, tag: T)

  function Untagged<T>(s: seq<Tagged<T>>): (r: seq<Held>)
    ensures |r| == |s| && forall i :: 0 <= i < |s| ==> r[i] == s[i].held
  {
    seq(|s|, i requires 0 <= i < |s| => s[i].held)
  }

  /** `log` is what was deposited in each mailbox since that mailbox was last collected. */
  datatype History<T> = History(boxes: Boxes, clock: nat, log: map<Text, seq<Tagged<T>>>)

  function LogAt<T>(h: History<T>, k: Text): seq<Tagged<T>> {
    if k in h.log then h.log[k] else []
  }

  datatype Op<T> =
    | Deposit(box: Text, envelope: seq<Byte>, tag: T, now: nat, stamp: nat)
    | Collect(box: Text, now: nat)
    | Expire(now: nat)

  ghost predicate DepositLogged<T>(h: History<T>, op: Op<T>, after: History<T>, result: Result<(), RelayError>)
    requires op.Deposit?
  {
    && Deposits(h.boxes, op.box, op.envelope, op.now, op.stamp, after.boxes, result)
    && after.log == if result.Ok? then h.log[op.box := LogAt(h, op.box) + [Tagged(Held(op.envelope, op.stamp), op.tag)]]
                    else h.log
  }

  /** Time does not go back, within an operation or between two. */
  ghost predicate Step<T>(h: History<T>, op: Op<T>, after: History<T>) {
    && h.clock <= op.now
    && match op
       case Deposit(box, envelope, tag, now, stamp) =>
         && now <= stamp && after.clock == stamp
         && exists result :: DepositLogged(h, op, after, result)
       case Collect(box, now) =>
         after == History(Expired(h.boxes, now) - {box}, now, h.log - {box})
       case Expire(now) => after == History(Expired(h.boxes, now), now, h.log)
  }

  ghost predicate IsRun<T>(run: seq<History<T>>, ops: seq<Op<T>>) {
    && |run| == |ops| + 1 && run[0] == History(map[], 0, map[])
    && forall i :: 0 <= i < |ops| ==> Step(run[i], ops[i], run[i + 1])
  }

  ghost predicate Holds<T>(h: History<T>) {
    && BoxesHold(h.boxes, h.clock)
    && BoxesBytes(h.boxes) <= MAX_TOTAL_BYTES
    && LogCovers(h.boxes, h.log)
  }

  lemma {:induction false} ShedBytes(m: Boxes, n: Boxes)
    requires Shed(m, n)
    ensures BoxesBytes(n) <= BoxesBytes(m)
    decreases |n|
  {
    if n != map[] {
      var k :| k in n;
      BoxesSumWithout(n, k, InBytes);
      BoxesSumWithout(m, k, InBytes);
      SuffixBytes(n[k], m[k]);
      ShedBytes(m - {k}, n - {k});
    }
  }

  lemma SuffixBytes(a: seq<Held>, b: seq<Held>)
    requires IsSuffix(a, b)
    ensures QueueSum(a, InBytes) <= QueueSum(b, InBytes)
  {
    assert b == b[..|b| - |a|] + a;
    QueueSumSplit(b[..|b| - |a|], a, InBytes);
  }

  lemma BoxesHoldLater(m: Boxes, now: nat, later: nat)
    requires BoxesHold(m, now) && now <= later
    ensures BoxesHold(m, later)
  {
    forall k | k in m ensures QueueHolds(m[k], later) {
      assert QueueHolds(m[k], now);
    }
  }

  lemma SuffixOfSuffix<T>(a: seq<T>, b: seq<T>, c: seq<T>)
    requires IsSuffix(a, b) && IsSuffix(b, c)
    ensures IsSuffix(a, c)
  {
  }

  lemma SuffixPush<T>(a: seq<T>, b: seq<T>, x: T)
    requires IsSuffix(a, b)
    ensures IsSuffix(a + [x], b + [x])
    ensures a != [] ==> IsSuffix(a[1..] + [x], b + [x])
  {
  }

  /** Dropping fronts keeps each mailbox an end of what was deposited. */
  lemma ShedKeepsHolds<T>(h: History<T>, n: Boxes, now: nat)
    requires Holds(h) && h.clock <= now && Shed(h.boxes, n) && forall k :: k in n ==> n[k] != []
    ensures Holds(History(n, now, h.log))
  {
    BoxesHoldLater(h.boxes, h.clock, now);
    ShedHolds(h.boxes, n, now);
    ShedBytes(h.boxes, n);
    forall k | k in n ensures k in h.log && IsSuffix(n[k], Untagged(h.log[k])) {
      SuffixOfSuffix(n[k], h.boxes[k], Untagged(h.log[k]));
    }
  }

  lemma ExpiryKeepsHolds<T>(h: History<T>, now: nat)
    requires Holds(h) && h.clock <= now
    ensures Holds(History(Expired(h.boxes, now), now, h.log))
  {
    BoxesHoldLater(h.boxes, h.clock, now);
    ExpiredSheds(h.boxes, now);
    ShedKeepsHolds(h, Expired(h.boxes, now), now);
  }

  predicate LogCovers<T>(boxes: Boxes, log: map<Text, seq<Tagged<T>>>) {
    forall k :: k in boxes ==> k in log && IsSuffix(boxes[k], Untagged(log[k]))
  }

  lemma PushKeepsLog<T>(boxes: Boxes, log: map<Text, seq<Tagged<T>>>, box: Text, held: Held, tag: T)
    requires LogCovers(boxes, log)
    ensures LogCovers(Pushed(boxes, box, held), log[box := (if box in log then log[box] else []) + [Tagged(held, tag)]])
  {
    var past := if box in log then log[box] else [];
    assert Untagged(past + [Tagged(held, tag)]) == Untagged(past) + [held];
    SuffixPush(At(boxes, box), Untagged(past), held);
  }

  lemma PushKeepsHolds<T>(h: History<T>, box: Text, held: Held, tag: T)
    requires Holds(h) && h.clock <= held.deposited && |held.bytes| <= MAX_ENVELOPE_BYTES
    requires box in h.boxes || |h.boxes| < MAX_MAILBOXES
    requires BoxesBytes(h.boxes) + |held.bytes| <= MAX_TOTAL_BYTES
    ensures Holds(History(Pushed(h.boxes, box, held), held.deposited, h.log[box := LogAt(h, box) + [Tagged(held, tag)]]))
  {
    PushedBytes(h.boxes, box, held);
    PushedHolds(h.boxes, box, held, h.clock);
    PushKeepsLog(h.boxes, h.log, box, held, tag);
  }

  lemma LaterHolds<T>(h: History<T>, later: nat)
    requires Holds(h) && h.clock <= later
    ensures Holds(History(h.boxes, later, h.log))
  {
    BoxesHoldLater(h.boxes, h.clock, later);
  }

  lemma AcceptedKeepsHolds<T>(e: History<T>, box: Text, held: Held, tag: T, names: seq<Text>)
    requires Holds(e) && e.clock <= held.deposited && |held.bytes| <= MAX_ENVELOPE_BYTES
    requires (box in e.boxes || |e.boxes| < MAX_MAILBOXES) && EvictionPlan(e.boxes, |held.bytes|, names)
    ensures Holds(History(Pushed(EvictAll(e.boxes, names), box, held), held.deposited,
                          e.log[box := LogAt(e, box) + [Tagged(held, tag)]]))
  {
    RoomLeavesMailboxes(e.boxes, box, |held.bytes|, names, e.clock);
    var roomy := History(EvictAll(e.boxes, names), e.clock, e.log);
    ShedKeepsHolds(e, roomy.boxes, e.clock);
    PushKeepsHolds(roomy, box, held, tag);
  }

  lemma DepositKeepsHolds<T>(h: History<T>, op: Op<T>, after: History<T>)
    requires Holds(h) && op.Deposit? && Step(h, op, after)
    ensures Holds(after)
  {
    var e := History(Expired(h.boxes, op.now), op.now, h.log);
    ExpiryKeepsHolds(h, op.now);
    LaterHolds(h, op.stamp);
    LaterHolds(e, op.stamp);
    if |op.envelope| <= MAX_ENVELOPE_BYTES && (op.box in e.boxes || |e.boxes| < MAX_MAILBOXES) {
      var held := Held(op.envelope, op.stamp);
      var names :| EvictionPlan(e.boxes, |op.envelope|, names) &&
                   after.boxes == Pushed(EvictAll(e.boxes, names), op.box, held);
      AcceptedKeepsHolds(e, op.box, held, op.tag, names);
    }
  }

  lemma RoomLeavesMailboxes(m: Boxes, box: Text, size: nat, names: seq<Text>, now: nat)
    requires BoxesHold(m, now) && EvictionPlan(m, size, names) && (box in m || |m| < MAX_MAILBOXES)
    ensures var n := EvictAll(m, names);
            && Shed(m, n) && (forall k :: k in n ==> n[k] != []) && BoxesBytes(n) + size <= MAX_TOTAL_BYTES
            && (box in n || |n| < MAX_MAILBOXES)
  {
    var n := EvictAll(m, names);
    CourseSheds(m, size, names, now);
    assert n.Keys <= m.Keys;
    if box !in n {
      SubsetSize(n.Keys, m.Keys - {box});
    }
  }

  lemma CollectKeepsHolds<T>(h: History<T>, box: Text, now: nat)
    requires Holds(h) && h.clock <= now
    ensures Holds(History(Expired(h.boxes, now) - {box}, now, h.log - {box}))
  {
    ExpiryKeepsHolds(h, now);
    var e := History(Expired(h.boxes, now), now, h.log);
    assert Shed(e.boxes, e.boxes - {box});
    ShedKeepsHolds(e, e.boxes - {box}, now);
  }

  lemma StepKeepsHolds<T>(h: History<T>, op: Op<T>, after: History<T>)
    requires Holds(h) && Step(h, op, after)
    ensures Holds(after)
  {
    match op
    case Deposit(_, _, _, _, _) => DepositKeepsHolds(h, op, after);
    case Collect(box, now) => CollectKeepsHolds(h, box, now);
    case Expire(now) => ExpiryKeepsHolds(h, now);
  }

  /**
   * Over every run the queue is within all four bounds, no mailbox is empty, and what a
   * mailbox holds is the end, unaltered and in order, of what was deposited in it since it
   * was last collected.
   */
  lemma {:induction false} RunHolds<T>(run: seq<History<T>>, ops: seq<Op<T>>, i: nat)
    requires IsRun(run, ops) && i < |run|
    ensures Holds(run[i])
  {
    if i > 0 {
      RunHolds(run, ops, i - 1);
      StepKeepsHolds(run[i - 1], ops[i - 1], run[i]);
    } else {
      assert BoxesBytes(map[]) == 0;
    }
  }

  /** What `collect` hands out: an end of what was deposited there since the last collect. */
  lemma CollectReturnsSuffix<T>(run: seq<History<T>>, ops: seq<Op<T>>, i: nat, box: Text, now: nat)
    requires IsRun(run, ops) && i < |run| && run[i].clock <= now
    ensures var handed := At(Expired(run[i].boxes, now), box);
            IsSuffix(handed, Untagged(LogAt(run[i], box)))
  {
    RunHolds(run, ops, i);
    ExpiryKeepsHolds(run[i], now);
  }

  // ----- what is accepted waits

  /** A logged deposit that has not been dropped from the front of its mailbox. */
  ghost predicate Waits<T>(boxes: Boxes, log: seq<Tagged<T>>, k: Text, e: Tagged<T>) {
    AmongLast(log, |At(boxes, k)|, e)
  }

  ghost predicate AmongLast<T>(log: seq<Tagged<T>>, n: nat, e: Tagged<T>) {
    exists p :: 0 <= p < |log| && |log| - n <= p && log[p] == e
  }

  lemma ExpiredAt(m: Boxes, now: nat, k: Text)
    ensures At(Expired(m, now), k) == Unexpired(At(m, k), now)
  {
  }

  lemma ExpiryLetsWait<T>(m: Boxes, log: seq<Tagged<T>>, k: Text, e: Tagged<T>, now: nat)
    requires TimeOrdered(At(m, k)) && IsSuffix(At(m, k), Untagged(log)) && Waits(m, log, k, e) && !IsExpired(e.held, now)
    ensures Waits(Expired(m, now), log, k, e)
  {
    ExpiredAt(m, now, k);
    UnexpiredIsLast(At(m, k), log, e, now);
  }

  lemma UnexpiredIsLast<T>(q: seq<Held>, log: seq<Tagged<T>>, e: Tagged<T>, now: nat)
    requires TimeOrdered(q) && IsSuffix(q, Untagged(log)) && AmongLast(log, |q|, e) && !IsExpired(e.held, now)
    ensures AmongLast(log, |Unexpired(q, now)|, e)
  {
    var p :| 0 <= p < |log| && |log| - |q| <= p && log[p] == e;
    WaitingAt(q, log, p);
    NotInFront(q, now, p - (|log| - |q|));
  }

  lemma WaitingAt<T>(q: seq<Held>, log: seq<Tagged<T>>, p: nat)
    requires IsSuffix(q, Untagged(log)) && |log| - |q| <= p < |log|
    ensures q[p - (|log| - |q|)] == log[p].held
  {
  }

  lemma NotInFront(q: seq<Held>, now: nat, i: nat)
    requires TimeOrdered(q) && i < |q| && !IsExpired(q[i], now)
    ensures |q| - |Unexpired(q, now)| <= i
  {
    UnexpiredIsSuffix(q, now);
  }

  /** What leaves an envelope waiting in `k` in place: it is not collected, and what is deposited has room. */
  ghost predicate Spares<T>(boxes: Boxes, op: Op<T>, k: Text) {
    match op
    case Deposit(box, envelope, _, now, _) =>
      var e := Expired(boxes, now);
      BoxesBytes(e) + |envelope| <= MAX_TOTAL_BYTES && (box == k ==> |At(e, box)| < MAX_QUEUED_ENVELOPES)
    case Collect(box, _) => box != k
    case Expire(_) => true
  }

  lemma StillWaits<T>(h: History<T>, op: Op<T>, after: History<T>, k: Text, e: Tagged<T>)
    requires Holds(h) && Step(h, op, after) && Waits(h.boxes, LogAt(h, k), k, e)
    requires Spares(h.boxes, op, k) && !IsExpired(e.held, op.now)
    ensures Waits(after.boxes, LogAt(after, k), k, e)
  {
    WaitingIsOrdered(h, k);
    ExpiryLetsWait(h.boxes, LogAt(h, k), k, e, op.now);
    if op.Deposit? {
      DepositLetsWait(h, op, after, k, e);
    }
  }

  lemma WaitingIsOrdered<T>(h: History<T>, k: Text)
    requires Holds(h)
    ensures TimeOrdered(At(h.boxes, k)) && IsSuffix(At(h.boxes, k), Untagged(LogAt(h, k)))
  {
    if k in h.boxes {
      assert QueueHolds(h.boxes[k], h.clock);
    }
  }

  lemma DepositLetsWait<T>(h: History<T>, op: Op<T>, after: History<T>, k: Text, e: Tagged<T>)
    requires op.Deposit? && Step(h, op, after) && Spares(h.boxes, op, k)
    requires Waits(h.boxes, LogAt(h, k), k, e) && Waits(Expired(h.boxes, op.now), LogAt(h, k), k, e)
    ensures Waits(after.boxes, LogAt(after, k), k, e)
  {
    var result :| DepositLogged(h, op, after, result);
    if result.Ok? {
      var boxes, held := Expired(h.boxes, op.now), Held(op.envelope, op.stamp);
      if op.box == k {
        DepositWithRoomLosesNothing(h.boxes, op.box, op.envelope, op.now, op.stamp, after.boxes, result);
        PushLetsWait(boxes, LogAt(h, k), k, e, Tagged(held, op.tag), after.boxes);
      } else {
        OtherBoxKept(h.boxes, op.box, op.envelope, op.now, op.stamp, after.boxes, result, k);
      }
    }
  }

  lemma PushLetsWait<T>(boxes: Boxes, log: seq<Tagged<T>>, k: Text, e: Tagged<T>, last: Tagged<T>, after: Boxes)
    requires Waits(boxes, log, k, e) && At(after, k) == At(boxes, k) + [last.held]
    ensures Waits(after, log + [last], k, e)
  {
    var p :| 0 <= p < |log| && |log| - |At(boxes, k)| <= p && log[p] == e;
    assert (log + [last])[p] == e;
  }

  lemma OtherBoxKept(m: Boxes, box: Text, envelope: seq<Byte>, now: nat, stamp: nat, n: Boxes, result: Result<(), RelayError>, k: Text)
    requires Deposits(m, box, envelope, now, stamp, n, result) && result.Ok? && k != box
    requires BoxesBytes(Expired(m, now)) + |envelope| <= MAX_TOTAL_BYTES
    ensures At(n, k) == At(Expired(m, now), k)
  {
    var e := Expired(m, now);
    var names :| EvictionPlan(e, |envelope|, names) && n == Pushed(EvictAll(e, names), box, Held(envelope, stamp));
    NothingEvicted(e, |envelope|, names);
  }

  /** An accepted envelope waits. */
  lemma AcceptedWaits<T>(h: History<T>, op: Op<T>, after: History<T>, result: Result<(), RelayError>)
    requires Holds(h) && op.Deposit? && h.clock <= op.now && DepositLogged(h, op, after, result) && result.Ok?
    ensures Waits(after.boxes, LogAt(after, op.box), op.box, Tagged(Held(op.envelope, op.stamp), op.tag))
  {
    BoxesHoldLater(h.boxes, h.clock, op.now);
    DepositIsKept(h.boxes, op.box, op.envelope, op.now, op.stamp, after.boxes, result);
    var log := LogAt(after, op.box);
    assert log[|log| - 1] == Tagged(Held(op.envelope, op.stamp), op.tag);
  }

  // ----- the queue as the source holds it

  function SaturatingSub(a: nat, b: nat): nat {
    if a < b then 0 else a - b
  }

  ghost predicate StateHolds(m: Boxes, total: nat, now: nat) {
    BoxesHold(m, now) && total == BoxesBytes(m) <= MAX_TOTAL_BYTES
  }

  lemma EvictedState(m: Boxes, total: nat, now: nat, k: Text)
    requires StateHolds(m, total, now) && Oldest(m, k)
    ensures StateHolds(Evicted(m, k), SaturatingSub(total, |m[k][0].bytes|), now)
  {
    EvictionSheds(m, k, now);
    EvictionSum(m, k, InBytes);
  }

  lemma PushedState(m: Boxes, total: nat, now: nat, k: Text, held: Held)
    requires StateHolds(m, total, now) && now <= held.deposited && |held.bytes| <= MAX_ENVELOPE_BYTES
    requires k in m || |m| < MAX_MAILBOXES
    requires total + |held.bytes| <= MAX_TOTAL_BYTES
    ensures var q := At(m, k);
            var left := if |q| >= MAX_QUEUED_ENVELOPES then SaturatingSub(total, |q[0].bytes|) else total;
            StateHolds(Pushed(m, k, held), left + |held.bytes|, held.deposited)
  {
    PushedHolds(m, k, held, now);
    PushedBytes(m, k, held);
    if |At(m, k)| >= MAX_QUEUED_ENVELOPES {
      BoxesSumWithout(m, k, InBytes);
      QueueSumHead(m[k], InBytes);
    }
  }

  lemma CollectedState(m: Boxes, total: nat, now: nat, k: Text)
    requires StateHolds(m, total, now)
    ensures total == BoxesBytes(m - {k}) + QueueSum(At(m, k), InBytes)
    ensures StateHolds(m - {k}, BoxesBytes(m - {k}), now)
  {
    if k in m {
      BoxesSumWithout(m, k, InBytes);
      ShedHolds(m, m - {k}, now);
    } else {
      assert m - {k} == m;
    }
  }

  class RelayQueue {
    var mailboxes: Boxes
    var totalBytes: nat
    ghost var clock: nat

    /** Within every bound, and the running total is the exact sum of what is held. */
    ghost predicate Valid()
      reads this
    {
      StateHolds(mailboxes, totalBytes, clock)
    }

    constructor ()
      ensures Valid() && mailboxes == map[] && clock == 0
    {
      mailboxes, totalBytes, clock := map[], 0, 0;
    }

    static method Retain(queue: seq<Held>, now: nat) returns (kept: seq<Held>)
      ensures kept == Unexpired(queue, now)
    {
      kept := [];
      for i := 0 to |queue|
        invariant kept == Unexpired(queue[..i], now)
      {
        assert queue[..i + 1][..i] == queue[..i];
        if now - queue[i].deposited < ENVELOPE_TTL {
          kept := kept + [queue[i]];
        }
      }
      assert queue[..|queue|] == queue;
    }

    static method SumOf(boxes: Boxes) returns (sum: nat)
      ensures sum == BoxesBytes(boxes)
    {
      sum := 0;
      var left := boxes;
      while left != map[]
        invariant sum + BoxesBytes(left) == BoxesBytes(boxes)
        decreases |left|
      {
        var name :| name in left;
        BoxesSumWithout(left, name, InBytes);
        sum := sum + QueueSum(left[name], InBytes);
        left := left - {name};
      }
    }

    static method RetainAll(boxes: Boxes, now: nat) returns (kept: Boxes)
      ensures kept == Expired(boxes, now)
    {
      var left := boxes.Keys;
      kept := map[];
      while left != {}
        invariant left <= boxes.Keys
        invariant kept == map k | k in Expired(boxes, now) && k !in left :: Unexpired(boxes[k], now)
      {
        var name :| name in left;
        left := left - {name};
        var queue := Retain(boxes[name], now);
        if queue != [] {
          kept := kept[name := queue];
        }
      }
    }

    method ExpireAt(now: nat)
      requires Valid() && clock <= now
      modifies this
      ensures Valid() && clock == now && mailboxes == Expired(old(mailboxes), now)
    {
      BoxesHoldLater(mailboxes, clock, now);
      ExpiredSheds(mailboxes, now);
      ShedBytes(mailboxes, Expired(mailboxes, now));
      mailboxes := RetainAll(mailboxes, now);
      totalBytes := SumOf(mailboxes);
      clock := now;
    }

    /** The name of a mailbox whose front is oldest, if there is any mailbox. */
    method FindOldest() returns (name: Option<Text>)
      requires Valid()
      ensures name.None? <==> mailboxes == map[]
      ensures name.Some? ==> Oldest(mailboxes, name.value)
    {
      name := None;
      var left := mailboxes.Keys;
      while left != {}
        invariant left <= mailboxes.Keys
        invariant name.None? ==> left == mailboxes.Keys
        invariant name.Some? ==> name.value in mailboxes
        invariant name.Some? ==> forall j :: j in mailboxes && j !in left ==>
                    mailboxes[name.value][0].deposited <= mailboxes[j][0].deposited
      {
        var candidate :| candidate in left;
        left := left - {candidate};
        if name.None? || mailboxes[candidate][0].deposited < mailboxes[name.value][0].deposited {
          name := Some(candidate);
        }
      }
    }

    method DiscardOldest() returns (found: bool, ghost name: Text)
      requires Valid()
      modifies this`mailboxes, this`totalBytes
      ensures Valid() && (found <==> old(mailboxes) != map[])
      ensures found ==> Oldest(old(mailboxes), name) && mailboxes == Evicted(old(mailboxes), name)
      ensures !found ==> mailboxes == old(mailboxes)
    {
      var oldest := FindOldest();
      if oldest.None? {
        return false, [];
      }
      var queue := mailboxes[oldest.value];
      EvictedState(mailboxes, totalBytes, clock, oldest.value);
      totalBytes := SaturatingSub(totalBytes, |queue[0].bytes|);
      if queue[1..] == [] {
        mailboxes := mailboxes - {oldest.value};
      } else {
        mailboxes := mailboxes[oldest.value := queue[1..]];
      }
      return true, oldest.value;
    }

    /** Evicts until `size` more bytes fit. The source's refusal for want of bytes is never reached. */
    method MakeRoom(size: nat) returns (ghost names: seq<Text>)
      requires Valid() && size <= MAX_TOTAL_BYTES
      modifies this`mailboxes, this`totalBytes
      ensures Valid() && mailboxes == EvictAll(old(mailboxes), names) && EvictionPlan(old(mailboxes), size, names)
    {
      names := [];
      while totalBytes + size > MAX_TOTAL_BYTES
        invariant Valid() && mailboxes == EvictAll(old(mailboxes), names) && Course(old(mailboxes), size, names)
        decreases BoxesSum(mailboxes, InEnvelopes)
      {
        ghost var before := mailboxes;
        var found;
        ghost var name;
        found, name := DiscardOldest();
        if !found {
          assert false;
        }
        EvictionSum(before, name, InEnvelopes);
        assert (names + [name])[..|names|] == names;
        names := names + [name];
      }
    }

    method Push(box: Text, held: Held)
      requires Valid() && clock <= held.deposited && |held.bytes| <= MAX_ENVELOPE_BYTES
      requires box in mailboxes || |mailboxes| < MAX_MAILBOXES
      requires totalBytes + |held.bytes| <= MAX_TOTAL_BYTES
      modifies this
      ensures Valid() && mailboxes == Pushed(old(mailboxes), box, held) && clock == held.deposited
    {
      PushedState(mailboxes, totalBytes, clock, box, held);
      var queue := At(mailboxes, box);
      var left := totalBytes;
      if |queue| >= MAX_QUEUED_ENVELOPES {
        left := SaturatingSub(left, |queue[0].bytes|);
        queue := queue[1..];
      }
      var pushed := mailboxes[box := queue + [held]];
      assert pushed == Pushed(mailboxes, box, held);
      mailboxes, totalBytes, clock := pushed, left + |held.bytes|, held.deposited;
    }

    method DepositEnvelope(box: Text, envelope: seq<Byte>, now: nat, stamp: nat) returns (result: Result<(), RelayError>)
      requires Valid() && clock <= now <= stamp
      modifies this
      ensures Valid() && clock <= stamp
      ensures Deposits(old(mailboxes), box, envelope, now, stamp, mailboxes, result)
    {
      if |envelope| > MAX_ENVELOPE_BYTES {
        return Err(TooLarge(MAX_ENVELOPE_BYTES, |envelope|));
      }
      ExpireAt(now);
      if box !in mailboxes && |mailboxes| >= MAX_MAILBOXES {
        return Err(FullMailboxes);
      }
      ghost var expired := mailboxes;
      ghost var names := MakeRoom(|envelope|);
      RoomLeavesMailboxes(expired, box, |envelope|, names, now);
      Push(box, Held(envelope, stamp));
      return Ok(());
    }

    /** Takes the collected envelopes off the running total, one at a time. */
    static method Deduct(total: nat, held: seq<Held>) returns (left: nat)
      requires total >= QueueSum(held, InBytes)
      ensures left == total - QueueSum(held, InBytes)
    {
      left := total;
      for i := 0 to |held|
        invariant left + QueueSum(held, InBytes) == total + QueueSum(held[i..], InBytes)
      {
        QueueSumHead(held[i..], InBytes);
        assert held[i..][1..] == held[i + 1..];
        left := SaturatingSub(left, |held[i].bytes|);
      }
    }

    method CollectFrom(box: Text, now: nat) returns (envelopes: seq<seq<Byte>>)
      requires Valid() && clock <= now
      modifies this
      ensures Valid() && clock == now && mailboxes == Expired(old(mailboxes), now) - {box}
      ensures envelopes == Payloads(At(Expired(old(mailboxes), now), box))
    {
      ExpireAt(now);
      CollectedState(mailboxes, totalBytes, now, box);
      var held := if box in mailboxes then mailboxes[box] else [];
      mailboxes := mailboxes - {box};
      totalBytes := Deduct(totalBytes, held);
      return Payloads(held);
    }
  }
}
