/**
 * Rewriting interrogation state after identities merge (`apply_aliases`,
 * src/engine/orchestrator.rs:588-619).
 */
module Aliases {
  import opened Bytes

  /** A device by hardware address, by address, or by address within a zone. Addresses are their text. */
  datatype DeviceKey = Mac(mac: Text) | Address(address: Text) | ScopedAddress(address: Text, zone: Text) {
    function Display(): Text {
      match this
      case Mac(m) => m
      case Address(a) => a
      case ScopedAddress(a, z) => a + [37] + z
    }
  }

  /** Absorbed identity first, surviving identity second. */
  type Alias = (DeviceKey, DeviceKey)

  /** One coverage record; `detail` stands for everything the rewriting does not look at. */
  datatype Coverage = Coverage(device: DeviceKey, tcpAttempted: nat, detail: nat)

  function Renamed(k: DeviceKey, alias: Alias): DeviceKey {
    if k == alias.0 then alias.1 else k
  }

  /** What an identity is called once the list has been applied in order. */
  function Survivor(aliases: seq<Alias>, k: DeviceKey): DeviceKey {
    if aliases == [] then k
    else Renamed(Survivor(aliases[..|aliases| - 1], k), aliases[|aliases| - 1])
  }

  function Survivors(aliases: seq<Alias>, keys: set<DeviceKey>): set<DeviceKey> {
    set k | k in keys :: Survivor(aliases, k)
  }

  function Rewritten(aliases: seq<Alias>, coverage: seq<Coverage>): (r: seq<Coverage>)
    ensures |r| == |coverage|
  {
    seq(|coverage|, i requires 0 <= i < |coverage| =>
      coverage[i].(device := Survivor(aliases, coverage[i].device)))
  }

  // ----- merge chains

  predicate Absorbs(aliases: seq<Alias>, k: DeviceKey) {
    exists i :: 0 <= i < |aliases| && aliases[i].0 == k
  }

  /** An identity is absorbed once, which is what removing its node from the graph guarantees. */
  predicate AbsorbedOnce(aliases: seq<Alias>) {
    forall i, j :: 0 <= i < j < |aliases| ==> aliases[i].0 != aliases[j].0
  }

  /** Chains run forwards: nothing is folded into an identity that was already absorbed. */
  predicate AlongChains(aliases: seq<Alias>) {
    forall i, j :: 0 <= i <= j < |aliases| ==> aliases[j].1 != aliases[i].0
  }

  lemma {:induction false} UnabsorbedSurvives(aliases: seq<Alias>, k: DeviceKey)
    requires !Absorbs(aliases, k)
    ensures Survivor(aliases, k) == k
  {
    if aliases != [] {
      var init := aliases[..|aliases| - 1];
      assert forall i :: 0 <= i < |init| ==> init[i] == aliases[i];
      UnabsorbedSurvives(init, k);
    }
  }

  lemma {:induction false} ForwardChainsEnd(aliases: seq<Alias>, k: DeviceKey)
    requires AlongChains(aliases)
    ensures !Absorbs(aliases, Survivor(aliases, k))
  {
    if aliases != [] {
      var init := aliases[..|aliases| - 1];
      assert forall i :: 0 <= i < |init| ==> init[i] == aliases[i];
      ForwardChainsEnd(init, k);
    }
  }

  /** A backward link strands the identity it absorbs on one that no longer exists. */
  lemma {:induction false} BackwardLinkStrands(aliases: seq<Alias>, i: nat, j: nat)
    requires AbsorbedOnce(aliases) && i <= j < |aliases| && aliases[j].1 == aliases[i].0
    ensures Survivor(aliases, aliases[j].0) == aliases[i].0
  {
    var last := |aliases| - 1;
    var init := aliases[..last];
    assert forall m :: 0 <= m < last ==> init[m] == aliases[m];
    if j < last {
      BackwardLinkStrands(init, i, j);
    } else {
      UnabsorbedSurvives(init, aliases[j].0);
    }
  }

  /**
   * One pass in list order reaches the end of every merge chain exactly when the list is
   * ordered along its chains.
   */
  lemma SurvivorsSurviveExactlyAlongChains(aliases: seq<Alias>)
    requires AbsorbedOnce(aliases)
    ensures AlongChains(aliases) <==> forall k :: !Absorbs(aliases, Survivor(aliases, k))
  {
    if AlongChains(aliases) {
      forall k ensures !Absorbs(aliases, Survivor(aliases, k)) {
        ForwardChainsEnd(aliases, k);
      }
    } else {
      var i, j :| 0 <= i <= j < |aliases| && aliases[j].1 == aliases[i].0;
      BackwardLinkStrands(aliases, i, j);
      assert Absorbs(aliases, Survivor(aliases, aliases[j].0));
    }
  }

  /**
   * Along its chains, both identities of every link end up as one; with
   * `UnabsorbedSurvives` this is all there is to say of what an identity becomes.
   */
  lemma {:induction false} LinkedSurviveTogether(aliases: seq<Alias>, i: nat)
    requires AbsorbedOnce(aliases) && AlongChains(aliases) && i < |aliases|
    ensures Survivor(aliases, aliases[i].0) == Survivor(aliases, aliases[i].1)
  {
    var last := |aliases| - 1;
    var init := aliases[..last];
    assert forall m :: 0 <= m < last ==> init[m] == aliases[m];
    if i < last {
      LinkedSurviveTogether(init, i);
    } else {
      UnabsorbedSurvives(init, aliases[last].0);
      UnabsorbedSurvives(init, aliases[last].1);
    }
  }

  /** Lists the graph's merge produces fold addresses into hardware addresses, so they always qualify. */
  lemma MergeListsRunAlongChains(aliases: seq<Alias>)
    requires forall i :: 0 <= i < |aliases| ==> !aliases[i].0.Mac? && aliases[i].1.Mac?
    ensures AlongChains(aliases)
  {
  }

  // ----- the coverage list

  /** The sort's comparison: display text ascending, then TCP attempts descending. */
  predicate Leq(a: Coverage, b: Coverage) {
    && TextLeq(a.device.Display(), b.device.Display())
    && (a.device.Display() == b.device.Display() ==> a.tcpAttempted >= b.tcpAttempted)
  }

  lemma LeqTotal(a: Coverage, b: Coverage)
    ensures Leq(a, b) || Leq(b, a)
  {
    TextLeqTotal(a.device.Display(), b.device.Display());
  }

  lemma LeqTransitive(a: Coverage, b: Coverage, c: Coverage)
    requires Leq(a, b) && Leq(b, c)
    ensures Leq(a, c)
  {
    TextLeqTransitive(a.device.Display(), b.device.Display(), c.device.Display());
    if a.device.Display() == c.device.Display() {
      TextLeqTotal(a.device.Display(), b.device.Display());
    }
  }

  predicate Ordered(s: seq<Coverage>) {
    forall i, j :: 0 <= i < j < |s| ==> Leq(s[i], s[j])
  }

  function Inserted(s: seq<Coverage>, x: Coverage): seq<Coverage> {
    if s == [] then [x]
    else if Leq(s[0], x) then [s[0]] + Inserted(s[1..], x)
    else [x] + s
  }

  /** A stable sort. */
  function Sorted(s: seq<Coverage>): seq<Coverage> {
    if s == [] then [] else Inserted(Sorted(s[..|s| - 1]), s[|s| - 1])
  }

  lemma {:induction false} InsertedOrdered(s: seq<Coverage>, x: Coverage)
    requires Ordered(s)
    ensures Ordered(Inserted(s, x))
    ensures forall c :: c in Inserted(s, x) <==> c == x || c in s
  {
    if s != [] {
      assert s == [s[0]] + s[1..];
      if Leq(s[0], x) {
        InsertedOrdered(s[1..], x);
        var r := Inserted(s[1..], x);
        forall c | c in r ensures Leq(s[0], c) {
          if c != x {
            var i :| 0 <= i < |s[1..]| && s[1..][i] == c;
            assert c == s[i + 1];
          }
        }
      } else {
        LeqTotal(s[0], x);
        forall j | 0 <= j < |s| ensures Leq(x, s[j]) {
          if j > 0 {
            LeqTransitive(x, s[0], s[j]);
          }
        }
      }
    }
  }

  lemma {:induction false} SortedOrdered(s: seq<Coverage>)
    ensures Ordered(Sorted(s))
    ensures forall c :: c in Sorted(s) <==> c in s
  {
    if s != [] {
      SortedOrdered(s[..|s| - 1]);
      InsertedOrdered(Sorted(s[..|s| - 1]), s[|s| - 1]);
      assert s == s[..|s| - 1] + [s[|s| - 1]];
    }
  }

  /** `dedup_by`: a record is dropped when the last one kept has its device. */
  function Deduped(s: seq<Coverage>): (r: seq<Coverage>)
    ensures s != [] ==> r != []
  {
    if |s| <= 1 then s
    else
      var kept := Deduped(s[..|s| - 1]);
      if kept[|kept| - 1].device == s[|s| - 1].device then kept else kept + [s[|s| - 1]]
  }

  /** Two devices that display alike, which is what the sort cannot tell apart. */
  predicate DisplayDistinct(devices: set<DeviceKey>) {
    forall d, e :: d in devices && e in devices && d.Display() == e.Display() ==> d == e
  }

  function Devices(s: seq<Coverage>): set<DeviceKey> {
    set c | c in s :: c.device
  }

  predicate OnePerDevice(s: seq<Coverage>) {
    forall i, j :: 0 <= i < j < |s| ==> s[i].device != s[j].device
  }

  /** `r` keeps, for each device of `s`, one of its records with the most TCP attempts. */
  predicate KeepsBest(s: seq<Coverage>, r: seq<Coverage>) {
    (forall c :: c in r ==> c in s) && forall c :: c in s ==> Bettered(c, r)
  }

  predicate Bettered(c: Coverage, r: seq<Coverage>) {
    exists i :: 0 <= i < |r| && r[i].device == c.device && c.tcpAttempted <= r[i].tcpAttempted
  }

  lemma {:induction false} DedupedLast(s: seq<Coverage>)
    requires s != []
    ensures Deduped(s)[|Deduped(s)| - 1].device == s[|s| - 1].device
  {
  }

  lemma DropKeepsBest(init: seq<Coverage>, kept: seq<Coverage>, last: Coverage)
    requires KeepsBest(init, kept) && kept != []
    requires kept[|kept| - 1].device == last.device && last.tcpAttempted <= kept[|kept| - 1].tcpAttempted
    ensures KeepsBest(init + [last], kept)
  {
    assert Bettered(last, kept);
  }

  lemma PushKeepsBest(init: seq<Coverage>, kept: seq<Coverage>, last: Coverage)
    requires KeepsBest(init, kept)
    ensures KeepsBest(init + [last], kept + [last])
  {
    var r := kept + [last];
    assert r[|kept|] == last;
    forall c | c in init ensures Bettered(c, r) {
      var i :| 0 <= i < |kept| && kept[i].device == c.device && c.tcpAttempted <= kept[i].tcpAttempted;
      assert r[i] == kept[i];
    }
  }

  /** In an ordered list a later record of a device has no more attempts than an earlier one. */
  lemma EarlierHasMore(s: seq<Coverage>, c: Coverage)
    requires Ordered(s) && s != [] && c in s[..|s| - 1] && c.device == s[|s| - 1].device
    ensures s[|s| - 1].tcpAttempted <= c.tcpAttempted
  {
    var i :| 0 <= i < |s| - 1 && s[i] == c;
    assert Leq(s[i], s[|s| - 1]);
  }

  lemma NextKeepsBest(init: seq<Coverage>, last: Coverage, kept: seq<Coverage>, s: seq<Coverage>)
    requires KeepsBest(init, kept) && kept != [] && s == init + [last] && Ordered(s)
    ensures KeepsBest(s, if kept[|kept| - 1].device == last.device then kept else kept + [last])
  {
    if kept[|kept| - 1].device == last.device {
      assert s[..|s| - 1] == init && kept[|kept| - 1] in kept;
      EarlierHasMore(s, kept[|kept| - 1]);
      DropKeepsBest(init, kept, last);
    } else {
      PushKeepsBest(init, kept, last);
    }
  }

  /** Deduplicating an ordered list keeps a best record of every device, whatever its devices display as. */
  lemma {:induction false} DedupedKeepsBest(s: seq<Coverage>)
    requires Ordered(s)
    ensures KeepsBest(s, Deduped(s))
  {
    if |s| > 1 {
      DedupedKeepsBest(s[..|s| - 1]);
      NextKeepsBest(s[..|s| - 1], s[|s| - 1], Deduped(s[..|s| - 1]), s);
    } else if |s| == 1 {
      OneIsBest(s);
    } else {
      assert Deduped(s) == s;
    }
  }

  lemma OneIsBest(s: seq<Coverage>)
    requires |s| == 1
    ensures KeepsBest(s, Deduped(s))
  {
    assert Deduped(s) == s;
    assert Bettered(s[0], s);
  }

  /** Where displays differ, records of one device stand together in an ordered list. */
  lemma SameDisplayBetween(s: seq<Coverage>, c: Coverage)
    requires |s| > 1 && Ordered(s) && DisplayDistinct(Devices(s))
    requires c in s[..|s| - 1] && c.device == s[|s| - 1].device
    ensures s[|s| - 2].device == c.device
  {
    var i :| 0 <= i < |s| - 1 && s[i] == c;
    var previous := s[|s| - 2];
    if i < |s| - 2 {
      TextLeqTotal(c.device.Display(), previous.device.Display());
      assert Leq(s[i], previous) && Leq(previous, s[|s| - 1]);
    }
    assert previous in s && c in s;
    assert previous.device in Devices(s) && c.device in Devices(s);
  }

  lemma {:induction false} DedupedOnePerDevice(s: seq<Coverage>)
    requires Ordered(s) && DisplayDistinct(Devices(s))
    ensures OnePerDevice(Deduped(s))
  {
    if |s| > 1 {
      var init, last := s[..|s| - 1], s[|s| - 1];
      var kept := Deduped(init);
      DedupedLast(init);
      assert Devices(init) <= Devices(s);
      DedupedOnePerDevice(init);
      DedupedKeepsBest(init);
      if kept[|kept| - 1].device != last.device {
        forall i | 0 <= i < |kept| ensures kept[i].device != last.device {
          assert kept[i] in kept;
          if kept[i].device == last.device {
            SameDisplayBetween(s, kept[i]);
          }
        }
      }
    }
  }

  /** However devices display, tidying loses none of them and keeps a record of each with the most attempts. */
  lemma TidyKeepsBest(s: seq<Coverage>)
    ensures KeepsBest(s, Deduped(Sorted(s))) && Devices(Deduped(Sorted(s))) == Devices(s)
  {
    SortedOrdered(s);
    DedupedKeepsBest(Sorted(s));
    var r := Deduped(Sorted(s));
    forall c | c in s ensures Bettered(c, r) {
      assert c in Sorted(s);
    }
    forall d | d in Devices(s) ensures d in Devices(r) {
      var c :| c in s && c.device == d;
      var i :| 0 <= i < |r| && r[i].device == c.device && c.tcpAttempted <= r[i].tcpAttempted;
      assert r[i] in r;
    }
  }

  lemma RenamedBetters(c: Coverage, aliases: seq<Alias>, coverage: seq<Coverage>)
    requires Bettered(c, coverage)
    ensures Bettered(c.(device := Survivor(aliases, c.device)), Deduped(Sorted(Rewritten(aliases, coverage))))
  {
    var i :| 0 <= i < |coverage| && coverage[i].device == c.device && c.tcpAttempted <= coverage[i].tcpAttempted;
    var renamed := Rewritten(aliases, coverage);
    TidyKeepsBest(renamed);
    assert renamed[i] in renamed;
    assert Bettered(renamed[i], Deduped(Sorted(renamed)));
  }

  lemma RenamedFrom(r: Coverage, aliases: seq<Alias>, coverage: seq<Coverage>) returns (c: Coverage)
    requires r in Deduped(Sorted(Rewritten(aliases, coverage)))
    ensures c in coverage && r == c.(device := Survivor(aliases, c.device))
  {
    var renamed := Rewritten(aliases, coverage);
    TidyKeepsBest(renamed);
    var i :| 0 <= i < |renamed| && renamed[i] == r;
    c := coverage[i];
  }

  /**
   * Applying a list of aliases leaves coverage of exactly the surviving identities. Each
   * record is one there was, changed in nothing but its identity, and each there was is left
   * under its surviving identity or outdone there.
   */
  lemma CoverageHoldsSurvivors(aliases: seq<Alias>, coverage: seq<Coverage>)
    ensures var kept := Deduped(Sorted(Rewritten(aliases, coverage)));
            && Devices(kept) == Survivors(aliases, Devices(coverage))
            && (forall r :: r in kept ==> exists c :: c in coverage && r == Coverage(Survivor(aliases, c.device), c.tcpAttempted, c.detail))
            && (forall c :: c in coverage ==> Bettered(Coverage(Survivor(aliases, c.device), c.tcpAttempted, c.detail), kept))
  {
    var kept := Deduped(Sorted(Rewritten(aliases, coverage)));
    forall r | r in kept
      ensures exists c :: c in coverage && r == Coverage(Survivor(aliases, c.device), c.tcpAttempted, c.detail)
    {
      var c := RenamedFrom(r, aliases, coverage);
    }
    forall c | c in coverage ensures Bettered(Coverage(Survivor(aliases, c.device), c.tcpAttempted, c.detail), kept) {
      assert Bettered(c, coverage);
      RenamedBetters(c, aliases, coverage);
    }
    DevicesSurvive(aliases, coverage, kept);
  }

  lemma DevicesSurvive(aliases: seq<Alias>, coverage: seq<Coverage>, kept: seq<Coverage>)
    requires forall r :: r in kept ==> exists c :: c in coverage && r == Coverage(Survivor(aliases, c.device), c.tcpAttempted, c.detail)
    requires forall c :: c in coverage ==> Bettered(Coverage(Survivor(aliases, c.device), c.tcpAttempted, c.detail), kept)
    ensures Devices(kept) == Survivors(aliases, Devices(coverage))
  {
    forall d | d in Survivors(aliases, Devices(coverage)) ensures d in Devices(kept) {
      var c :| c in coverage && Survivor(aliases, c.device) == d;
      var i :| 0 <= i < |kept| && kept[i].device == d;
      assert kept[i] in kept;
    }
    forall d | d in Devices(kept) ensures d in Survivors(aliases, Devices(coverage)) {
      var r :| r in kept && r.device == d;
      var c :| c in coverage && r == Coverage(Survivor(aliases, c.device), c.tcpAttempted, c.detail);
      assert c.device in Devices(coverage);
    }
  }

  /**
   * Sorting and deduplicating leaves one record per device, for every coverage list over some
   * devices exactly when no two of them display alike.
   */
  lemma OneRecordPerDeviceExactlyWhenDisplaysDiffer(devices: set<DeviceKey>)
    ensures DisplayDistinct(devices) <==>
            forall s: seq<Coverage> :: Devices(s) <= devices ==> OnePerDevice(Deduped(Sorted(s)))
  {
    if DisplayDistinct(devices) {
      forall s: seq<Coverage> | Devices(s) <= devices ensures OnePerDevice(Deduped(Sorted(s))) {
        SortedOrdered(s);
        assert Devices(Sorted(s)) == Devices(s);
        DedupedOnePerDevice(Sorted(s));
      }
    } else {
      var d, e :| d in devices && e in devices && d.Display() == e.Display() && d != e;
      var s := Clash(d, e);
      ClashSurvives(d, e);
      assert Devices(s) <= devices;
    }
  }

  /** Two devices under one text, one of them recorded on either side of the other. */
  function Clash(d: DeviceKey, e: DeviceKey): seq<Coverage> {
    [Coverage(d, 3, 0), Coverage(e, 2, 0), Coverage(d, 1, 0)]
  }

  lemma ClashSurvives(d: DeviceKey, e: DeviceKey)
    requires d.Display() == e.Display() && d != e
    ensures Deduped(Sorted(Clash(d, e))) == Clash(d, e) && !OnePerDevice(Clash(d, e))
  {
    ClashIsSorted(d, e);
    var x, y, z := Coverage(d, 3, 0), Coverage(e, 2, 0), Coverage(d, 1, 0);
    assert [x, y, z][..2] == [x, y] && [x, y][..1] == [x];
    assert Deduped([x]) == [x] && Deduped([x, y]) == [x, y];
    assert Deduped([x, y, z]) == [x, y] + [z];
    assert Clash(d, e)[0].device == Clash(d, e)[2].device;
  }

  lemma ClashIsSorted(d: DeviceKey, e: DeviceKey)
    requires d.Display() == e.Display() && d != e
    ensures Sorted(Clash(d, e)) == Clash(d, e)
  {
    var x, y, z := Coverage(d, 3, 0), Coverage(e, 2, 0), Coverage(d, 1, 0);
    TextLeqTotal(d.Display(), d.Display());
    assert Leq(x, y) && Leq(x, z) && Leq(y, z);
    SortedPush([], x);
    SortedPush([x], y);
    SortedPush([x, y], z);
    assert [x, y] == [x] + [y] && Clash(d, e) == [x, y] + [z];
    assert Inserted([], x) == [x];
    assert Inserted([x], y) == [x] + Inserted([], y) by { assert [x][1..] == []; }
    assert Inserted([x, y], z) == [x] + Inserted([y], z) by { assert [x, y][1..] == [y]; }
    assert Inserted([y], z) == [y] + Inserted([], z) by { assert [y][1..] == []; }
    assert [x] + ([y] + [z]) == [x, y, z];
  }

  lemma SortedPush(s: seq<Coverage>, c: Coverage)
    ensures Sorted(s + [c]) == Inserted(Sorted(s), c)
  {
    assert (s + [c])[..|s|] == s;
  }

  /** Such pairs exist: nothing keeps a hardware address from being spelled like an address. */
  lemma DisplaysCanClash(text: Text)
    ensures !DisplayDistinct({Mac(text), Address(text)})
  {
    var d, e := Mac(text), Address(text);
    assert d.Display() == e.Display() && d != e;
  }

  // ----- the rewriting as the source performs it

  /**
   * `apply_aliases`: afterwards `interrogated` holds exactly the surviving identities of what
   * it held, and the coverage list is the renamed one, sorted and deduplicated.
   */
  method ApplyAliases(aliases: seq<Alias>, interrogated: set<DeviceKey>, coverage: seq<Coverage>)
    returns (asked: set<DeviceKey>, kept: seq<Coverage>)
    ensures asked == Survivors(aliases, interrogated)
    ensures kept == Deduped(Sorted(Rewritten(aliases, coverage)))
  {
    asked, kept := interrogated, coverage;
    for i := 0 to |aliases|
      invariant asked == Survivors(aliases[..i], interrogated)
      invariant kept == Rewritten(aliases[..i], coverage)
    {
      var (absorbed, surviving) := aliases[i];
      assert aliases[..i + 1][..i] == aliases[..i];
      if absorbed in asked {
        asked := asked - {absorbed} + {surviving};
      }
      ghost var before := kept;
      for j := 0 to |kept|
        invariant |kept| == |before|
        invariant forall k :: 0 <= k < j ==> kept[k] == before[k].(device := Renamed(before[k].device, aliases[i]))
        invariant forall k :: j <= k < |kept| ==> kept[k] == before[k]
      {
        if kept[j].device == absorbed {
          kept := kept[j := kept[j].(device := surviving)];
        }
      }
    }
    assert aliases[..|aliases|] == aliases;
    kept := Sorted(kept);
    kept := Deduped(kept);
  }
}
