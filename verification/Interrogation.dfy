/**
 * Which devices are queued for interrogation, and in what order
 * (`queue_from_graph`, src/engine/enrich.rs:252-323).
 */
module Interrogation {
  import opened Aliases

  datatype Tier = EstablishedPivot | Candidate | Host {
    function Priority(): nat {
      match this
      case EstablishedPivot => 0
      case Candidate => 1
      case Host => 2
    }
  }

  /** A device node; `endpoints` are its probeable, locally observed addresses in preference order. */
  datatype Node = Node(key: DeviceKey, locallyObserved: bool, endpoints: seq<nat>)

  /** Everything the queue is built from. */
  datatype Devices = Devices(nodes: seq<Node>, pivots: set<DeviceKey>, candidates: set<DeviceKey>)

  datatype Target = Target(device: DeviceKey, tier: Tier, endpoints: seq<nat>)

  predicate Queueable(node: Node, interrogated: set<DeviceKey>) {
    node.key !in interrogated && node.locallyObserved && node.endpoints != []
  }

  function TierOf(d: Devices, key: DeviceKey): Tier {
    if key in d.pivots then EstablishedPivot else if key in d.candidates then Candidate else Host
  }

  function TargetOf(d: Devices, node: Node): Target {
    Target(node.key, TierOf(d, node.key), node.endpoints)
  }

  /** One target per queueable node, in node order. */
  function Unsorted(d: Devices, nodes: seq<Node>, interrogated: set<DeviceKey>): seq<Target> {
    if nodes == [] then []
    else
      var init := Unsorted(d, nodes[..|nodes| - 1], interrogated);
      var last := nodes[|nodes| - 1];
      if Queueable(last, interrogated) then init + [TargetOf(d, last)] else init
  }

  function OfTier(q: seq<Target>, tier: Tier): seq<Target> {
    if q == [] then []
    else
      var init := OfTier(q[..|q| - 1], tier);
      if q[|q| - 1].tier == tier then init + [q[|q| - 1]] else init
  }

  /** A stable sort by tier: each tier's targets in their original order. */
  function ByTier(q: seq<Target>): seq<Target> {
    OfTier(q, EstablishedPivot) + OfTier(q, Candidate) + OfTier(q, Host)
  }

  function Queue(d: Devices, interrogated: set<DeviceKey>): seq<Target> {
    ByTier(Unsorted(d, d.nodes, interrogated))
  }

  method QueueFromGraph(d: Devices, interrogated: set<DeviceKey>) returns (queue: seq<Target>)
    ensures queue == Queue(d, interrogated)
  {
    queue := [];
    for i := 0 to |d.nodes|
      invariant queue == Unsorted(d, d.nodes[..i], interrogated)
    {
      var node := d.nodes[i];
      assert d.nodes[..i + 1][..i] == d.nodes[..i];
      if node.key in interrogated {
        continue;
      }
      if !node.locallyObserved {
        continue;
      }
      if node.endpoints == [] {
        continue;
      }
      queue := queue + [TargetOf(d, node)];
    }
    assert d.nodes[..|d.nodes|] == d.nodes;
    queue := ByTier(queue);
  }

  predicate DistinctNodes(nodes: seq<Node>) {
    forall i, j :: 0 <= i < j < |nodes| ==> nodes[i].key != nodes[j].key
  }

  predicate DistinctTargets(q: seq<Target>) {
    forall i, j :: 0 <= i < j < |q| ==> q[i].device != q[j].device
  }

  lemma {:induction false} UnsortedMembers(d: Devices, nodes: seq<Node>, interrogated: set<DeviceKey>)
    ensures forall t :: t in Unsorted(d, nodes, interrogated) <==>
              exists n :: n in nodes && Queueable(n, interrogated) && t == TargetOf(d, n)
    ensures DistinctNodes(nodes) ==> DistinctTargets(Unsorted(d, nodes, interrogated))
  {
    if nodes != [] {
      var init, last := nodes[..|nodes| - 1], nodes[|nodes| - 1];
      UnsortedMembers(d, init, interrogated);
      assert nodes == init + [last];
      assert forall n :: n in nodes <==> n in init || n == last;
      if DistinctNodes(nodes) {
        forall t | t in Unsorted(d, init, interrogated) ensures t.device != last.key {
          var n :| n in init && Queueable(n, interrogated) && t == TargetOf(d, n);
        }
      }
    }
  }

  lemma {:induction false} OfTierMembers(q: seq<Target>, tier: Tier)
    ensures forall t :: t in OfTier(q, tier) <==> t in q && t.tier == tier
    ensures DistinctTargets(q) ==> DistinctTargets(OfTier(q, tier))
  {
    if q != [] {
      var init, last := q[..|q| - 1], q[|q| - 1];
      OfTierMembers(init, tier);
      assert q == init + [last];
      assert forall t :: t in init ==> exists i :: 0 <= i < |q| - 1 && q[i] == t;
    }
  }

  lemma ByTierMembers(q: seq<Target>)
    ensures forall t :: t in ByTier(q) <==> t in q
    ensures forall i, j :: 0 <= i < j < |ByTier(q)| ==> ByTier(q)[i].tier.Priority() <= ByTier(q)[j].tier.Priority()
    ensures DistinctTargets(q) ==> DistinctTargets(ByTier(q))
  {
    OfTierMembers(q, EstablishedPivot);
    OfTierMembers(q, Candidate);
    OfTierMembers(q, Host);
    var a, b, c := OfTier(q, EstablishedPivot), OfTier(q, Candidate), OfTier(q, Host);
    forall i | 0 <= i < |ByTier(q)|
      ensures ByTier(q)[i].tier.Priority() == (if i < |a| then 0 else if i < |a| + |b| then 1 else 2)
    {
      if i < |a| {
        assert a[i] in a;
      } else if i < |a| + |b| {
        assert b[i - |a|] in b;
      } else {
        assert c[i - |a| - |b|] in c;
      }
    }
    if DistinctTargets(q) {
      forall i, j | 0 <= i < j < |ByTier(q)| ensures ByTier(q)[i].device != ByTier(q)[j].device {
        if ByTier(q)[i].tier != ByTier(q)[j].tier {
          assert ByTier(q)[i] in q && ByTier(q)[j] in q;
        }
      }
    }
  }

  /** The node of one device comes before the node of another. */
  predicate Precedes(nodes: seq<Node>, a: DeviceKey, b: DeviceKey) {
    exists x, y :: 0 <= x < y < |nodes| && nodes[x].key == a && nodes[y].key == b
  }

  predicate InOrder(nodes: seq<Node>, q: seq<Target>) {
    forall i, j :: 0 <= i < j < |q| ==> Precedes(nodes, q[i].device, q[j].device)
  }

  lemma PrecedesMore(init: seq<Node>, last: Node, nodes: seq<Node>, a: DeviceKey, b: DeviceKey)
    requires nodes == init + [last] && Precedes(init, a, b)
    ensures Precedes(nodes, a, b)
  {
    var x, y :| 0 <= x < y < |init| && init[x].key == a && init[y].key == b;
    assert nodes[x] == init[x] && nodes[y] == init[y];
  }

  lemma {:induction false} UnsortedFrom(d: Devices, nodes: seq<Node>, interrogated: set<DeviceKey>, i: nat) returns (x: nat)
    requires i < |Unsorted(d, nodes, interrogated)|
    ensures x < |nodes| && nodes[x].key == Unsorted(d, nodes, interrogated)[i].device
  {
    if i < |Unsorted(d, nodes[..|nodes| - 1], interrogated)| {
      x := UnsortedFrom(d, nodes[..|nodes| - 1], interrogated, i);
    } else {
      x := |nodes| - 1;
    }
  }

  lemma {:induction false} UnsortedInOrder(d: Devices, nodes: seq<Node>, interrogated: set<DeviceKey>)
    ensures InOrder(nodes, Unsorted(d, nodes, interrogated))
  {
    if nodes != [] {
      var init, last := nodes[..|nodes| - 1], nodes[|nodes| - 1];
      var q := Unsorted(d, init, interrogated);
      UnsortedInOrder(d, init, interrogated);
      forall i, j | 0 <= i < j < |q| ensures Precedes(nodes, q[i].device, q[j].device) {
        PrecedesMore(init, last, nodes, q[i].device, q[j].device);
      }
      forall i | 0 <= i < |q| ensures Precedes(nodes, q[i].device, last.key) {
        var x := UnsortedFrom(d, init, interrogated, i);
        assert nodes[x] == init[x] && nodes[|init|] == last;
      }
    }
  }

  lemma {:induction false} OfTierFrom(q: seq<Target>, tier: Tier, i: nat) returns (x: nat)
    requires i < |OfTier(q, tier)|
    ensures x < |q| && q[x] == OfTier(q, tier)[i]
  {
    if i < |OfTier(q[..|q| - 1], tier)| {
      x := OfTierFrom(q[..|q| - 1], tier, i);
    } else {
      x := |q| - 1;
    }
  }

  lemma {:induction false} OfTierInOrder(nodes: seq<Node>, q: seq<Target>, tier: Tier)
    requires InOrder(nodes, q)
    ensures InOrder(nodes, OfTier(q, tier))
  {
    if q != [] {
      var init, last := q[..|q| - 1], q[|q| - 1];
      var r := OfTier(init, tier);
      InOrderStart(nodes, q);
      OfTierInOrder(nodes, init, tier);
      forall i | 0 <= i < |r| ensures Precedes(nodes, r[i].device, last.device) {
        var x := OfTierFrom(init, tier, i);
        assert q[x] == r[i];
      }
    }
  }

  lemma InOrderStart(nodes: seq<Node>, q: seq<Target>)
    requires q != [] && InOrder(nodes, q)
    ensures InOrder(nodes, q[..|q| - 1])
  {
  }

  /** Targets of one tier keep their order: the sort is stable. */
  predicate StableIn(nodes: seq<Node>, q: seq<Target>) {
    forall i, j :: 0 <= i < j < |q| && q[i].tier == q[j].tier ==> Precedes(nodes, q[i].device, q[j].device)
  }

  lemma ByTierIsStable(nodes: seq<Node>, q: seq<Target>)
    requires InOrder(nodes, q)
    ensures StableIn(nodes, ByTier(q))
  {
    var a, b, c := OfTier(q, EstablishedPivot), OfTier(q, Candidate), OfTier(q, Host);
    OfTierInOrder(nodes, q, EstablishedPivot);
    OfTierInOrder(nodes, q, Candidate);
    OfTierInOrder(nodes, q, Host);
    OfTierMembers(q, EstablishedPivot);
    OfTierMembers(q, Candidate);
    OfTierMembers(q, Host);
    Stacked(nodes, a, b, c);
  }

  lemma Stacked(nodes: seq<Node>, a: seq<Target>, b: seq<Target>, c: seq<Target>)
    requires InOrder(nodes, a) && InOrder(nodes, b) && InOrder(nodes, c)
    requires forall t :: t in a ==> t.tier == EstablishedPivot
    requires forall t :: t in b ==> t.tier == Candidate
    requires forall t :: t in c ==> t.tier == Host
    ensures StableIn(nodes, a + b + c)
  {
    var q := a + b + c;
    forall i | 0 <= i < |q|
      ensures q[i].tier == if i < |a| then EstablishedPivot else if i < |a| + |b| then Candidate else Host
    {
      if i < |a| {
        assert q[i] in a;
      } else if i < |a| + |b| {
        assert q[i] in b;
      } else {
        assert q[i] in c;
      }
    }
    forall i, j | 0 <= i < j < |q| && q[i].tier == q[j].tier ensures Precedes(nodes, q[i].device, q[j].device) {
      if j < |a| {
        assert q[i] == a[i] && q[j] == a[j];
      } else if j < |a| + |b| {
        assert q[i] == b[i - |a|] && q[j] == b[j - |a|];
      } else {
        assert q[i] == c[i - |a| - |b|] && q[j] == c[j - |a| - |b|];
      }
    }
  }

  /** A node this machine observed, can reach and has not asked, and the target it makes. */
  predicate IsDue(d: Devices, interrogated: set<DeviceKey>, n: Node, t: Target) {
    && n.locallyObserved && n.endpoints != [] && n.key !in interrogated
    && t.device == n.key && t.endpoints == n.endpoints
    && (t.tier == EstablishedPivot <==> n.key in d.pivots)
    && (t.tier == Candidate <==> n.key in d.candidates && n.key !in d.pivots)
  }

  /**
   * The queue holds every device that is locally observed, reachable and not yet
   * interrogated, each once: established pivots first, hosts last and candidates between, and
   * in each of these as the graph lists them.
   */
  lemma QueueIsExact(d: Devices, interrogated: set<DeviceKey>)
    requires DistinctNodes(d.nodes)
    ensures var q := Queue(d, interrogated);
            && (forall t :: t in q <==> exists n :: n in d.nodes && IsDue(d, interrogated, n, t))
            && DistinctTargets(q)
            && (forall t :: t in q ==> t.device !in interrogated)
            && (forall i, j :: 0 <= i < j < |q| ==>
                  && (q[j].tier == EstablishedPivot ==> q[i].tier == EstablishedPivot)
                  && (q[i].tier == Host ==> q[j].tier == Host))
            && StableIn(d.nodes, q)
  {
    var q := Queue(d, interrogated);
    forall t ensures t in q <==> exists n :: n in d.nodes && IsDue(d, interrogated, n, t) {
      QueueMember(d, interrogated, t);
    }
    UnsortedMembers(d, d.nodes, interrogated);
    UnsortedInOrder(d, d.nodes, interrogated);
    ByTierMembers(Unsorted(d, d.nodes, interrogated));
    ByTierIsStable(d.nodes, Unsorted(d, d.nodes, interrogated));
  }

  lemma QueueMember(d: Devices, interrogated: set<DeviceKey>, t: Target)
    ensures t in Queue(d, interrogated) <==> exists n :: n in d.nodes && IsDue(d, interrogated, n, t)
  {
    UnsortedMembers(d, d.nodes, interrogated);
    ByTierMembers(Unsorted(d, d.nodes, interrogated));
    assert forall n :: n in d.nodes ==> (IsDue(d, interrogated, n, t) <==> Queueable(n, interrogated) && t == TargetOf(d, n));
  }
}
