/**
 * The discovery engine's fixed point (`DiscoveryEngine::run`, src/engine/orchestrator.rs:192-471).
 *
 * The graph is any type with the projections the loop reads. Providers, probes and peers are
 * arbitrary functions of when they are asked, so what is proved of a run is proved of every
 * run: in particular of every interleaving of deliveries with the engine's polls, since the
 * two meet only under a source's lock.
 *
 * `RunOn` is the run as a function. It keeps a log of everything it did, and everything it
 * reports is what that log replays to. The methods are the loops of the source, proved equal
 * to it; `Discovery` holds what is proved about every run.
 */
module Engine {
  import opened Bytes
  import opened Outcomes
  import opened Aliases
  import opened Interrogation
  import opened Buffers

  type Evidence = nat

  datatype IpNet = V4(address: nat, length: nat) | V6(address: nat, length: nat)

  const USIZE_MAX: nat := 0xFFFF_FFFF_FFFF_FFFF

  /** `enumerable_host_count`. */
  function HostCount(net: IpNet): nat {
    match net
    case V6(_, _) => USIZE_MAX
    case V4(_, length) =>
      var bits := if length < 32 then 32 - length else 0;
      if bits >= 32 then USIZE_MAX else if Pow2(bits) < 2 then 0 else Pow2(bits) - 2
  }

  datatype Budget = Budget(maxScopes: nat, maxIterations: nat, maxEnumerableHosts: nat)

  /** What the graph answers, and what the outside world hands the engine at each point it is asked. */
  datatype Env<!G> = Env(
    absorb: (G, Evidence) -> G,
    networks: G -> set<IpNet>,
    localNetworks: G -> seq<IpNet>,
    pivotAddresses: G -> set<nat>,
    devices: G -> Devices,
    merge: G -> (G, seq<Alias>),
    empty: G,
    seed: seq<seq<Evidence>>,
    enrich: (nat, seq<Target>) -> (seq<Evidence>, seq<Coverage>),
    scan: (nat, IpNet) -> seq<seq<Evidence>>,
    arrivals: (nat, nat) -> seq<seq<Evidence>>)

  function AbsorbAll<G>(env: Env<G>, g: G, evidence: seq<Evidence>): G {
    if evidence == [] then g
    else env.absorb(AbsorbAll(env, g, evidence[..|evidence| - 1]), evidence[|evidence| - 1])
  }

  // ----- what is done, and what it replays to

  /** One thing the engine did. `Took` is one poll of one source, which the last finishes. */
  datatype Event =
    | Seeded(provider: nat)
    | Took(source: nat, poll: nat, evidence: seq<Evidence>, finishing: bool)
    | Merged(aliases: seq<Alias>)
    | Asked(pass: nat, targets: seq<Target>)
    | Swept(pass: nat, scope: IpNet)

  /** The graph, and the accounts the loop keeps of what it did. */
  datatype State<G> = State(graph: G, interrogated: set<DeviceKey>, coverage: seq<Coverage>, scopes: seq<IpNet>)

  function DevicesOf(targets: seq<Target>): set<DeviceKey> {
    set t | t in targets :: t.device
  }

  function Tidied(aliases: seq<Alias>, coverage: seq<Coverage>): seq<Coverage> {
    Deduped(Sorted(Rewritten(aliases, coverage)))
  }

  function Do<G>(env: Env<G>, s: State<G>, e: Event): State<G> {
    match e
    case Seeded(k) => if k < |env.seed| then s.(graph := AbsorbAll(env, s.graph, env.seed[k])) else s
    case Took(_, _, evidence, _) => s.(graph := AbsorbAll(env, s.graph, evidence))
    case Merged(aliases) =>
      s.(graph := env.merge(s.graph).0, interrogated := Survivors(aliases, s.interrogated),
         coverage := Tidied(aliases, s.coverage))
    case Asked(pass, targets) =>
      var (evidence, coverage) := env.enrich(pass, targets);
      s.(graph := AbsorbAll(env, s.graph, evidence), interrogated := s.interrogated + DevicesOf(targets),
         coverage := s.coverage + coverage)
    case Swept(pass, scope) =>
      s.(graph := AbsorbAll(env, s.graph, Flat(env.scan(pass, scope))), scopes := s.scopes + [scope])
  }

  function Replay<G>(env: Env<G>, log: seq<Event>): State<G> {
    if log == [] then State(env.empty, {}, [], [])
    else Do(env, Replay(env, log[..|log| - 1]), log[|log| - 1])
  }

  // ----- the run as a function

  /** Everything the loop carries: the state, its log, the sources, and the networks waiting. */
  datatype Work<G> = Work(state: State<G>, log: seq<Event>, feeds: seq<Buffer<Evidence>>, finished: bool, polls: nat,
                          queue: seq<IpNet>)

  function Done<G>(env: Env<G>, w: Work<G>, e: Event): (r: Work<G>)
    ensures r.feeds == w.feeds && r.finished == w.finished && r.polls == w.polls && r.queue == w.queue
  {
    w.(state := Do(env, w.state, e), log := w.log + [e])
  }

  /** Phase 1: every seed provider, in order. */
  function SeedOn<G>(env: Env<G>, w: Work<G>, n: nat): Work<G>
    requires n <= |env.seed|
  {
    if n == 0 then w else Done(env, SeedOn(env, w, n - 1), Seeded(n - 1))
  }

  /** Before anything is done. With no sources there is nothing to finish. */
  function Blank<G>(env: Env<G>, sources: nat): Work<G> {
    Work(State(env.empty, {}, [], []), [], seq(sources, _ => Buffer([], false)), sources == 0, 0, [])
  }

  /** The operator's scope enters the queue like any other network. */
  function BeginOn<G>(env: Env<G>, initial: Option<IpNet>, sources: nat): Work<G> {
    SeedOn(env, Blank(env, sources), |env.seed|).(queue := if initial.Some? then [initial.value] else [])
  }

  /** One source polled: what arrived since the last poll lands first, and then all of it is taken. */
  function PollOn<G>(env: Env<G>, w: Work<G>, i: nat, finishing: bool): (r: Work<G>)
    requires i < |w.feeds|
    ensures |r.feeds| == |w.feeds| && r.polls == w.polls
  {
    var landed := OfferAll(w.feeds[i], env.arrivals(w.polls, i));
    Done(env, w, Took(i, w.polls, landed.pending, finishing)).(feeds := w.feeds[i := landed.Taken(finishing)])
  }

  function PolledUpTo<G>(env: Env<G>, w: Work<G>, n: nat, finishing: bool): (r: Work<G>)
    requires n <= |w.feeds|
    ensures |r.feeds| == |w.feeds| && r.polls == w.polls
  {
    if n == 0 then w else PollOn(env, PolledUpTo(env, w, n - 1, finishing), n - 1, finishing)
  }

  function PollAllOn<G>(env: Env<G>, w: Work<G>, finishing: bool): Work<G> {
    PolledUpTo(env, w, |w.feeds|, finishing).(polls := w.polls + 1, finished := w.finished || finishing)
  }

  function MergeOn<G>(env: Env<G>, w: Work<G>): Work<G> {
    Done(env, w, Merged(env.merge(w.state.graph).1))
  }

  function Outstanding<G>(env: Env<G>, s: State<G>): seq<Target> {
    Queue(env.devices(s.graph), s.interrogated)
  }

  function AskOn<G>(env: Env<G>, w: Work<G>, pass: nat): Work<G> {
    Done(env, w, Asked(pass, Outstanding(env, w.state)))
  }

  /** The queue, and behind it every locally observed network that is neither processed nor queued. */
  function Line(queue: seq<IpNet>, nets: seq<IpNet>, processed: seq<IpNet>): seq<IpNet> {
    if nets == [] then queue
    else
      var line, net := Line(queue, nets[..|nets| - 1], processed), nets[|nets| - 1];
      if net !in processed && net !in line then line + [net] else line
  }

  function Unprocessed(line: seq<IpNet>, processed: seq<IpNet>): seq<IpNet> {
    if line == [] then []
    else
      var rest, net := Unprocessed(line[..|line| - 1], processed), line[|line| - 1];
      if net !in processed then rest + [net] else rest
  }

  function PendingOn<G>(env: Env<G>, w: Work<G>): seq<IpNet> {
    Unprocessed(Line(w.queue, env.localNetworks(w.state.graph), w.state.scopes), w.state.scopes)
  }

  /** The top of a pass: poll, take the pending networks, merge. */
  function SurveyOn<G>(env: Env<G>, w: Work<G>): (Work<G>, seq<IpNet>) {
    var polled := PollAllOn(env, w, false);
    (MergeOn(env, polled.(queue := [])), PendingOn(env, polled))
  }

  /** The pending scopes from the i-th on, until the budget for scopes is spent. */
  function SweepFrom<G>(env: Env<G>, budget: Budget, w: Work<G>, pending: seq<IpNet>, i: nat, pass: nat): Work<G>
    requires i <= |pending|
    decreases |pending| - i
  {
    if i == |pending| || |w.state.scopes| >= budget.maxScopes then w
    else SweepFrom(env, budget, Done(env, w, Swept(pass, pending[i])), pending, i + 1, pass)
  }

  /** The rest of a pass with work to do: merge again, ask everyone outstanding, sweep. */
  function AdvanceOn<G>(env: Env<G>, budget: Budget, w: Work<G>, pending: seq<IpNet>, pass: nat): Work<G> {
    SweepFrom(env, budget, AskOn(env, MergeOn(env, w), pass), pending, 0, pass)
  }

  /** Whether the final drain gave traversal something more to do. */
  predicate Gained<G>(env: Env<G>, before: G, after: State<G>) {
    || !(env.networks(after.graph) <= env.networks(before))
    || !(env.pivotAddresses(after.graph) <= env.pivotAddresses(before))
    || Outstanding(env, after) != []
  }

  /** How the loop ended; `decided` is how much of the log there was when it decided to. */
  datatype End<G> = End(work: Work<G>, passes: nat, converged: bool, decided: nat)

  /** What one pass leads to: the end of the run, or the next pass. */
  datatype Turn<G> = Over(end: End<G>) | Onward(work: Work<G>)

  /** Candidate convergence: the one final drain, if it is still to come, and whether it leaves anything to do. */
  function SettleOn<G>(env: Env<G>, s: Work<G>, pass: nat): Turn<G> {
    if s.finished then Over(End(s, pass + 1, true, |s.log|))
    else
      var drained := PollAllOn(env, s, true);
      if Gained(env, s.state.graph, drained.state) then Onward(drained)
      else Over(End(drained, pass + 1, true, |s.log|))
  }

  function TurnOn<G>(env: Env<G>, budget: Budget, w: Work<G>, pass: nat): Turn<G> {
    var (s, pending) := SurveyOn(env, w);
    if pending != [] || Outstanding(env, s.state) != [] then Onward(AdvanceOn(env, budget, s, pending, pass))
    else SettleOn(env, s, pass)
  }

  /** Passes until one is the last or the budget for passes is spent. */
  function Loop<G>(turn: (Work<G>, nat) -> Turn<G>, limit: nat, w: Work<G>, pass: nat): End<G>
    decreases limit - pass
  {
    if pass >= limit then End(w, pass, false, |w.log|)
    else
      match turn(w, pass)
      case Over(end) => end
      case Onward(next) => Loop(turn, limit, next, pass + 1)
  }

  function LoopOn<G>(env: Env<G>, budget: Budget, w: Work<G>, pass: nat): End<G> {
    Loop((v: Work<G>, p: nat) => TurnOn(env, budget, v, p), budget.maxIterations, w, pass)
  }

  /** Reaching the iteration ceiling must still finish the sources. */
  function CloseOn<G>(env: Env<G>, e: End<G>): End<G> {
    if e.work.finished then e else e.(work := PollAllOn(env, e.work, true))
  }

  function RunOn<G>(env: Env<G>, budget: Budget, initial: Option<IpNet>, sources: nat): End<G> {
    CloseOn(env, LoopOn(env, budget, BeginOn(env, initial, sources), 0))
  }

  function TooLarge(budget: Budget, scopes: seq<IpNet>): seq<IpNet> {
    if scopes == [] then []
    else
      var init := TooLarge(budget, scopes[..|scopes| - 1]);
      var last := scopes[|scopes| - 1];
      if HostCount(last) > budget.maxEnumerableHosts then init + [last] else init
  }

  // ----- the run as the source performs it

  method Absorb<G>(env: Env<G>, g: G, evidence: seq<Evidence>) returns (r: G)
    ensures r == AbsorbAll(env, g, evidence)
  {
    r := g;
    for i := 0 to |evidence|
      invariant r == AbsorbAll(env, g, evidence[..i])
    {
      assert evidence[..i + 1][..i] == evidence[..i];
      r := env.absorb(r, evidence[i]);
    }
    assert evidence[..|evidence|] == evidence;
  }

  method Begin<G>(env: Env<G>, initial: Option<IpNet>, sources: nat) returns (w: Work<G>)
    ensures w == BeginOn(env, initial, sources)
  {
    w := Blank(env, sources);
    ghost var blank := w;
    for k := 0 to |env.seed|
      invariant w == SeedOn(env, blank, k)
    {
      var graph := Absorb(env, w.state.graph, env.seed[k]);
      w := w.(state := w.state.(graph := graph), log := w.log + [Seeded(k)]);
    }
    w := w.(queue := if initial.Some? then [initial.value] else []);
  }

  method PollAll<G>(env: Env<G>, w: Work<G>, finishing: bool) returns (r: Work<G>)
    ensures r == PollAllOn(env, w, finishing)
  {
    r := w;
    for i := 0 to |w.feeds|
      invariant r == PolledUpTo(env, w, i, finishing)
    {
      var landed := OfferAll(r.feeds[i], env.arrivals(r.polls, i));
      var graph := Absorb(env, r.state.graph, landed.pending);
      r := r.(state := r.state.(graph := graph), log := r.log + [Took(i, r.polls, landed.pending, finishing)],
              feeds := r.feeds[i := landed.Taken(finishing)]);
    }
    r := r.(polls := w.polls + 1, finished := w.finished || finishing);
  }

  method Merge<G>(env: Env<G>, w: Work<G>) returns (r: Work<G>)
    ensures r == MergeOn(env, w)
  {
    var (graph, aliases) := env.merge(w.state.graph);
    var interrogated, coverage := ApplyAliases(aliases, w.state.interrogated, w.state.coverage);
    r := w.(state := w.state.(graph := graph, interrogated := interrogated, coverage := coverage),
            log := w.log + [Merged(aliases)]);
  }

  /** Queues what this machine observed and has not processed, then takes the queue. */
  method TakePending(queue: seq<IpNet>, nets: seq<IpNet>, processed: seq<IpNet>) returns (pending: seq<IpNet>)
    ensures pending == Unprocessed(Line(queue, nets, processed), processed)
  {
    var line := queue;
    for i := 0 to |nets|
      invariant line == Line(queue, nets[..i], processed)
    {
      assert nets[..i + 1][..i] == nets[..i];
      if nets[i] !in processed && nets[i] !in line {
        line := line + [nets[i]];
      }
    }
    assert nets[..|nets|] == nets;
    pending := [];
    for i := 0 to |line|
      invariant pending == Unprocessed(line[..i], processed)
    {
      assert line[..i + 1][..i] == line[..i];
      if line[i] !in processed {
        pending := pending + [line[i]];
      }
    }
    assert line[..|line|] == line;
  }

  method Interrogate<G>(env: Env<G>, w: Work<G>, pass: nat) returns (r: Work<G>)
    ensures r == AskOn(env, w, pass)
  {
    var targets := QueueFromGraph(env.devices(w.state.graph), w.state.interrogated);
    var interrogated := w.state.interrogated;
    for i := 0 to |targets|
      invariant interrogated == w.state.interrogated + DevicesOf(targets[..i])
    {
      assert targets[..i + 1] == targets[..i] + [targets[i]];
      interrogated := interrogated + {targets[i].device};
    }
    assert targets[..|targets|] == targets;
    var (evidence, coverage) := env.enrich(pass, targets);
    var graph := Absorb(env, w.state.graph, evidence);
    r := w.(state := w.state.(graph := graph, interrogated := interrogated, coverage := w.state.coverage + coverage),
            log := w.log + [Asked(pass, targets)]);
  }

  lemma {:induction false} AbsorbMore<G>(env: Env<G>, g: G, a: seq<Evidence>, b: seq<Evidence>)
    ensures AbsorbAll(env, AbsorbAll(env, g, a), b) == AbsorbAll(env, g, a + b)
  {
    if b == [] {
      assert a + b == a;
    } else {
      AbsorbMore(env, g, a, b[..|b| - 1]);
      assert (a + b)[..|a + b| - 1] == a + b[..|b| - 1];
    }
  }

  method Sweep<G>(env: Env<G>, w: Work<G>, pass: nat, scope: IpNet) returns (r: Work<G>)
    ensures r == Done(env, w, Swept(pass, scope))
  {
    var produced := env.scan(pass, scope);
    var graph := w.state.graph;
    for p := 0 to |produced|
      invariant graph == AbsorbAll(env, w.state.graph, Flat(produced[..p]))
    {
      assert produced[..p + 1][..p] == produced[..p];
      AbsorbMore(env, w.state.graph, Flat(produced[..p]), produced[p]);
      graph := Absorb(env, graph, produced[p]);
    }
    assert produced[..|produced|] == produced;
    r := w.(state := w.state.(graph := graph, scopes := w.state.scopes + [scope]), log := w.log + [Swept(pass, scope)]);
  }

  lemma TooLargeNext(budget: Budget, scopes: seq<IpNet>, scope: IpNet)
    ensures TooLarge(budget, scopes + [scope]) ==
            TooLarge(budget, scopes) + if HostCount(scope) > budget.maxEnumerableHosts then [scope] else []
  {
    assert (scopes + [scope])[..|scopes|] == scopes;
  }

  lemma SweepNext<G>(env: Env<G>, budget: Budget, w: Work<G>, pending: seq<IpNet>, i: nat, pass: nat, r: Work<G>)
    requires i < |pending| && |w.state.scopes| < budget.maxScopes && r == Done(env, w, Swept(pass, pending[i]))
    ensures SweepFrom(env, budget, w, pending, i, pass) == SweepFrom(env, budget, r, pending, i + 1, pass)
    ensures r.state.scopes == w.state.scopes + [pending[i]]
  {
  }

  method ProcessScopes<G>(env: Env<G>, budget: Budget, w: Work<G>, pending: seq<IpNet>, pass: nat, large: seq<IpNet>)
    returns (r: Work<G>, oversized: seq<IpNet>)
    requires large == TooLarge(budget, w.state.scopes)
    ensures r == SweepFrom(env, budget, w, pending, 0, pass)
    ensures oversized == TooLarge(budget, r.state.scopes)
  {
    r, oversized := w, large;
    ghost var end := SweepFrom(env, budget, w, pending, 0, pass);
    var i := 0;
    while i < |pending| && |r.state.scopes| < budget.maxScopes
      invariant i <= |pending|
      invariant SweepFrom(env, budget, r, pending, i, pass) == end
      invariant oversized == TooLarge(budget, r.state.scopes)
    {
      var scope := pending[i];
      TooLargeNext(budget, r.state.scopes, scope);
      if HostCount(scope) > budget.maxEnumerableHosts {
        oversized := oversized + [scope];
      } else {
        assert oversized + [] == oversized;
      }
      var swept := Sweep(env, r, pass, scope);
      SweepNext(env, budget, r, pending, i, pass, swept);
      r, i := swept, i + 1;
    }
  }

  /** What a run hands back. */
  datatype Report<G> = Report(graph: G, interrogated: set<DeviceKey>, coverage: seq<Coverage>, scopes: seq<IpNet>,
                              oversized: seq<IpNet>, passes: nat, converged: bool)

  function ReportOn<G>(budget: Budget, e: End<G>): Report<G> {
    var s := e.work.state;
    Report(s.graph, s.interrogated, s.coverage, s.scopes, TooLarge(budget, s.scopes), e.passes, e.converged)
  }

  lemma {:induction false} SeedKeepsScopes<G>(env: Env<G>, w: Work<G>, n: nat)
    requires n <= |env.seed|
    ensures SeedOn(env, w, n).state.scopes == w.state.scopes
  {
    if n > 0 {
      SeedKeepsScopes(env, w, n - 1);
    }
  }

  lemma {:induction false} PollKeepsScopes<G>(env: Env<G>, w: Work<G>, n: nat, finishing: bool)
    requires n <= |w.feeds|
    ensures PolledUpTo(env, w, n, finishing).state.scopes == w.state.scopes
    ensures PolledUpTo(env, w, n, finishing).state.interrogated == w.state.interrogated
  {
    if n > 0 {
      PollKeepsScopes(env, w, n - 1, finishing);
    }
  }

  /** `DiscoveryEngine::run`: the report of the run `RunOn` specifies. */
  method Run<G>(env: Env<G>, budget: Budget, initial: Option<IpNet>, sources: nat) returns (report: Report<G>)
    ensures report == ReportOn(budget, RunOn(env, budget, initial, sources))
  {
    var w := Begin(env, initial, sources);
    ghost var end := LoopOn(env, budget, w, 0);
    var oversized: seq<IpNet> := [];
    var converged, pass := false, 0;
    StartsUnswept(env, initial, sources);
    while pass < budget.maxIterations
      invariant oversized == TooLarge(budget, w.state.scopes)
      invariant LoopOn(env, budget, w, pass) == end && !converged
      decreases budget.maxIterations - pass
    {
      w, pass, oversized, converged := Pass(env, budget, w, pass, oversized);
      if converged {
        break;
      }
    }
    if !w.finished {
      PollKeepsScopes(env, w, |w.feeds|, true);
      w := PollAll(env, w, true);
    }
    report := Report(w.state.graph, w.state.interrogated, w.state.coverage, w.state.scopes, oversized, pass, converged);
  }

  lemma StartsUnswept<G>(env: Env<G>, initial: Option<IpNet>, sources: nat)
    ensures BeginOn(env, initial, sources).state.scopes == []
  {
    SeedKeepsScopes(env, Blank(env, sources), |env.seed|);
  }

  method Survey<G>(env: Env<G>, w: Work<G>) returns (r: Work<G>, pending: seq<IpNet>)
    ensures (r, pending) == SurveyOn(env, w) && r.state.scopes == w.state.scopes
  {
    PollKeepsScopes(env, w, |w.feeds|, false);
    r := PollAll(env, w, false);
    pending := TakePending(r.queue, env.localNetworks(r.state.graph), r.state.scopes);
    r := Merge(env, r.(queue := []));
  }

  method Advance<G>(env: Env<G>, budget: Budget, w: Work<G>, pending: seq<IpNet>, pass: nat, large: seq<IpNet>)
    returns (r: Work<G>, oversized: seq<IpNet>)
    requires large == TooLarge(budget, w.state.scopes)
    ensures r == AdvanceOn(env, budget, w, pending, pass) && oversized == TooLarge(budget, r.state.scopes)
  {
    r := Merge(env, w);
    r := Interrogate(env, r, pass);
    r, oversized := ProcessScopes(env, budget, r, pending, pass, large);
  }

  /** Stops observing, takes everything still buffered, and only then decides. */
  method FinalDrain<G>(env: Env<G>, w: Work<G>) returns (r: Work<G>, gained: bool)
    ensures r == PollAllOn(env, w, true) && gained == Gained(env, w.state.graph, r.state)
    ensures r.state.scopes == w.state.scopes && r.finished
  {
    PollKeepsScopes(env, w, |w.feeds|, true);
    r := PollAll(env, w, true);
    var devices := QueueFromGraph(env.devices(r.state.graph), r.state.interrogated);
    var networks, pivots := env.networks(r.state.graph), env.pivotAddresses(r.state.graph);
    gained := !(networks <= env.networks(w.state.graph)) || !(pivots <= env.pivotAddresses(w.state.graph)) || devices != [];
  }

  /** One iteration of the loop: either it decides the run is over, or the loop goes on from what it leaves. */
  method Pass<G>(env: Env<G>, budget: Budget, w: Work<G>, pass: nat, large: seq<IpNet>)
    returns (r: Work<G>, next: nat, oversized: seq<IpNet>, converged: bool)
    requires pass < budget.maxIterations && large == TooLarge(budget, w.state.scopes)
    ensures next == pass + 1 && oversized == TooLarge(budget, r.state.scopes)
    ensures var end := LoopOn(env, budget, w, pass);
            if converged then end.work == r && end.passes == next && end.converged && r.finished
            else end == LoopOn(env, budget, r, next)
  {
    next, oversized, converged := pass + 1, large, false;
    var pending;
    r, pending := Survey(env, w);
    var outstanding := QueueFromGraph(env.devices(r.state.graph), r.state.interrogated);
    if pending != [] || outstanding != [] {
      r, oversized := Advance(env, budget, r, pending, pass, oversized);
      return;
    }
    if !r.finished {
      var gained;
      r, gained := FinalDrain(env, r);
      if gained {
        return;
      }
    }
    converged := true;
  }
}
