/**
 * What a discovery run reports, told without the functions that compute it
 * (src/engine/orchestrator.rs:192-513): the graph knows exactly what was seeded, answered,
 * swept and delivered, the coverage list accounts for every device asked, and a run ends
 * exactly when there is nothing left to do.
 */
module Reports {
  import opened Outcomes
  import opened Aliases
  import opened Interrogation
  import opened Buffers
  import opened Engine
  import opened Discovery

  // ----- what the graph was told

  /** One thing done to the graph. */
  datatype Deed = Learn(evidence: Evidence) | Fold

  function Learned(evidence: seq<Evidence>): (r: seq<Deed>)
    ensures |r| == |evidence| && forall x :: Learn(x) in r <==> x in evidence
    ensures Fold !in r
  {
    var r := seq(|evidence|, i requires 0 <= i < |evidence| => Learn(evidence[i]));
    assert forall i :: 0 <= i < |evidence| ==> r[i] == Learn(evidence[i]);
    r
  }

  /** What an event means for the graph. */
  function Deeds<G>(env: Env<G>, e: Event): seq<Deed> {
    match e
    case Seeded(k) => if k < |env.seed| then Learned(env.seed[k]) else []
    case Took(_, _, evidence, _) => Learned(evidence)
    case Merged(_) => [Fold]
    case Asked(pass, targets) => Learned(env.enrich(pass, targets).0)
    case Swept(pass, scope) => Learned(Flat(env.scan(pass, scope)))
  }

  function Story<G>(env: Env<G>, log: seq<Event>): seq<Deed> {
    if log == [] then [] else Story(env, log[..|log| - 1]) + Deeds(env, log[|log| - 1])
  }

  /** Anything that follows a graph: what evidence does to it, and what folding identities does to it. */
  datatype View<!G, !T> = View(see: G -> T, learn: (T, Evidence) -> T, fold: T -> T)

  function Performed<G, T>(view: View<G, T>, start: T, deeds: seq<Deed>): T {
    if deeds == [] then start
    else
      var before := Performed(view, start, deeds[..|deeds| - 1]);
      match deeds[|deeds| - 1]
      case Learn(x) => view.learn(before, x)
      case Fold => view.fold(before)
  }

  ghost predicate Follows<G(!new), T(!new)>(env: Env<G>, view: View<G, T>) {
    && (forall g, x :: view.see(env.absorb(g, x)) == view.learn(view.see(g), x))
    && (forall g :: view.see(env.merge(g).0) == view.fold(view.see(g)))
  }

  lemma {:induction false} PerformedMore<G, T>(view: View<G, T>, start: T, a: seq<Deed>, b: seq<Deed>)
    ensures Performed(view, Performed(view, start, a), b) == Performed(view, start, a + b)
  {
    if b == [] {
      assert a + b == a;
    } else {
      PerformedMore(view, start, a, b[..|b| - 1]);
      assert (a + b)[..|a + b| - 1] == a + b[..|b| - 1];
    }
  }

  lemma {:induction false} AbsorbedIsLearned<G(!new), T(!new)>(env: Env<G>, view: View<G, T>, g: G, evidence: seq<Evidence>)
    requires Follows(env, view)
    ensures view.see(AbsorbAll(env, g, evidence)) == Performed(view, view.see(g), Learned(evidence))
  {
    if evidence != [] {
      var init := evidence[..|evidence| - 1];
      AbsorbedIsLearned(env, view, g, init);
      assert Learned(evidence)[..|evidence| - 1] == Learned(init);
    }
  }

  lemma FoldedOnce<G, T>(view: View<G, T>, start: T)
    ensures Performed(view, start, [Fold]) == view.fold(start)
  {
    assert [Fold][..0] == [];
    assert Performed(view, start, []) == start;
  }

  lemma DoIsItsDeeds<G(!new), T(!new)>(env: Env<G>, view: View<G, T>, s: State<G>, e: Event)
    requires Follows(env, view)
    ensures view.see(Do(env, s, e).graph) == Performed(view, view.see(s.graph), Deeds(env, e))
  {
    match e
    case Seeded(k) =>
      if k < |env.seed| {
        AbsorbedIsLearned(env, view, s.graph, env.seed[k]);
      }
    case Took(_, _, evidence, _) => AbsorbedIsLearned(env, view, s.graph, evidence);
    case Merged(_) => FoldedOnce(view, view.see(s.graph));
    case Asked(pass, targets) => AbsorbedIsLearned(env, view, s.graph, env.enrich(pass, targets).0);
    case Swept(pass, scope) => AbsorbedIsLearned(env, view, s.graph, Flat(env.scan(pass, scope)));
  }

  lemma {:induction false} ReplayIsItsStory<G(!new), T(!new)>(env: Env<G>, view: View<G, T>, log: seq<Event>)
    requires Follows(env, view)
    ensures view.see(Replay(env, log).graph) == Performed(view, view.see(env.empty), Story(env, log))
  {
    if log != [] {
      var init, e := log[..|log| - 1], log[|log| - 1];
      ReplayIsItsStory(env, view, init);
      DoIsItsDeeds(env, view, Replay(env, init), e);
      PerformedMore(view, view.see(env.empty), Story(env, init), Deeds(env, e));
    }
  }

  /**
   * The reported graph, seen through anything that follows a graph, is the empty one told the
   * seeds, takes, answers and sweeps of the log, in that order and each once, and folded
   * wherever the log says so. (The graph itself is one such view.)
   */
  lemma GraphIsItsStory<G(!new), T(!new)>(env: Env<G>, view: View<G, T>, budget: Budget, initial: Option<IpNet>, sources: nat)
    requires Follows(env, view)
    ensures var w := RunOn(env, budget, initial, sources).work;
            view.see(w.state.graph) == Performed(view, view.see(env.empty), Story(env, w.log))
  {
    var w := RunReplays(env, budget, initial, sources);
    ReplayIsItsStory(env, view, w.log);
  }

  // ----- the shape of a log

  /** Seeds first, each provider once and in order; only known sources; questions only of a graph just folded. */
  ghost predicate Shaped<G>(env: Env<G>, sources: nat, log: seq<Event>) {
    && |env.seed| <= |log|
    && (forall k :: 0 <= k < |log| ==> if k < |env.seed| then log[k] == Seeded(k) else !log[k].Seeded?)
    && (forall k :: 0 <= k < |log| && log[k].Took? ==> log[k].source < sources)
    && (forall k :: 0 <= k < |log| && log[k].Asked? ==> k > 0 && log[k - 1].Merged?)
  }

  lemma OneMore<G>(env: Env<G>, sources: nat, log: seq<Event>, e: Event)
    requires Shaped(env, sources, log) && !e.Seeded? && (e.Took? ==> e.source < sources)
    requires e.Asked? ==> log != [] && log[|log| - 1].Merged?
    ensures Shaped(env, sources, log + [e])
  {
  }

  lemma {:induction false} SeedsInOrder<G>(env: Env<G>, w: Work<G>, n: nat)
    requires n <= |env.seed| && w.log == []
    ensures var log := SeedOn(env, w, n).log;
            |log| == n && forall k :: 0 <= k < n ==> log[k] == Seeded(k)
  {
    if n > 0 {
      SeedsInOrder(env, w, n - 1);
    }
  }

  lemma PolledShaped<G(!new)>(env: Env<G>, sources: nat, w: Work<G>, finishing: bool)
    requires Shaped(env, sources, w.log) && |w.feeds| == sources
    ensures Shaped(env, sources, PollAllOn(env, w, finishing).log)
  {
    var inv := (v: Work<G>, i: nat) => Shaped(env, sources, v.log) && |v.feeds| == sources;
    forall v: Work<G>, i: nat | i < |v.feeds| && inv(v, i) ensures inv(PollOn(env, v, i, finishing), i + 1) {
      OneMore(env, sources, v.log, Took(i, v.polls, OfferAll(v.feeds[i], env.arrivals(v.polls, i)).pending, finishing));
    }
    RoundKeeps(env, w, |w.feeds|, finishing, inv);
  }

  lemma {:induction false} SweptShaped<G>(env: Env<G>, sources: nat, budget: Budget, w: Work<G>, pending: seq<IpNet>, i: nat, pass: nat)
    requires i <= |pending| && Shaped(env, sources, w.log)
    ensures Shaped(env, sources, SweepFrom(env, budget, w, pending, i, pass).log)
    decreases |pending| - i
  {
    if i < |pending| && |w.state.scopes| < budget.maxScopes {
      OneMore(env, sources, w.log, Swept(pass, pending[i]));
      SweptShaped(env, sources, budget, Done(env, w, Swept(pass, pending[i])), pending, i + 1, pass);
    }
  }

  lemma AdvanceShaped<G>(env: Env<G>, sources: nat, budget: Budget, s: Work<G>, pending: seq<IpNet>, pass: nat)
    requires Shaped(env, sources, s.log)
    ensures Shaped(env, sources, AdvanceOn(env, budget, s, pending, pass).log)
  {
    OneMore(env, sources, s.log, Merged(env.merge(s.state.graph).1));
    var merged := MergeOn(env, s);
    OneMore(env, sources, merged.log, Asked(pass, Outstanding(env, merged.state)));
    SweptShaped(env, sources, budget, AskOn(env, merged, pass), pending, 0, pass);
  }

  lemma TurnShaped<G(!new)>(env: Env<G>, sources: nat, budget: Budget, w: Work<G>, pass: nat)
    requires Shaped(env, sources, w.log) && |w.feeds| == sources
    ensures Shaped(env, sources, WorkOf(TurnOn(env, budget, w, pass)).log)
  {
    var (s, pending) := SurveyOn(env, w);
    var polled := PollAllOn(env, w, false);
    PolledShaped(env, sources, w, false);
    OneMore(env, sources, polled.log, Merged(env.merge(polled.state.graph).1));
    if pending != [] || Outstanding(env, s.state) != [] {
      AdvanceShaped(env, sources, budget, s, pending, pass);
    } else {
      PolledShaped(env, sources, s, true);
    }
  }

  /**
   * Every run seeds from each provider once, in order and before anything else, and asks
   * devices only right after folding identities, so never twice under names it could have
   * known to be one.
   */
  lemma RunIsShaped<G(!new)>(env: Env<G>, budget: Budget, initial: Option<IpNet>, sources: nat)
    ensures Shaped(env, sources, RunOn(env, budget, initial, sources).work.log)
  {
    var w := BeginOn(env, initial, sources);
    SeedsInOrder(env, Blank(env, sources), |env.seed|);
    BeginSources(env, initial, sources);
    var turn := (v: Work<G>, n: nat) => TurnOn(env, budget, v, n);
    var inv := (v: Work<G>) => Shaped(env, sources, v.log) && |v.feeds| == sources;
    forall v, n | inv(v) ensures inv(WorkOf(turn(v, n))) {
      TurnShaped(env, sources, budget, v, n);
      TurnKeepsFeeds(env, budget, v, n);
    }
    var last, p := LoopEnds(turn, budget.maxIterations, w, 0, inv);
    PolledShaped(env, sources, LoopOn(env, budget, w, 0).work, true);
  }

  // ----- what the graph knows

  predicate Contains(batches: seq<seq<Evidence>>, x: Evidence) {
    exists j :: 0 <= j < |batches| && x in batches[j]
  }

  lemma {:induction false} FlatMembers(batches: seq<seq<Evidence>>, x: Evidence)
    ensures x in Flat(batches) <==> Contains(batches, x)
  {
    if batches != [] {
      FlatMembers(batches[..|batches| - 1], x);
    }
  }

  ghost predicate Tells<G>(env: Env<G>, e: Event, d: Deed) {
    d in Deeds(env, e)
  }

  ghost predicate Happened<G>(env: Env<G>, log: seq<Event>, d: Deed) {
    exists i :: 0 <= i < |log| && Tells(env, log[i], d)
  }

  lemma HappenedNext<G>(env: Env<G>, log: seq<Event>, e: Event, d: Deed)
    ensures Happened(env, log + [e], d) <==> Happened(env, log, d) || Tells(env, e, d)
  {
    var after := log + [e];
    if Happened(env, log, d) {
      var i :| 0 <= i < |log| && Tells(env, log[i], d);
      assert after[i] == log[i];
    }
    assert after[|log|] == e;
  }

  lemma StoryNext<G>(env: Env<G>, log: seq<Event>, e: Event)
    ensures Story(env, log + [e]) == Story(env, log) + Deeds(env, e)
  {
    assert (log + [e])[..|log|] == log;
  }

  lemma {:induction false} StoryMembers<G>(env: Env<G>, log: seq<Event>, d: Deed)
    ensures d in Story(env, log) <==> Happened(env, log, d)
  {
    if log != [] {
      var init, e := log[..|log| - 1], log[|log| - 1];
      StoryMembers(env, init, d);
      HappenedNext(env, init, e, d);
      StoryNext(env, init, e);
      assert log == init + [e];
    }
  }

  predicate Brings(e: Event, source: nat, x: Evidence) {
    e.Took? && e.source == source && x in e.evidence
  }

  predicate Brought(log: seq<Event>, source: nat, x: Evidence) {
    exists i :: 0 <= i < |log| && Brings(log[i], source, x)
  }

  lemma BroughtNext(log: seq<Event>, e: Event, source: nat, x: Evidence)
    ensures Brought(log + [e], source, x) <==> Brought(log, source, x) || Brings(e, source, x)
  {
    var after := log + [e];
    if Brought(log, source, x) {
      var i :| 0 <= i < |log| && Brings(log[i], source, x);
      assert after[i] == log[i];
    }
    assert after[|log|] == e;
  }

  lemma {:induction false} TakesMembers(log: seq<Event>, source: nat, x: Evidence)
    ensures x in Takes(log, source) <==> Brought(log, source, x)
  {
    if log != [] {
      var init, e := log[..|log| - 1], log[|log| - 1];
      TakesMembers(init, source, x);
      BroughtNext(init, e, source, x);
      assert log == init + [e];
    }
  }

  lemma {:induction false} ArrivedMembers<G>(env: Env<G>, source: nat, n: nat, x: Evidence)
    ensures x in Arrived(env, source, n) <==> exists p :: 0 <= p < n && Contains(env.arrivals(p, source), x)
  {
    if n > 0 {
      ArrivedMembers(env, source, n - 1, x);
      FlatMembers(env.arrivals(n - 1, source), x);
    }
  }

  /** What a graph knows, if evidence only adds to it and folding identities loses nothing. */
  function Knowledge<G>(see: G -> set<Evidence>): View<G, set<Evidence>> {
    View(see, (known: set<Evidence>, x: Evidence) => known + {x}, (known: set<Evidence>) => known)
  }

  lemma {:induction false} KnownIsLearned<G>(see: G -> set<Evidence>, start: set<Evidence>, deeds: seq<Deed>, x: Evidence)
    ensures x in Performed(Knowledge(see), start, deeds) <==> x in start || Learn(x) in deeds
  {
    if deeds != [] {
      KnownIsLearned(see, start, deeds[..|deeds| - 1], x);
    }
  }

  /** The four ways evidence reaches a run. */
  ghost predicate Answered<G>(env: Env<G>, log: seq<Event>, x: Evidence) {
    exists i :: 0 <= i < |log| && log[i].Asked? && x in env.enrich(log[i].pass, log[i].targets).0
  }

  ghost predicate Scanned<G>(env: Env<G>, log: seq<Event>, x: Evidence) {
    exists i :: 0 <= i < |log| && log[i].Swept? && Contains(env.scan(log[i].pass, log[i].scope), x)
  }

  ghost predicate Delivered<G>(env: Env<G>, log: seq<Event>, source: nat, x: Evidence) {
    exists p :: 0 <= p <= FinishedAt(log, source) && Contains(env.arrivals(p, source), x)
  }

  ghost predicate Gathered<G>(env: Env<G>, log: seq<Event>, sources: nat, x: Evidence) {
    || Contains(env.seed, x) || Answered(env, log, x) || Scanned(env, log, x)
    || exists source :: 0 <= source < sources && Delivered(env, log, source, x)
  }

  predicate TakenAsArrived<G>(env: Env<G>, log: seq<Event>, source: nat) {
    Takes(log, source) == Arrived(env, source, FinishedAt(log, source) + 1)
  }

  lemma ToldIsGathered<G>(env: Env<G>, log: seq<Event>, sources: nat, i: nat, x: Evidence)
    requires Shaped(env, sources, log) && i < |log| && Learn(x) in Deeds(env, log[i])
    requires forall s: nat :: s < sources ==> TakenAsArrived(env, log, s)
    ensures Gathered(env, log, sources, x)
  {
    match log[i]
    case Seeded(k) =>
    case Took(source, _, _, _) =>
      assert TakenAsArrived(env, log, source);
      assert Brings(log[i], source, x);
      TakesMembers(log, source, x);
      ArrivedMembers(env, source, FinishedAt(log, source) + 1, x);
      assert Delivered(env, log, source, x);
    case Merged(_) =>
    case Asked(_, _) => assert Answered(env, log, x);
    case Swept(pass, scope) =>
      FlatMembers(env.scan(pass, scope), x);
      assert Scanned(env, log, x);
  }

  lemma GatheredIsTold<G>(env: Env<G>, log: seq<Event>, sources: nat, x: Evidence) returns (i: nat)
    requires Shaped(env, sources, log) && Gathered(env, log, sources, x)
    requires forall s: nat :: s < sources ==> TakenAsArrived(env, log, s)
    ensures i < |log| && Learn(x) in Deeds(env, log[i])
  {
    if Contains(env.seed, x) {
      i :| 0 <= i < |env.seed| && x in env.seed[i];
      assert log[i] == Seeded(i);
    } else if Answered(env, log, x) {
      i :| 0 <= i < |log| && log[i].Asked? && x in env.enrich(log[i].pass, log[i].targets).0;
    } else if Scanned(env, log, x) {
      i :| 0 <= i < |log| && log[i].Swept? && Contains(env.scan(log[i].pass, log[i].scope), x);
      FlatMembers(env.scan(log[i].pass, log[i].scope), x);
    } else {
      var source: nat :| source < sources && Delivered(env, log, source, x);
      assert TakenAsArrived(env, log, source);
      ArrivedMembers(env, source, FinishedAt(log, source) + 1, x);
      TakesMembers(log, source, x);
      i :| 0 <= i < |log| && Brings(log[i], source, x);
    }
  }

  /**
   * The reported graph knows what the empty graph knew, and besides exactly what some seed
   * provider produced, what the devices asked answered, what a sweep produced, and what
   * reached a source by its finish. Nothing that was learned is dropped, on any way through
   * the run, and nothing is made up.
   */
  lemma GraphKnowsExactly<G(!new)>(env: Env<G>, see: G -> set<Evidence>, budget: Budget, initial: Option<IpNet>, sources: nat, x: Evidence)
    requires forall g, e :: see(env.absorb(g, e)) == see(g) + {e}
    requires forall g :: see(env.merge(g).0) == see(g)
    ensures var w := RunOn(env, budget, initial, sources).work;
            x in see(w.state.graph) <==> x in see(env.empty) || Gathered(env, w.log, sources, x)
  {
    var w := RunLog(env, budget, initial, sources);
    ReplayKnowsExactly(env, see, w.log, sources, x);
  }

  lemma RunLog<G(!new)>(env: Env<G>, budget: Budget, initial: Option<IpNet>, sources: nat) returns (w: Work<G>)
    ensures w == RunOn(env, budget, initial, sources).work
    ensures w.state.graph == Replay(env, w.log).graph && Shaped(env, sources, w.log)
    ensures forall s: nat :: s < sources ==> TakenAsArrived(env, w.log, s)
  {
    w := RunReplays(env, budget, initial, sources);
    RunIsShaped(env, budget, initial, sources);
    var v := RunSources(env, budget, initial, sources);
    AllTaken(env, v);
  }

  lemma RunReplays<G(!new)>(env: Env<G>, budget: Budget, initial: Option<IpNet>, sources: nat) returns (w: Work<G>)
    ensures w == RunOn(env, budget, initial, sources).work && w.state == Replay(env, w.log)
  {
    w := RunOn(env, budget, initial, sources).work;
    RunIsItsLog(env, budget, initial, sources);
  }

  lemma AllTaken<G>(env: Env<G>, w: Work<G>)
    requires SourcesHold(env, w) && w.finished
    ensures forall s: nat :: s < |w.feeds| ==> TakenAsArrived(env, w.log, s)
  {
    forall s: nat | s < |w.feeds| ensures TakenAsArrived(env, w.log, s) {
      FinishedSource(env, w, s);
    }
  }

  lemma ReplayKnowsExactly<G(!new)>(env: Env<G>, see: G -> set<Evidence>, log: seq<Event>, sources: nat, x: Evidence)
    requires forall g, e :: see(env.absorb(g, e)) == see(g) + {e}
    requires forall g :: see(env.merge(g).0) == see(g)
    requires Shaped(env, sources, log) && forall s: nat :: s < sources ==> TakenAsArrived(env, log, s)
    ensures x in see(Replay(env, log).graph) <==> x in see(env.empty) || Gathered(env, log, sources, x)
  {
    KnowledgeFollows(env, see);
    ReplayIsItsStory(env, Knowledge(see), log);
    KnownIsLearned(see, see(env.empty), Story(env, log), x);
    StoryMembers(env, log, Learn(x));
    HappenedIsGathered(env, log, sources, x);
  }

  lemma KnowledgeFollows<G(!new)>(env: Env<G>, see: G -> set<Evidence>)
    requires forall g, e :: see(env.absorb(g, e)) == see(g) + {e}
    requires forall g :: see(env.merge(g).0) == see(g)
    ensures Follows(env, Knowledge(see))
  {
  }

  lemma HappenedIsGathered<G>(env: Env<G>, log: seq<Event>, sources: nat, x: Evidence)
    requires Shaped(env, sources, log) && forall s: nat :: s < sources ==> TakenAsArrived(env, log, s)
    ensures Happened(env, log, Learn(x)) <==> Gathered(env, log, sources, x)
  {
    if Happened(env, log, Learn(x)) {
      var i :| 0 <= i < |log| && Tells(env, log[i], Learn(x));
      ToldIsGathered(env, log, sources, i, x);
    }
    if Gathered(env, log, sources, x) {
      var i := GatheredIsTold(env, log, sources, x);
      assert Tells(env, log[i], Learn(x));
    }
  }

  // ----- the coverage list

  ghost predicate Recorded<G>(env: Env<G>, log: seq<Event>, i: int, c: Coverage) {
    0 <= i < |log| && log[i].Asked? && c in env.enrich(log[i].pass, log[i].targets).1
  }

  /** Every record a question produced is there, or one as good, under its device's present name; and no others. */
  ghost predicate Accounts<G>(env: Env<G>, log: seq<Event>, coverage: seq<Coverage>) {
    && (forall i, c :: Recorded(env, log, i, c) ==> Bettered(c.(device := NameAt(log, i, |log|, c.device)), coverage))
    && (forall r :: r in coverage ==>
          exists i, c :: Recorded(env, log, i, c) && r == c.(device := NameAt(log, i, |log|, c.device)))
  }

  lemma OtherAccounts<G>(env: Env<G>, log: seq<Event>, e: Event, coverage: seq<Coverage>)
    requires Accounts(env, log, coverage) && !e.Merged? && !e.Asked?
    ensures Accounts(env, log + [e], coverage)
  {
    var after := log + [e];
    OneMoreEvent(log, e);
    forall i, c | Recorded(env, after, i, c)
      ensures Bettered(c.(device := NameAt(after, i, |after|, c.device)), coverage)
    {
      assert Recorded(env, log, i, c);
    }
    forall r | r in coverage
      ensures exists i, c :: Recorded(env, after, i, c) && r == c.(device := NameAt(after, i, |after|, c.device))
    {
      var i, c :| Recorded(env, log, i, c) && r == c.(device := NameAt(log, i, |log|, c.device));
      assert Recorded(env, after, i, c);
    }
  }

  lemma AskAccounts<G>(env: Env<G>, log: seq<Event>, pass: nat, targets: seq<Target>, coverage: seq<Coverage>)
    requires Accounts(env, log, coverage)
    ensures Accounts(env, log + [Asked(pass, targets)], coverage + env.enrich(pass, targets).1)
  {
    var e := Asked(pass, targets);
    var after, all := log + [e], coverage + env.enrich(pass, targets).1;
    OneMoreEvent(log, e);
    forall d ensures NameAt(after, |log|, |after|, d) == d {
      assert after[|log| + 1..|after|] == [];
    }
    forall i, c | Recorded(env, after, i, c)
      ensures Bettered(c.(device := NameAt(after, i, |after|, c.device)), all)
    {
      if i < |log| {
        assert Recorded(env, log, i, c);
        MoreBetters(c.(device := NameAt(log, i, |log|, c.device)), coverage, env.enrich(pass, targets).1);
      } else {
        InBetters(c, all);
      }
    }
    forall r | r in all
      ensures exists i, c :: Recorded(env, after, i, c) && r == c.(device := NameAt(after, i, |after|, c.device))
    {
      if r in coverage {
        var i, c :| Recorded(env, log, i, c) && r == c.(device := NameAt(log, i, |log|, c.device));
        assert Recorded(env, after, i, c);
      } else {
        assert Recorded(env, after, |log|, r);
      }
    }
  }

  lemma InBetters(c: Coverage, all: seq<Coverage>)
    requires c in all
    ensures Bettered(c, all)
  {
  }

  lemma MoreBetters(c: Coverage, coverage: seq<Coverage>, more: seq<Coverage>)
    requires Bettered(c, coverage)
    ensures Bettered(c, coverage + more)
  {
    var i :| 0 <= i < |coverage| && coverage[i].device == c.device && c.tcpAttempted <= coverage[i].tcpAttempted;
    assert (coverage + more)[i] == coverage[i];
  }

  lemma MergeAccounts<G>(env: Env<G>, log: seq<Event>, aliases: seq<Alias>, coverage: seq<Coverage>)
    requires Accounts(env, log, coverage)
    ensures Accounts(env, log + [Merged(aliases)], Tidied(aliases, coverage))
  {
    var after, tidy := log + [Merged(aliases)], Tidied(aliases, coverage);
    OneMoreEvent(log, Merged(aliases));
    forall i, c | Recorded(env, after, i, c)
      ensures Bettered(c.(device := NameAt(after, i, |after|, c.device)), tidy)
    {
      assert Recorded(env, log, i, c);
      RenamedBetters(c.(device := NameAt(log, i, |log|, c.device)), aliases, coverage);
    }
    forall r | r in tidy
      ensures exists i, c :: Recorded(env, after, i, c) && r == c.(device := NameAt(after, i, |after|, c.device))
    {
      var k := RenamedFrom(r, aliases, coverage);
      var i, c :| Recorded(env, log, i, c) && k == c.(device := NameAt(log, i, |log|, c.device));
      assert Recorded(env, after, i, c);
    }
  }

  lemma {:induction false} ReplayAccounts<G(!new)>(env: Env<G>, log: seq<Event>)
    ensures Accounts(env, log, Replay(env, log).coverage)
  {
    if log != [] {
      var init, e := log[..|log| - 1], log[|log| - 1];
      ReplayAccounts(env, init);
      assert log == init + [e];
      if e.Merged? {
        MergeAccounts(env, init, e.aliases, Replay(env, init).coverage);
      } else if e.Asked? {
        AskAccounts(env, init, e.pass, e.targets, Replay(env, init).coverage);
      } else {
        OtherAccounts(env, init, e, Replay(env, init).coverage);
      }
    }
  }

  /**
   * The reported coverage accounts for every record any question of the run produced, under
   * the name its device has at the end and with at least its TCP attempts; and every record
   * in it is one of those, changed in nothing but the name.
   */
  lemma CoverageAccountsForEveryQuestion<G(!new)>(env: Env<G>, budget: Budget, initial: Option<IpNet>, sources: nat)
    ensures var w := RunOn(env, budget, initial, sources).work;
            Accounts(env, w.log, w.state.coverage)
  {
    var w := RunReplays(env, budget, initial, sources);
    ReplayAccounts(env, w.log);
  }

  // ----- scopes and hosts

  /**
   * A prefix one bit shorter is two of the longer, with the two addresses between them that
   * were no hosts. The two longest prefixes have none; what cannot be counted is beyond any budget.
   */
  lemma HostsDouble(address: nat, length: nat)
    ensures 0 < length < 31 ==> HostCount(V4(address, length)) == 2 * HostCount(V4(address, length + 1)) + 2
    ensures 31 <= length <= 32 ==> HostCount(V4(address, length)) == 0
    ensures HostCount(V4(address, 0)) == HostCount(V6(address, length)) == 0xFFFF_FFFF_FFFF_FFFF
  {
  }

  lemma {:induction false} TooLargeIs(budget: Budget, scopes: seq<IpNet>)
    ensures forall n :: n in TooLarge(budget, scopes) <==> n in scopes && HostCount(n) > budget.maxEnumerableHosts
  {
    if scopes != [] {
      TooLargeIs(budget, scopes[..|scopes| - 1]);
      assert scopes == scopes[..|scopes| - 1] + [scopes[|scopes| - 1]];
    }
  }

  predicate Sweeps(e: Event, n: IpNet) {
    e.Swept? && e.scope == n
  }

  predicate WasSwept(log: seq<Event>, n: IpNet) {
    exists i :: 0 <= i < |log| && Sweeps(log[i], n)
  }

  lemma SweptNext(log: seq<Event>, e: Event, n: IpNet)
    ensures WasSwept(log + [e], n) <==> WasSwept(log, n) || Sweeps(e, n)
  {
    var after := log + [e];
    if WasSwept(log, n) {
      var i :| 0 <= i < |log| && Sweeps(log[i], n);
      assert after[i] == log[i];
    }
    assert after[|log|] == e;
  }

  lemma {:induction false} ScopesAreSwept<G(!new)>(env: Env<G>, log: seq<Event>, n: IpNet)
    ensures n in Replay(env, log).scopes <==> WasSwept(log, n)
  {
    if log != [] {
      var init, e := log[..|log| - 1], log[|log| - 1];
      ScopesAreSwept(env, init, n);
      SweptNext(init, e, n);
      assert log == init + [e];
    }
  }

  /** The reported scopes are exactly those swept, and the oversized ones exactly those with more hosts than the budget enumerates. */
  lemma ReportNamesWhatWasSwept<G(!new)>(env: Env<G>, budget: Budget, initial: Option<IpNet>, sources: nat, n: IpNet)
    ensures var e := RunOn(env, budget, initial, sources);
            var report := ReportOn(budget, e);
            && (n in report.scopes <==> WasSwept(e.work.log, n))
            && (n in report.oversized <==> n in report.scopes && HostCount(n) > budget.maxEnumerableHosts)
  {
    var w := RunReplays(env, budget, initial, sources);
    ScopesAreSwept(env, w.log, n);
    TooLargeIs(budget, w.state.scopes);
  }

  // ----- when a run ends

  /** Everyone locally observed and reachable has been asked. */
  predicate AllAsked<G>(env: Env<G>, s: State<G>) {
    forall node :: node in env.devices(s.graph).nodes && node.locallyObserved && node.endpoints != [] ==> node.key in s.interrogated
  }

  lemma NobodyOutstanding<G>(env: Env<G>, s: State<G>)
    ensures Outstanding(env, s) == [] <==> AllAsked(env, s)
  {
    var d := env.devices(s.graph);
    UnsortedMembers(d, d.nodes, s.interrogated);
    ByTierMembers(Unsorted(d, d.nodes, s.interrogated));
    if Outstanding(env, s) != [] {
      assert Outstanding(env, s)[0] in Outstanding(env, s);
    }
    forall node | node in d.nodes && node.locallyObserved && node.endpoints != [] && node.key !in s.interrogated
      ensures Outstanding(env, s) != []
    {
      assert TargetOf(d, node) in Unsorted(d, d.nodes, s.interrogated);
    }
  }

  /** Nothing queued or observed by this machine is left to process. */
  ghost predicate AllProcessed<G>(env: Env<G>, w: Work<G>) {
    forall n :: n in w.queue || n in env.localNetworks(w.state.graph) ==> n in w.state.scopes
  }

  lemma NothingPending<G>(env: Env<G>, w: Work<G>)
    requires Distinct(w.queue)
    ensures PendingOn(env, w) == [] <==> AllProcessed(env, w)
  {
    PendingIs(env, w);
    var pending := PendingOn(env, w);
    assert pending != [] ==> pending[0] in pending;
  }

  /** Since then, no network, no pivot and nobody to ask has come up. */
  predicate NothingNew<G>(env: Env<G>, before: State<G>, after: State<G>) {
    && (forall n :: n in env.networks(after.graph) ==> n in env.networks(before.graph))
    && (forall a :: a in env.pivotAddresses(after.graph) ==> a in env.pivotAddresses(before.graph))
    && AllAsked(env, after)
  }

  lemma NotGained<G>(env: Env<G>, before: State<G>, after: State<G>)
    ensures !Gained(env, before.graph, after) <==> NothingNew(env, before, after)
  {
    NobodyOutstanding(env, after);
  }

  /**
   * A pass ends the run exactly when, after its poll, no queued or local network is
   * unprocessed; after its merge, nobody is left to ask; and the final drain, if it is still
   * to come, brings no network, no pivot and nobody to ask.
   */
  lemma PassEndsExactlyWhenNothingIsLeft<G(!new)>(env: Env<G>, budget: Budget, w: Work<G>, pass: nat)
    requires Distinct(w.queue)
    ensures var polled := PollAllOn(env, w, false);
            var s := MergeOn(env, polled.(queue := []));
            var drained := PollAllOn(env, s, true);
            TurnOn(env, budget, w, pass).Over? <==>
            AllProcessed(env, polled) && AllAsked(env, s.state) && (w.finished || NothingNew(env, s.state, drained.state))
  {
    var polled := PollAllOn(env, w, false);
    var s := MergeOn(env, polled.(queue := []));
    PollKeepsQueue(env, w, |w.feeds|, false);
    NothingPending(env, polled);
    NobodyOutstanding(env, s.state);
    NotGained(env, s.state, PollAllOn(env, s, true).state);
  }

  // ----- only networks of one's own are swept

  /** The operator's scope, or a network this machine had observed itself at some point of the log. */
  ghost predicate Own<G>(env: Env<G>, initial: Option<IpNet>, log: seq<Event>, n: IpNet) {
    initial == Some(n) || exists j :: 0 <= j <= |log| && LocalAt(env, log, j, n)
  }

  ghost predicate LocalAt<G>(env: Env<G>, log: seq<Event>, j: nat, n: IpNet)
    requires j <= |log|
  {
    n in env.localNetworks(Replay(env, log[..j]).graph)
  }

  /** Every sweep was of a network that was one's own before it. */
  ghost predicate SweepsOwn<G>(env: Env<G>, initial: Option<IpNet>, log: seq<Event>) {
    forall i :: 0 <= i < |log| && log[i].Swept? ==> Own(env, initial, log[..i], log[i].scope)
  }

  lemma OwnLater<G>(env: Env<G>, initial: Option<IpNet>, log: seq<Event>, later: seq<Event>, n: IpNet)
    requires Own(env, initial, log, n) && log <= later
    ensures Own(env, initial, later, n)
  {
    if initial != Some(n) {
      var j :| 0 <= j <= |log| && LocalAt(env, log, j, n);
      assert later[..j] == log[..j];
      assert LocalAt(env, later, j, n);
    }
  }

  lemma OwnNext<G>(env: Env<G>, initial: Option<IpNet>, log: seq<Event>, e: Event)
    requires SweepsOwn(env, initial, log) && (e.Swept? ==> Own(env, initial, log, e.scope))
    ensures SweepsOwn(env, initial, log + [e])
  {
    var after := log + [e];
    forall i | 0 <= i < |after| && after[i].Swept? ensures Own(env, initial, after[..i], after[i].scope) {
      if i < |log| {
        assert after[..i] == log[..i] && after[i] == log[i];
      } else {
        assert after[..i] == log;
      }
    }
  }

  /** What the loop carries besides: whatever is queued is the operator's. */
  ghost predicate Owning<G(!new)>(env: Env<G>, budget: Budget, initial: Option<IpNet>, w: Work<G>) {
    && Running(env, budget, w) && SweepsOwn(env, initial, w.log)
    && forall n :: n in w.queue ==> initial == Some(n)
  }

  lemma PolledOwn<G(!new)>(env: Env<G>, initial: Option<IpNet>, w: Work<G>, finishing: bool)
    requires SweepsOwn(env, initial, w.log)
    ensures SweepsOwn(env, initial, PollAllOn(env, w, finishing).log)
  {
    var inv := (v: Work<G>, i: nat) => SweepsOwn(env, initial, v.log);
    forall v: Work<G>, i: nat | i < |v.feeds| && inv(v, i) ensures inv(PollOn(env, v, i, finishing), i + 1) {
      OwnNext(env, initial, v.log, Took(i, v.polls, OfferAll(v.feeds[i], env.arrivals(v.polls, i)).pending, finishing));
    }
    RoundKeeps(env, w, |w.feeds|, finishing, inv);
  }

  lemma PendingIsOwn<G(!new)>(env: Env<G>, initial: Option<IpNet>, polled: Work<G>, n: IpNet)
    requires Kept(env, polled) && Distinct(polled.queue) && n in PendingOn(env, polled)
    requires forall q :: q in polled.queue ==> initial == Some(q)
    ensures Own(env, initial, polled.log, n)
  {
    PendingIs(env, polled);
    if n !in polled.queue {
      assert polled.log[..|polled.log|] == polled.log;
      assert LocalAt(env, polled.log, |polled.log|, n);
    }
  }

  lemma {:induction false} SweepOwn<G>(env: Env<G>, initial: Option<IpNet>, budget: Budget, w: Work<G>, pending: seq<IpNet>, i: nat, pass: nat)
    requires i <= |pending| && SweepsOwn(env, initial, w.log)
    requires forall n :: n in pending ==> Own(env, initial, w.log, n)
    ensures SweepsOwn(env, initial, SweepFrom(env, budget, w, pending, i, pass).log)
    decreases |pending| - i
  {
    if i < |pending| && |w.state.scopes| < budget.maxScopes {
      var next := Done(env, w, Swept(pass, pending[i]));
      OwnNext(env, initial, w.log, Swept(pass, pending[i]));
      AllOwnLater(env, initial, w.log, next.log, pending);
      SweepOwn(env, initial, budget, next, pending, i + 1, pass);
    }
  }

  lemma AllOwnLater<G>(env: Env<G>, initial: Option<IpNet>, log: seq<Event>, later: seq<Event>, nets: seq<IpNet>)
    requires log <= later && forall n :: n in nets ==> Own(env, initial, log, n)
    ensures forall n :: n in nets ==> Own(env, initial, later, n)
  {
    forall n | n in nets ensures Own(env, initial, later, n) {
      OwnLater(env, initial, log, later, n);
    }
  }

  lemma SurveyOwn<G(!new)>(env: Env<G>, budget: Budget, initial: Option<IpNet>, w: Work<G>)
    requires Owning(env, budget, initial, w)
    ensures var (s, pending) := SurveyOn(env, w);
            SweepsOwn(env, initial, s.log) && forall n :: n in pending ==> Own(env, initial, s.log, n)
  {
    var polled := PollAllOn(env, w, false);
    PolledOwn(env, initial, w, false);
    PollKept(env, w, |w.feeds|, false);
    PollKeepsQueue(env, w, |w.feeds|, false);
    forall n | n in PendingOn(env, polled) ensures Own(env, initial, polled.log, n) {
      PendingIsOwn(env, initial, polled, n);
    }
    var e := Merged(env.merge(polled.state.graph).1);
    OwnNext(env, initial, polled.log, e);
    AllOwnLater(env, initial, polled.log, polled.log + [e], PendingOn(env, polled));
  }

  lemma AdvanceOwn<G>(env: Env<G>, budget: Budget, initial: Option<IpNet>, s: Work<G>, pending: seq<IpNet>, pass: nat)
    requires SweepsOwn(env, initial, s.log) && forall n :: n in pending ==> Own(env, initial, s.log, n)
    ensures SweepsOwn(env, initial, AdvanceOn(env, budget, s, pending, pass).log)
    ensures AdvanceOn(env, budget, s, pending, pass).queue == s.queue
  {
    var merged := MergeOn(env, s);
    var asked := AskOn(env, merged, pass);
    OwnNext(env, initial, s.log, Merged(env.merge(s.state.graph).1));
    OwnNext(env, initial, merged.log, Asked(pass, Outstanding(env, merged.state)));
    AllOwnLater(env, initial, s.log, asked.log, pending);
    SweepOwn(env, initial, budget, asked, pending, 0, pass);
    SweepKeepsQueue(env, budget, asked, pending, 0, pass);
  }

  lemma TurnOwn<G(!new)>(env: Env<G>, budget: Budget, initial: Option<IpNet>, w: Work<G>, pass: nat)
    requires Owning(env, budget, initial, w)
    ensures Owning(env, budget, initial, WorkOf(TurnOn(env, budget, w, pass)))
  {
    var (s, pending) := SurveyOn(env, w);
    TurnRunning(env, budget, w, pass);
    SurveyOwn(env, budget, initial, w);
    if pending != [] || Outstanding(env, s.state) != [] {
      AdvanceOwn(env, budget, initial, s, pending, pass);
    } else {
      PolledOwn(env, initial, s, true);
      PollKeepsQueue(env, s, |s.feeds|, true);
    }
  }

  lemma {:induction false} SeedOwn<G>(env: Env<G>, initial: Option<IpNet>, w: Work<G>, n: nat)
    requires n <= |env.seed| && SweepsOwn(env, initial, w.log)
    ensures SweepsOwn(env, initial, SeedOn(env, w, n).log)
  {
    if n > 0 {
      SeedOwn(env, initial, w, n - 1);
      OwnNext(env, initial, SeedOn(env, w, n - 1).log, Seeded(n - 1));
    }
  }

  /**
   * Over every run, whatever peers report, each network swept was the operator's choice or one
   * this machine had observed itself before it was swept.
   */
  lemma OnlyOwnNetworksAreSwept<G(!new)>(env: Env<G>, budget: Budget, initial: Option<IpNet>, sources: nat)
    ensures SweepsOwn(env, initial, RunOn(env, budget, initial, sources).work.log)
  {
    var w := BeginOn(env, initial, sources);
    BeginRunning(env, budget, initial, sources);
    SeedOwn(env, initial, Blank(env, sources), |env.seed|);
    var turn := (v: Work<G>, n: nat) => TurnOn(env, budget, v, n);
    var inv := (v: Work<G>) => Owning(env, budget, initial, v);
    forall v, n | inv(v) ensures inv(WorkOf(turn(v, n))) {
      TurnOwn(env, budget, initial, v, n);
    }
    var last, p := LoopEnds(turn, budget.maxIterations, w, 0, inv);
    PolledOwn(env, initial, LoopOn(env, budget, w, 0).work, true);
  }
}
