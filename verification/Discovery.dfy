/**
 * What every discovery run keeps (src/engine/orchestrator.rs:192-471): its log is honest, and
 * from the log follow what was absorbed, who was asked, what was swept and what convergence
 * establishes.
 */
module Discovery {
  import opened Bytes
  import opened Outcomes
  import opened Aliases
  import opened Interrogation
  import opened Buffers
  import opened Engine

  /** Merging folds device nodes only; what is locally observed is a network; nodes are keyed. */
  ghost predicate Lawful<G(!new)>(env: Env<G>) {
    forall g: G ::
      && env.networks(env.merge(g).0) == env.networks(g)
      && env.localNetworks(env.merge(g).0) == env.localNetworks(g)
      && (forall n :: n in env.localNetworks(g) ==> n in env.networks(g))
      && DistinctNodes(env.devices(g).nodes)
  }

  // ----- the log is honest

  /** What the state at the time called for. */
  predicate Warranted<G>(env: Env<G>, s: State<G>, e: Event) {
    match e
    case Merged(aliases) => aliases == env.merge(s.graph).1
    case Asked(_, targets) => targets == Outstanding(env, s)
    case Swept(_, scope) => scope !in s.scopes
    case _ => true
  }

  ghost predicate Honest<G(!new)>(env: Env<G>, log: seq<Event>) {
    log == [] ||
    (Honest(env, log[..|log| - 1]) && Warranted(env, Replay(env, log[..|log| - 1]), log[|log| - 1]))
  }

  /** The state is what the log replays to, and everything in the log was called for. */
  ghost predicate Kept<G(!new)>(env: Env<G>, w: Work<G>) {
    w.state == Replay(env, w.log) && Honest(env, w.log)
  }

  lemma DoneKept<G(!new)>(env: Env<G>, w: Work<G>, e: Event)
    requires Kept(env, w) && Warranted(env, w.state, e)
    ensures Kept(env, Done(env, w, e))
  {
    assert (w.log + [e])[..|w.log|] == w.log;
  }

  lemma {:induction false} SeedKept<G(!new)>(env: Env<G>, w: Work<G>, n: nat)
    requires n <= |env.seed| && Kept(env, w)
    ensures Kept(env, SeedOn(env, w, n))
  {
    if n > 0 {
      SeedKept(env, w, n - 1);
      DoneKept(env, SeedOn(env, w, n - 1), Seeded(n - 1));
    }
  }

  lemma {:induction false} PollKept<G(!new)>(env: Env<G>, w: Work<G>, n: nat, finishing: bool)
    requires n <= |w.feeds| && Kept(env, w)
    ensures Kept(env, PolledUpTo(env, w, n, finishing))
  {
    if n > 0 {
      var v := PolledUpTo(env, w, n - 1, finishing);
      PollKept(env, w, n - 1, finishing);
      DoneKept(env, v, Took(n - 1, v.polls, OfferAll(v.feeds[n - 1], env.arrivals(v.polls, n - 1)).pending, finishing));
    }
  }

  lemma SurveyKept<G(!new)>(env: Env<G>, w: Work<G>)
    requires Kept(env, w)
    ensures Kept(env, SurveyOn(env, w).0)
  {
    var polled := PollAllOn(env, w, false);
    PollKept(env, w, |w.feeds|, false);
    DoneKept(env, polled.(queue := []), Merged(env.merge(polled.state.graph).1));
  }

  predicate Distinct<T(==)>(s: seq<T>) {
    forall x, y :: 0 <= x < y < |s| ==> s[x] != s[y]
  }

  lemma {:induction false} SweepKept<G(!new)>(env: Env<G>, budget: Budget, w: Work<G>, pending: seq<IpNet>, i: nat, pass: nat)
    requires i <= |pending| && Kept(env, w) && |w.state.scopes| <= budget.maxScopes
    requires Distinct(pending) && forall j :: i <= j < |pending| ==> pending[j] !in w.state.scopes
    ensures var r := SweepFrom(env, budget, w, pending, i, pass);
            Kept(env, r) && |r.state.scopes| <= budget.maxScopes
    decreases |pending| - i
  {
    if i < |pending| && |w.state.scopes| < budget.maxScopes {
      var next := Done(env, w, Swept(pass, pending[i]));
      DoneKept(env, w, Swept(pass, pending[i]));
      SweepNext(env, budget, w, pending, i, pass, next);
      SweepKept(env, budget, next, pending, i + 1, pass);
    }
  }

  lemma AdvanceKept<G(!new)>(env: Env<G>, budget: Budget, w: Work<G>, pending: seq<IpNet>, pass: nat)
    requires Kept(env, w) && |w.state.scopes| <= budget.maxScopes
    requires Distinct(pending) && forall n :: n in pending ==> n !in w.state.scopes
    ensures var r := AdvanceOn(env, budget, w, pending, pass);
            Kept(env, r) && |r.state.scopes| <= budget.maxScopes
  {
    DoneKept(env, w, Merged(env.merge(w.state.graph).1));
    var merged := MergeOn(env, w);
    DoneKept(env, merged, Asked(pass, Outstanding(env, merged.state)));
    SweepKept(env, budget, AskOn(env, merged, pass), pending, 0, pass);
  }

  // ----- the pending networks

  lemma {:induction false} LineIs(queue: seq<IpNet>, nets: seq<IpNet>, processed: seq<IpNet>)
    requires Distinct(queue)
    ensures var line := Line(queue, nets, processed);
            && Distinct(line) && queue <= line
            && forall n :: n in line <==> n in queue || (n in nets && n !in processed)
  {
    if nets != [] {
      LineIs(queue, nets[..|nets| - 1], processed);
      assert nets == nets[..|nets| - 1] + [nets[|nets| - 1]];
    }
  }

  lemma {:induction false} UnprocessedIs(line: seq<IpNet>, processed: seq<IpNet>)
    requires Distinct(line)
    ensures var rest := Unprocessed(line, processed);
            && Distinct(rest) && (forall n :: n in rest <==> n in line && n !in processed)
            && (line != [] && line[0] !in processed ==> rest != [] && rest[0] == line[0])
  {
    if line != [] {
      var init, last := line[..|line| - 1], line[|line| - 1];
      UnprocessedIs(init, processed);
      assert line == init + [last];
      assert last !in init;
    }
  }

  /** Exactly the networks queued or locally observed and not yet processed, each once, the queue's first. */
  lemma PendingIs<G>(env: Env<G>, w: Work<G>)
    requires Distinct(w.queue)
    ensures var pending := PendingOn(env, w);
            && Distinct(pending)
            && (forall n :: n in pending <==>
                  n !in w.state.scopes && (n in w.queue || n in env.localNetworks(w.state.graph)))
            && (w.queue != [] && w.queue[0] !in w.state.scopes ==> pending != [] && pending[0] == w.queue[0])
  {
    var nets, done := env.localNetworks(w.state.graph), w.state.scopes;
    LineIs(w.queue, nets, done);
    UnprocessedIs(Line(w.queue, nets, done), done);
  }

  // ----- every run's log

  ghost predicate Running<G(!new)>(env: Env<G>, budget: Budget, w: Work<G>) {
    Kept(env, w) && Distinct(w.queue) && |w.state.scopes| <= budget.maxScopes
  }

  lemma BeginRunning<G(!new)>(env: Env<G>, budget: Budget, initial: Option<IpNet>, sources: nat)
    ensures Running(env, budget, BeginOn(env, initial, sources))
  {
    SeedKept(env, Blank(env, sources), |env.seed|);
    SeedKeepsScopes(env, Blank(env, sources), |env.seed|);
  }

  lemma SurveyRunning<G(!new)>(env: Env<G>, budget: Budget, w: Work<G>)
    requires Running(env, budget, w)
    ensures var (s, pending) := SurveyOn(env, w);
            && Running(env, budget, s) && s.state.scopes == w.state.scopes && s.queue == []
            && Distinct(pending) && forall n :: n in pending ==> n !in s.state.scopes
  {
    SurveyKept(env, w);
    var polled := PollAllOn(env, w, false);
    PollKeepsScopes(env, w, |w.feeds|, false);
    PollKeepsQueue(env, w, |w.feeds|, false);
    PendingIs(env, polled);
  }

  lemma {:induction false} PollKeepsQueue<G>(env: Env<G>, w: Work<G>, n: nat, finishing: bool)
    requires n <= |w.feeds|
    ensures PolledUpTo(env, w, n, finishing).queue == w.queue
  {
    if n > 0 {
      PollKeepsQueue(env, w, n - 1, finishing);
    }
  }

  lemma {:induction false} SweepKeepsQueue<G>(env: Env<G>, budget: Budget, w: Work<G>, pending: seq<IpNet>, i: nat, pass: nat)
    requires i <= |pending|
    ensures SweepFrom(env, budget, w, pending, i, pass).queue == w.queue
    decreases |pending| - i
  {
    if i < |pending| && |w.state.scopes| < budget.maxScopes {
      SweepKeepsQueue(env, budget, Done(env, w, Swept(pass, pending[i])), pending, i + 1, pass);
    }
  }

  lemma AdvanceRunning<G(!new)>(env: Env<G>, budget: Budget, s: Work<G>, pending: seq<IpNet>, pass: nat)
    requires Running(env, budget, s) && Distinct(pending) && forall n :: n in pending ==> n !in s.state.scopes
    ensures Running(env, budget, AdvanceOn(env, budget, s, pending, pass))
  {
    AdvanceKept(env, budget, s, pending, pass);
    SweepKeepsQueue(env, budget, AskOn(env, MergeOn(env, s), pass), pending, 0, pass);
  }

  lemma DrainRunning<G(!new)>(env: Env<G>, budget: Budget, w: Work<G>)
    requires Running(env, budget, w)
    ensures Running(env, budget, PollAllOn(env, w, true))
  {
    PollKept(env, w, |w.feeds|, true);
    PollKeepsScopes(env, w, |w.feeds|, true);
    PollKeepsQueue(env, w, |w.feeds|, true);
  }

  function WorkOf<G>(turn: Turn<G>): Work<G> {
    if turn.Over? then turn.end.work else turn.work
  }

  lemma TurnRunning<G(!new)>(env: Env<G>, budget: Budget, w: Work<G>, pass: nat)
    requires Running(env, budget, w)
    ensures Running(env, budget, WorkOf(TurnOn(env, budget, w, pass)))
  {
    var (s, pending) := SurveyOn(env, w);
    SurveyRunning(env, budget, w);
    if pending != [] || Outstanding(env, s.state) != [] {
      AdvanceRunning(env, budget, s, pending, pass);
    } else {
      DrainRunning(env, budget, s);
    }
  }

  /** Whatever every pass keeps, the pass that ends the loop starts from. */
  lemma {:induction false} LoopEnds<G(!new)>(turn: (Work<G>, nat) -> Turn<G>, limit: nat, w: Work<G>, pass: nat,
                                             inv: Work<G> -> bool) returns (last: Work<G>, p: nat)
    requires inv(w) && pass <= limit && forall v, n :: inv(v) ==> inv(WorkOf(turn(v, n)))
    ensures inv(last) && pass <= p <= limit && inv(Loop(turn, limit, w, pass).work)
    ensures var e := Loop(turn, limit, w, pass);
            if p == limit then e == End(last, p, false, |last.log|) else turn(last, p) == Over(e)
    decreases limit - pass
  {
    last, p := w, pass;
    if pass < limit {
      var next := turn(w, pass);
      assert inv(WorkOf(next));
      if next.Onward? {
        last, p := LoopEnds(turn, limit, next.work, pass + 1, inv);
      }
    }
  }

  lemma LoopRunning<G(!new)>(env: Env<G>, budget: Budget, w: Work<G>) returns (last: Work<G>, p: nat)
    requires Running(env, budget, w)
    ensures var e := LoopOn(env, budget, w, 0);
            && Running(env, budget, last) && p <= budget.maxIterations && Running(env, budget, e.work)
            && if p == budget.maxIterations then e == End(last, p, false, |last.log|) else TurnOn(env, budget, last, p) == Over(e)
  {
    var turn := (v: Work<G>, n: nat) => TurnOn(env, budget, v, n);
    var inv := (v: Work<G>) => Running(env, budget, v);
    forall v, n | inv(v) ensures inv(WorkOf(turn(v, n))) {
      TurnRunning(env, budget, v, n);
    }
    last, p := LoopEnds(turn, budget.maxIterations, w, 0, inv);
  }

  /**
   * Everything a run reports is what its log replays to: its graph is the seeds, takes,
   * merges, answers and sweeps of the log, absorbed in that order, and nothing else. And the
   * log is honest: each merge is the graph's own, each question goes to exactly the devices
   * outstanding at that point, and each scope is swept once, within the budget.
   */
  lemma RunIsItsLog<G(!new)>(env: Env<G>, budget: Budget, initial: Option<IpNet>, sources: nat)
    ensures var e := RunOn(env, budget, initial, sources);
            && e.work.state == Replay(env, e.work.log) && Honest(env, e.work.log)
            && Distinct(e.work.state.scopes) && |e.work.state.scopes| <= budget.maxScopes
            && e.passes <= budget.maxIterations && (e.converged || e.passes == budget.maxIterations)
  {
    BeginRunning(env, budget, initial, sources);
    var w := BeginOn(env, initial, sources);
    var last, p := LoopRunning(env, budget, w);
    CloseRunning(env, budget, LoopOn(env, budget, w, 0));
    SweptOnce(env, RunOn(env, budget, initial, sources).work.log);
  }

  lemma CloseRunning<G(!new)>(env: Env<G>, budget: Budget, e: End<G>)
    requires Running(env, budget, e.work)
    ensures Running(env, budget, CloseOn(env, e).work)
  {
    DrainRunning(env, budget, e.work);
  }

  lemma {:induction false} SweptOnce<G(!new)>(env: Env<G>, log: seq<Event>)
    requires Honest(env, log)
    ensures Distinct(Replay(env, log).scopes)
  {
    if log != [] {
      SweptOnce(env, log[..|log| - 1]);
    }
  }

  // ----- everything delivered is absorbed exactly once

  /** What was taken from one source, in order. */
  function Takes(log: seq<Event>, source: nat): seq<Evidence> {
    if log == [] then []
    else
      var last := log[|log| - 1];
      Takes(log[..|log| - 1], source) + if last.Took? && last.source == source then last.evidence else []
  }

  predicate IsFinish(e: Event, source: nat) {
    e.Took? && e.source == source && e.finishing
  }

  /** How often one source was finished. */
  function Finishes(log: seq<Event>, source: nat): nat {
    if log == [] then 0
    else Finishes(log[..|log| - 1], source) + if IsFinish(log[|log| - 1], source) then 1 else 0
  }

  /** The poll that last finished one source. */
  function FinishedAt(log: seq<Event>, source: nat): nat {
    if log == [] then 0
    else if IsFinish(log[|log| - 1], source) then log[|log| - 1].poll
    else FinishedAt(log[..|log| - 1], source)
  }

  /** Everything that arrived at one source before its n-th poll, in order. */
  function Arrived<G>(env: Env<G>, source: nat, n: nat): seq<Evidence> {
    if n == 0 then [] else Arrived(env, source, n - 1) + Flat(env.arrivals(n - 1, source))
  }

  /** One source after `n` polls: all that arrived was taken, until its one finish and no longer. */
  predicate SourceHolds<G>(env: Env<G>, b: Buffer<Evidence>, log: seq<Event>, source: nat, n: nat) {
    && b.pending == []
    && (if b.stopped then
          && Finishes(log, source) == 1 && FinishedAt(log, source) < n
          && Takes(log, source) == Arrived(env, source, FinishedAt(log, source) + 1)
        else Finishes(log, source) == 0 && Takes(log, source) == Arrived(env, source, n))
  }

  predicate SourcesHold<G>(env: Env<G>, w: Work<G>) {
    forall i :: 0 <= i < |w.feeds| ==> SourceHolds(env, w.feeds[i], w.log, i, w.polls) && w.feeds[i].stopped == w.finished
  }

  lemma OtherEvent(log: seq<Event>, e: Event, source: nat)
    requires !(e.Took? && e.source == source)
    ensures Takes(log + [e], source) == Takes(log, source)
    ensures Finishes(log + [e], source) == Finishes(log, source) && FinishedAt(log + [e], source) == FinishedAt(log, source)
  {
    assert (log + [e])[..|log|] == log;
    assert Takes(log, source) + [] == Takes(log, source);
  }

  lemma OwnEvent(log: seq<Event>, e: Event, source: nat)
    requires e.Took? && e.source == source
    ensures Takes(log + [e], source) == Takes(log, source) + e.evidence
    ensures Finishes(log + [e], source) == Finishes(log, source) + if e.finishing then 1 else 0
    ensures FinishedAt(log + [e], source) == if e.finishing then e.poll else FinishedAt(log, source)
  {
    assert (log + [e])[..|log|] == log;
  }

  lemma PolledHolds<G>(env: Env<G>, b: Buffer<Evidence>, log: seq<Event>, i: nat, n: nat, finishing: bool)
    requires SourceHolds(env, b, log, i, n) && !(finishing && b.stopped)
    ensures var landed := OfferAll(b, env.arrivals(n, i));
            SourceHolds(env, landed.Taken(finishing), log + [Took(i, n, landed.pending, finishing)], i, n + 1)
  {
    var landed := OfferAll(b, env.arrivals(n, i));
    OfferedAreQueued(b, env.arrivals(n, i));
    OwnEvent(log, Took(i, n, landed.pending, finishing), i);
    assert [] + Flat(env.arrivals(n, i)) == Flat(env.arrivals(n, i));
    assert Takes(log, i) + [] == Takes(log, i);
  }

  /** In the middle of a round: the sources before the i-th have had their poll, the others not yet. */
  predicate RoundHolds<G>(env: Env<G>, w: Work<G>, i: nat, stopped: bool, finishing: bool) {
    forall j :: 0 <= j < |w.feeds| ==>
      && SourceHolds(env, w.feeds[j], w.log, j, if j < i then w.polls + 1 else w.polls)
      && w.feeds[j].stopped == (stopped || (finishing && j < i))
  }

  lemma PollOwn<G>(env: Env<G>, w: Work<G>, i: nat, finishing: bool)
    requires i < |w.feeds| && SourceHolds(env, w.feeds[i], w.log, i, w.polls) && !(finishing && w.feeds[i].stopped)
    ensures var r := PollOn(env, w, i, finishing);
            SourceHolds(env, r.feeds[i], r.log, i, w.polls + 1) && r.feeds[i].stopped == (w.feeds[i].stopped || finishing)
  {
    OfferedAreQueued(w.feeds[i], env.arrivals(w.polls, i));
    PolledHolds(env, w.feeds[i], w.log, i, w.polls, finishing);
  }

  lemma PollOther<G>(env: Env<G>, w: Work<G>, i: nat, finishing: bool, j: nat, n: nat)
    requires i < |w.feeds| && j < |w.feeds| && j != i && SourceHolds(env, w.feeds[j], w.log, j, n)
    ensures var r := PollOn(env, w, i, finishing);
            r.feeds[j] == w.feeds[j] && SourceHolds(env, r.feeds[j], r.log, j, n)
  {
    OtherEvent(w.log, Took(i, w.polls, OfferAll(w.feeds[i], env.arrivals(w.polls, i)).pending, finishing), j);
  }

  lemma PollRound<G>(env: Env<G>, w: Work<G>, i: nat, stopped: bool, finishing: bool)
    requires i < |w.feeds| && RoundHolds(env, w, i, stopped, finishing) && !(stopped && finishing)
    ensures RoundHolds(env, PollOn(env, w, i, finishing), i + 1, stopped, finishing)
  {
    var r := PollOn(env, w, i, finishing);
    forall j | 0 <= j < |r.feeds|
      ensures SourceHolds(env, r.feeds[j], r.log, j, if j < i + 1 then r.polls + 1 else r.polls)
      ensures r.feeds[j].stopped == (stopped || (finishing && j < i + 1))
    {
      if j == i {
        PollOwn(env, w, i, finishing);
      } else {
        PollOther(env, w, i, finishing, j, if j < i then w.polls + 1 else w.polls);
      }
    }
  }

  lemma RoundStarts<G>(env: Env<G>, w: Work<G>, finishing: bool)
    requires SourcesHold(env, w)
    ensures RoundHolds(env, w, 0, w.finished, finishing)
  {
  }

  /** What each poll of a round keeps, the round keeps. */
  lemma {:induction false} RoundKeeps<G(!new)>(env: Env<G>, w: Work<G>, n: nat, finishing: bool, inv: (Work<G>, nat) -> bool)
    requires n <= |w.feeds| && inv(w, 0)
    requires forall v: Work<G>, i: nat :: i < |v.feeds| && inv(v, i) ==> inv(PollOn(env, v, i, finishing), i + 1)
    ensures inv(PolledUpTo(env, w, n, finishing), n)
  {
    if n > 0 {
      RoundKeeps(env, w, n - 1, finishing, inv);
      var v := PolledUpTo(env, w, n - 1, finishing);
      assert inv(PollOn(env, v, n - 1, finishing), n - 1 + 1);
    }
  }

  lemma RoundsHold<G(!new)>(env: Env<G>, w: Work<G>, n: nat, finishing: bool)
    requires n <= |w.feeds| && SourcesHold(env, w) && !(w.finished && finishing)
    ensures RoundHolds(env, PolledUpTo(env, w, n, finishing), n, w.finished, finishing)
  {
    var inv := (v: Work<G>, i: nat) => RoundHolds(env, v, i, w.finished, finishing);
    RoundStarts(env, w, finishing);
    forall v: Work<G>, i: nat | i < |v.feeds| && inv(v, i) ensures inv(PollOn(env, v, i, finishing), i + 1) {
      PollRound(env, v, i, w.finished, finishing);
    }
    RoundKeeps(env, w, n, finishing, inv);
  }

  lemma PollSources<G(!new)>(env: Env<G>, w: Work<G>, finishing: bool)
    requires SourcesHold(env, w) && !(w.finished && finishing)
    ensures SourcesHold(env, PollAllOn(env, w, finishing))
  {
    RoundsHold(env, w, |w.feeds|, finishing);
    var v, r := PolledUpTo(env, w, |w.feeds|, finishing), PollAllOn(env, w, finishing);
    forall i | 0 <= i < |r.feeds| ensures SourceHolds(env, r.feeds[i], r.log, i, r.polls) && r.feeds[i].stopped == r.finished {
      assert SourceHolds(env, v.feeds[i], v.log, i, v.polls + 1);
    }
  }

  lemma DoneSources<G>(env: Env<G>, w: Work<G>, e: Event)
    requires SourcesHold(env, w) && !e.Took?
    ensures SourcesHold(env, Done(env, w, e))
  {
    var r := Done(env, w, e);
    forall i | 0 <= i < |r.feeds| ensures SourceHolds(env, r.feeds[i], r.log, i, r.polls) {
      OtherEvent(w.log, e, i);
    }
  }

  lemma {:induction false} SweepSources<G>(env: Env<G>, budget: Budget, w: Work<G>, pending: seq<IpNet>, i: nat, pass: nat)
    requires i <= |pending| && SourcesHold(env, w)
    ensures SourcesHold(env, SweepFrom(env, budget, w, pending, i, pass))
    decreases |pending| - i
  {
    if i < |pending| && |w.state.scopes| < budget.maxScopes {
      DoneSources(env, w, Swept(pass, pending[i]));
      SweepSources(env, budget, Done(env, w, Swept(pass, pending[i])), pending, i + 1, pass);
    }
  }

  lemma SurveySources<G(!new)>(env: Env<G>, w: Work<G>)
    requires SourcesHold(env, w)
    ensures SourcesHold(env, SurveyOn(env, w).0)
  {
    PollSources(env, w, false);
    var polled := PollAllOn(env, w, false).(queue := []);
    DoneSources(env, polled, Merged(env.merge(polled.state.graph).1));
  }

  lemma TurnSources<G(!new)>(env: Env<G>, budget: Budget, w: Work<G>, pass: nat)
    requires SourcesHold(env, w)
    ensures SourcesHold(env, WorkOf(TurnOn(env, budget, w, pass)))
  {
    var (s, pending) := SurveyOn(env, w);
    SurveySources(env, w);
    if pending != [] || Outstanding(env, s.state) != [] {
      DoneSources(env, s, Merged(env.merge(s.state.graph).1));
      var merged := MergeOn(env, s);
      DoneSources(env, merged, Asked(pass, Outstanding(env, merged.state)));
      SweepSources(env, budget, AskOn(env, merged, pass), pending, 0, pass);
    } else if !s.finished {
      PollSources(env, s, true);
    }
  }

  lemma {:induction false} SeedSources<G>(env: Env<G>, w: Work<G>, n: nat)
    requires n <= |env.seed| && SourcesHold(env, w)
    ensures SourcesHold(env, SeedOn(env, w, n)) && SeedOn(env, w, n).feeds == w.feeds
  {
    if n > 0 {
      SeedSources(env, w, n - 1);
      DoneSources(env, SeedOn(env, w, n - 1), Seeded(n - 1));
    }
  }

  lemma LoopSources<G(!new)>(env: Env<G>, budget: Budget, w: Work<G>)
    requires SourcesHold(env, w)
    ensures SourcesHold(env, LoopOn(env, budget, w, 0).work)
    ensures |LoopOn(env, budget, w, 0).work.feeds| == |w.feeds|
  {
    var turn := (v: Work<G>, n: nat) => TurnOn(env, budget, v, n);
    var inv := (v: Work<G>) => SourcesHold(env, v) && |v.feeds| == |w.feeds|;
    forall v, n | inv(v) ensures inv(WorkOf(turn(v, n))) {
      TurnSources(env, budget, v, n);
      TurnKeepsFeeds(env, budget, v, n);
    }
    var last, p := LoopEnds(turn, budget.maxIterations, w, 0, inv);
  }

  lemma {:induction false} SweepKeepsFeeds<G>(env: Env<G>, budget: Budget, w: Work<G>, pending: seq<IpNet>, i: nat, pass: nat)
    requires i <= |pending|
    ensures SweepFrom(env, budget, w, pending, i, pass).feeds == w.feeds
    decreases |pending| - i
  {
    if i < |pending| && |w.state.scopes| < budget.maxScopes {
      SweepKeepsFeeds(env, budget, Done(env, w, Swept(pass, pending[i])), pending, i + 1, pass);
    }
  }

  lemma TurnKeepsFeeds<G>(env: Env<G>, budget: Budget, w: Work<G>, pass: nat)
    ensures |WorkOf(TurnOn(env, budget, w, pass)).feeds| == |w.feeds|
  {
    var (s, pending) := SurveyOn(env, w);
    SweepKeepsFeeds(env, budget, AskOn(env, MergeOn(env, s), pass), pending, 0, pass);
  }

  /**
   * Whatever arrives when: each source is finished exactly once, on every way out of the run,
   * and what the run absorbed from it is exactly what arrived up to that finish, every batch
   * once and in order. What arrived later was never taken.
   */
  lemma DeliveredIsAbsorbedOnce<G(!new)>(env: Env<G>, budget: Budget, initial: Option<IpNet>, sources: nat, i: nat)
    requires i < sources
    ensures var log := RunOn(env, budget, initial, sources).work.log;
            Finishes(log, i) == 1 && Takes(log, i) == Arrived(env, i, FinishedAt(log, i) + 1)
  {
    var w := BeginOn(env, initial, sources);
    BeginSources(env, initial, sources);
    LoopSources(env, budget, w);
    CloseSources(env, LoopOn(env, budget, w, 0));
    FinishedSource(env, RunOn(env, budget, initial, sources).work, i);
  }

  lemma RunSources<G(!new)>(env: Env<G>, budget: Budget, initial: Option<IpNet>, sources: nat) returns (w: Work<G>)
    ensures w == RunOn(env, budget, initial, sources).work && SourcesHold(env, w) && w.finished && |w.feeds| == sources
  {
    var begun := BeginOn(env, initial, sources);
    BeginSources(env, initial, sources);
    LoopSources(env, budget, begun);
    CloseSources(env, LoopOn(env, budget, begun, 0));
    w := RunOn(env, budget, initial, sources).work;
  }

  lemma BeginSources<G>(env: Env<G>, initial: Option<IpNet>, sources: nat)
    ensures SourcesHold(env, BeginOn(env, initial, sources)) && |BeginOn(env, initial, sources).feeds| == sources
  {
    SeedSources(env, Blank(env, sources), |env.seed|);
  }

  lemma CloseSources<G(!new)>(env: Env<G>, e: End<G>)
    requires SourcesHold(env, e.work)
    ensures var w := CloseOn(env, e).work;
            SourcesHold(env, w) && w.finished && |w.feeds| == |e.work.feeds|
  {
    if !e.work.finished {
      PollSources(env, e.work, true);
    }
  }

  lemma FinishedSource<G>(env: Env<G>, w: Work<G>, i: nat)
    requires SourcesHold(env, w) && w.finished && i < |w.feeds|
    ensures Finishes(w.log, i) == 1 && Takes(w.log, i) == Arrived(env, i, FinishedAt(w.log, i) + 1)
  {
    assert SourceHolds(env, w.feeds[i], w.log, i, w.polls);
  }

  // ----- nobody is asked twice

  /** Where the merges of a stretch of the log have taken an identity. */
  function Follow(trail: seq<Event>, d: DeviceKey): DeviceKey {
    if trail == [] then d
    else
      var e, last := Follow(trail[..|trail| - 1], d), trail[|trail| - 1];
      if last.Merged? then Survivor(last.aliases, e) else e
  }

  /** What a device asked about at event `i` is called by the time of event `j`. */
  function NameAt(log: seq<Event>, i: nat, j: nat, d: DeviceKey): DeviceKey
    requires i < j <= |log|
  {
    Follow(log[i + 1..j], d)
  }

  predicate AskedAt(log: seq<Event>, i: int, d: DeviceKey) {
    0 <= i < |log| && log[i].Asked? && d in DevicesOf(log[i].targets)
  }

  /** No device is asked twice at once, or again under the name an earlier question now has. */
  ghost predicate NeverReasked(log: seq<Event>) {
    && (forall j :: 0 <= j < |log| && log[j].Asked? ==> DistinctTargets(log[j].targets))
    && (forall i, j, d :: AskedAt(log, i, d) && i < j < |log| ==> !AskedAt(log, j, NameAt(log, i, j, d)))
  }

  /** `interrogated` is every device asked so far, each under its present name. */
  ghost predicate KnowsAsked(log: seq<Event>, interrogated: set<DeviceKey>) {
    && (forall i, d :: AskedAt(log, i, d) ==> NameAt(log, i, |log|, d) in interrogated)
    && (forall k :: k in interrogated ==> exists i, d :: AskedAt(log, i, d) && NameAt(log, i, |log|, d) == k)
  }

  /** One more event leaves earlier names as they were, and a merge renames them once more. */
  lemma OneMoreEvent(log: seq<Event>, e: Event)
    ensures var after := log + [e];
            && (forall i, d :: i < |log| ==> AskedAt(after, i, d) == AskedAt(log, i, d))
            && (forall i, j, d :: 0 <= i < j <= |log| ==> NameAt(after, i, j, d) == NameAt(log, i, j, d))
            && (forall i, d :: 0 <= i < |log| ==>
                  NameAt(after, i, |after|, d) ==
                  (if e.Merged? then Survivor(e.aliases, NameAt(log, i, |log|, d)) else NameAt(log, i, |log|, d)))
  {
    var after := log + [e];
    forall i, j, d | 0 <= i < j <= |log| ensures NameAt(after, i, j, d) == NameAt(log, i, j, d) {
      assert after[i + 1..j] == log[i + 1..j];
    }
    forall i, d | 0 <= i < |log|
      ensures NameAt(after, i, |after|, d) ==
              (if e.Merged? then Survivor(e.aliases, NameAt(log, i, |log|, d)) else NameAt(log, i, |log|, d))
    {
      assert after[i + 1..|after|][..|log| - i - 1] == log[i + 1..|log|];
    }
  }

  lemma OtherKeepsAsked(log: seq<Event>, e: Event, interrogated: set<DeviceKey>)
    requires NeverReasked(log) && KnowsAsked(log, interrogated) && !e.Merged? && !e.Asked?
    ensures NeverReasked(log + [e]) && KnowsAsked(log + [e], interrogated)
  {
    var after := log + [e];
    OneMoreEvent(log, e);
    forall k | k in interrogated ensures exists i, d :: AskedAt(after, i, d) && NameAt(after, i, |after|, d) == k {
      var i, d :| AskedAt(log, i, d) && NameAt(log, i, |log|, d) == k;
      assert AskedAt(after, i, d);
    }
  }

  lemma MergeKeepsAsked(log: seq<Event>, aliases: seq<Alias>, interrogated: set<DeviceKey>)
    requires NeverReasked(log) && KnowsAsked(log, interrogated)
    ensures NeverReasked(log + [Merged(aliases)])
    ensures KnowsAsked(log + [Merged(aliases)], Survivors(aliases, interrogated))
  {
    var after := log + [Merged(aliases)];
    OneMoreEvent(log, Merged(aliases));
    forall k | k in Survivors(aliases, interrogated)
      ensures exists i, d :: AskedAt(after, i, d) && NameAt(after, i, |after|, d) == k
    {
      var k0 :| k0 in interrogated && Survivor(aliases, k0) == k;
      var i, d :| AskedAt(log, i, d) && NameAt(log, i, |log|, d) == k0;
      assert AskedAt(after, i, d);
    }
  }

  lemma AskKeepsAsked(log: seq<Event>, pass: nat, targets: seq<Target>, interrogated: set<DeviceKey>)
    requires NeverReasked(log) && KnowsAsked(log, interrogated)
    requires DistinctTargets(targets) && forall t :: t in targets ==> t.device !in interrogated
    ensures NeverReasked(log + [Asked(pass, targets)])
    ensures KnowsAsked(log + [Asked(pass, targets)], interrogated + DevicesOf(targets))
  {
    var after := log + [Asked(pass, targets)];
    OneMoreEvent(log, Asked(pass, targets));
    forall d ensures NameAt(after, |log|, |after|, d) == d {
      assert after[|log| + 1..|after|] == [];
    }
    forall k | k in interrogated + DevicesOf(targets)
      ensures exists i, d :: AskedAt(after, i, d) && NameAt(after, i, |after|, d) == k
    {
      if k in interrogated {
        var i, d :| AskedAt(log, i, d) && NameAt(log, i, |log|, d) == k;
        assert AskedAt(after, i, d);
      } else {
        assert AskedAt(after, |log|, k);
      }
    }
  }

  lemma {:induction false} HonestNeverReasks<G(!new)>(env: Env<G>, log: seq<Event>)
    requires Lawful(env) && Honest(env, log)
    ensures NeverReasked(log) && KnowsAsked(log, Replay(env, log).interrogated)
  {
    if log != [] {
      var init, e := log[..|log| - 1], log[|log| - 1];
      var s := Replay(env, init);
      HonestNeverReasks(env, init);
      assert log == init + [e];
      if e.Merged? {
        MergeKeepsAsked(init, e.aliases, s.interrogated);
      } else if e.Asked? {
        QueueIsExact(env.devices(s.graph), s.interrogated);
        AskKeepsAsked(init, e.pass, e.targets, s.interrogated);
      } else {
        OtherKeepsAsked(init, e, s.interrogated);
      }
    }
  }

  /**
   * Over a whole run no device is asked twice, under whatever names merging gave it in
   * between, and the run's record of who was asked is exact.
   */
  lemma NobodyIsAskedTwice<G(!new)>(env: Env<G>, budget: Budget, initial: Option<IpNet>, sources: nat)
    requires Lawful(env)
    ensures var w := RunOn(env, budget, initial, sources).work;
            NeverReasked(w.log) && KnowsAsked(w.log, w.state.interrogated)
  {
    RunIsItsLog(env, budget, initial, sources);
    HonestNeverReasks(env, RunOn(env, budget, initial, sources).work.log);
  }

  // ----- what convergence establishes

  /** Nothing happened but the finishing of sources. */
  predicate OnlyFinishes(log: seq<Event>, since: nat) {
    forall k :: since <= k < |log| ==> log[k].Took? && log[k].finishing
  }

  lemma FinishLog<G(!new)>(env: Env<G>, w: Work<G>, n: nat)
    requires n <= |w.feeds|
    ensures w.log <= PolledUpTo(env, w, n, true).log && OnlyFinishes(PolledUpTo(env, w, n, true).log, |w.log|)
  {
    RoundKeeps(env, w, n, true, (v: Work<G>, i: nat) => w.log <= v.log && OnlyFinishes(v.log, |w.log|));
  }

  /** The state when the run decided it was over, before its final drain if that was still to come. */
  function Before<G>(env: Env<G>, e: End<G>): State<G>
    requires e.decided <= |e.work.log|
  {
    Replay(env, e.work.log[..e.decided])
  }

  /** Every local network processed, and nothing gained since. */
  predicate Closed<G>(env: Env<G>, before: State<G>, after: State<G>) {
    && (forall n :: n in env.localNetworks(before.graph) ==> n in after.scopes)
    && Outstanding(env, after) == []
    && env.networks(after.graph) <= env.networks(before.graph)
    && env.pivotAddresses(after.graph) <= env.pivotAddresses(before.graph)
  }

  predicate Concluded<G>(env: Env<G>, e: End<G>) {
    && e.work.finished && e.decided <= |e.work.log| && OnlyFinishes(e.work.log, e.decided)
    && Closed(env, Before(env, e), e.work.state)
  }

  lemma SettledIsConcluded<G(!new)>(env: Env<G>, s: Work<G>, pass: nat)
    requires Kept(env, s) && Outstanding(env, s.state) == []
    requires forall n :: n in env.localNetworks(s.state.graph) ==> n in s.state.scopes
    requires SettleOn(env, s, pass).Over?
    ensures Concluded(env, SettleOn(env, s, pass).end)
  {
    var e := SettleOn(env, s, pass).end;
    if s.finished {
      assert s.log[..|s.log|] == s.log;
    } else {
      FinishLog(env, s, |s.feeds|);
      PollKeepsScopes(env, s, |s.feeds|, true);
      assert e.work.log[..|s.log|] == s.log;
    }
  }

  lemma SurveyedLocals<G(!new)>(env: Env<G>, budget: Budget, w: Work<G>)
    requires Lawful(env) && Running(env, budget, w)
    ensures var (s, pending) := SurveyOn(env, w);
            forall n :: n in env.localNetworks(s.state.graph) ==> n in s.state.scopes || n in pending
  {
    var polled := PollAllOn(env, w, false);
    PollKeepsQueue(env, w, |w.feeds|, false);
    PendingIs(env, polled);
  }

  lemma OverIsConcluded<G(!new)>(env: Env<G>, budget: Budget, w: Work<G>, pass: nat)
    requires Lawful(env) && Running(env, budget, w) && TurnOn(env, budget, w, pass).Over?
    ensures Concluded(env, TurnOn(env, budget, w, pass).end)
  {
    SurveyRunning(env, budget, w);
    SurveyedLocals(env, budget, w);
    SettledIsConcluded(env, SurveyOn(env, w).0, pass);
  }

  /**
   * If a run reports convergence, then when it decided so every locally observed network had
   * been processed; and after the final drain - all that happened since - no device was
   * queueable and there was no new network and no new pivot.
   */
  lemma ConvergedIsClosed<G(!new)>(env: Env<G>, budget: Budget, initial: Option<IpNet>, sources: nat)
    requires Lawful(env)
    ensures var e := RunOn(env, budget, initial, sources);
            e.converged ==> Concluded(env, e)
  {
    BeginRunning(env, budget, initial, sources);
    var w := BeginOn(env, initial, sources);
    var last, p := LoopRunning(env, budget, w);
    if LoopOn(env, budget, w, 0).converged {
      OverIsConcluded(env, budget, last, p);
    }
  }

  /** A network the final drain made local: nothing this machine had observed when the run decided. */
  predicate Promoted<G>(env: Env<G>, before: G, after: G, n: IpNet) {
    n in env.localNetworks(after) && n !in env.localNetworks(before)
  }

  /**
   * Every local network of the final graph was processed exactly when each network the final
   * drain made local was processed already or not known before. (One not known before would
   * have resumed the traversal; one known from a peer does not.)
   */
  lemma ConvergedCoversExactly<G(!new)>(env: Env<G>, budget: Budget, initial: Option<IpNet>, sources: nat)
    requires Lawful(env) && RunOn(env, budget, initial, sources).converged
    ensures var e := RunOn(env, budget, initial, sources);
            e.decided <= |e.work.log| &&
            var before, after := Before(env, e).graph, e.work.state.graph;
            (forall n :: n in env.localNetworks(after) ==> n in e.work.state.scopes) <==>
            (forall n :: Promoted(env, before, after, n) ==> n in e.work.state.scopes || n !in env.networks(before))
  {
    ConvergedIsClosed(env, budget, initial, sources);
    var e := RunOn(env, budget, initial, sources);
    var before, after := Before(env, e).graph, e.work.state.graph;
    forall n | n in env.localNetworks(after) ensures n in env.networks(before) {
      assert n in env.networks(after);
    }
    if forall n :: Promoted(env, before, after, n) ==> n in e.work.state.scopes || n !in env.networks(before) {
      forall n | n in env.localNetworks(after) ensures n in e.work.state.scopes {
        assert n in env.localNetworks(before) || Promoted(env, before, after, n);
      }
    }
  }

  /** If all it knew was local when it decided, as without peers, a converged run has processed every network it knows. */
  lemma PeerFreeRunIsClosed<G(!new)>(env: Env<G>, budget: Budget, initial: Option<IpNet>, sources: nat)
    requires Lawful(env) && RunOn(env, budget, initial, sources).converged
    requires var e := RunOn(env, budget, initial, sources);
             e.decided <= |e.work.log| ==>
             forall n :: n in env.networks(Before(env, e).graph) ==> n in env.localNetworks(Before(env, e).graph)
    ensures var e := RunOn(env, budget, initial, sources);
            forall n :: n in env.networks(e.work.state.graph) ==> n in e.work.state.scopes
  {
    ConvergedIsClosed(env, budget, initial, sources);
  }

  // ----- a run that misses a local network

  /** A graph of one network: whether it is known, and whether this machine observed it itself. */
  datatype One = One(known: bool, local: bool)

  const HOME: IpNet := V4(0xC0A8_3300, 24)

  const NOBODY := Devices([], {}, {})

  /** Evidence 0 is a peer's report of the network, anything else is our own observation of it. */
  const PROMOTING: Env<One> := Env(
    (g: One, e: Evidence) => if e == 0 then One(true, g.local) else One(true, true),
    (g: One) => if g.known then {HOME} else {},
    (g: One) => if g.known && g.local then [HOME] else [],
    (g: One) => {},
    (g: One) => NOBODY,
    (g: One) => (g, []),
    One(false, false),
    [],
    (pass: nat, targets: seq<Target>) => ([], []),
    (pass: nat, scope: IpNet) => [],
    (poll: nat, source: nat) => if poll == 0 then [[0]] else [[1]])

  /**
   * A peer reports a network at the first poll; the final drain brings our own observation of
   * it. Nothing is new by name, so the run converges - and never sweeps a network of its own.
   */
  lemma PromotedNetworkIsMissed()
    ensures Lawful(PROMOTING)
    ensures var e := RunOn(PROMOTING, Budget(8, 8, 256), None, 1);
            e.converged && HOME in PROMOTING.localNetworks(e.work.state.graph) && e.work.state.scopes == []
  {
    PromotingIsLawful();
    var w := PromotingStart();
    var end := PromotingTurn(w);
    assert LoopOn(PROMOTING, Budget(8, 8, 256), w, 0) == end;
  }

  lemma PromotingIsLawful()
    ensures Lawful(PROMOTING)
  {
  }

  lemma PromotingStart() returns (w: Work<One>)
    ensures w == BeginOn(PROMOTING, None, 1) == Blank(PROMOTING, 1) && w.feeds == [Buffer([], false)]
  {
    w := BeginOn(PROMOTING, None, 1);
  }

  lemma PromotingTurn(w: Work<One>) returns (end: End<One>)
    requires w == Blank(PROMOTING, 1) && w.feeds == [Buffer([], false)]
    ensures TurnOn(PROMOTING, Budget(8, 8, 256), w, 0) == Over(end) && end.converged && end.work.finished
    ensures end.work.state.graph == One(true, true) && end.work.state.scopes == []
  {
    var s := PromotingSurvey(w);
    var drained := PromotingPoll(s, true);
    assert Outstanding(PROMOTING, drained.state) == [];
    assert !Gained(PROMOTING, s.state.graph, drained.state);
    end := End(drained, 1, true, |s.log|);
  }

  /** The first pass of that run finds nothing to do. */
  lemma PromotingSurvey(w: Work<One>) returns (s: Work<One>)
    requires w == Blank(PROMOTING, 1) && w.feeds == [Buffer([], false)]
    ensures SurveyOn(PROMOTING, w) == (s, []) && Outstanding(PROMOTING, s.state) == []
    ensures s.state.graph == One(true, false) && s.state.scopes == [] && s.state.interrogated == {}
    ensures s.feeds == [Buffer([], false)] && s.polls == 1 && !s.finished
  {
    var polled := PromotingPoll(w, false);
    assert PendingOn(PROMOTING, polled) == [];
    s := MergeOn(PROMOTING, polled.(queue := []));
  }

  lemma OneLands(e: Evidence)
    ensures OfferAll(Buffer([], false), [[e]]) == Buffer([e], false)
  {
    var none: Buffer<Evidence> := Buffer([], false);
    assert [[e]][..0] == [];
    assert OfferAll(none, []) == none;
    assert OfferAll(none, [[e]]) == none.Offered([e]);
  }

  lemma OneAbsorbed<G>(env: Env<G>, g: G, e: Evidence)
    ensures AbsorbAll(env, g, [e]) == env.absorb(g, e)
  {
    assert [e][..0] == [];
    assert AbsorbAll(env, g, []) == g;
  }

  /** One poll of the one source of that run. */
  lemma PromotingPoll(w: Work<One>, finishing: bool) returns (r: Work<One>)
    requires w.feeds == [Buffer([], false)]
    ensures r == PollAllOn(PROMOTING, w, finishing)
    ensures r.state == w.state.(graph := if w.polls == 0 then One(true, w.state.graph.local) else One(true, true))
    ensures r.feeds == [Buffer([], finishing)] && r.polls == w.polls + 1 && r.queue == w.queue
    ensures r.finished == (w.finished || finishing)
  {
    var e: Evidence := if w.polls == 0 then 0 else 1;
    assert PROMOTING.arrivals(w.polls, 0) == [[e]];
    OneLands(e);
    OneAbsorbed(PROMOTING, w.state.graph, e);
    assert PolledUpTo(PROMOTING, w, 0, finishing) == w;
    var one := PollOn(PROMOTING, w, 0, finishing);
    assert PolledUpTo(PROMOTING, w, 1, finishing) == one;
    r := PollAllOn(PROMOTING, w, finishing);
  }

  // ----- the operator's scope

  /** The operator's scope is first in line until it has been processed. */
  predicate InLine<G>(budget: Budget, initial: Option<IpNet>, w: Work<G>) {
    initial.Some? && budget.maxScopes > 0 ==>
      initial.value in w.state.scopes || (w.state.scopes == [] && w.queue != [] && w.queue[0] == initial.value)
  }

  lemma {:induction false} SweepGrows<G>(env: Env<G>, budget: Budget, w: Work<G>, pending: seq<IpNet>, i: nat, pass: nat)
    requires i <= |pending|
    ensures w.state.scopes <= SweepFrom(env, budget, w, pending, i, pass).state.scopes
    ensures i < |pending| && |w.state.scopes| < budget.maxScopes ==>
              pending[i] in SweepFrom(env, budget, w, pending, i, pass).state.scopes
    decreases |pending| - i
  {
    if i < |pending| && |w.state.scopes| < budget.maxScopes {
      var next := Done(env, w, Swept(pass, pending[i]));
      SweepNext(env, budget, w, pending, i, pass, next);
      SweepGrows(env, budget, next, pending, i + 1, pass);
      assert next.state.scopes[|w.state.scopes|] == pending[i];
    }
  }

  /** After the survey: processed, or first of the pending. */
  predicate AtHand<G>(budget: Budget, initial: Option<IpNet>, s: Work<G>, pending: seq<IpNet>) {
    initial.Some? && budget.maxScopes > 0 ==>
      initial.value in s.state.scopes || (s.state.scopes == [] && pending != [] && pending[0] == initial.value)
  }

  lemma SurveyInLine<G(!new)>(env: Env<G>, budget: Budget, initial: Option<IpNet>, w: Work<G>)
    requires Running(env, budget, w) && InLine(budget, initial, w)
    ensures AtHand(budget, initial, SurveyOn(env, w).0, SurveyOn(env, w).1)
  {
    var polled := PollAllOn(env, w, false);
    SurveyRunning(env, budget, w);
    PollKeepsScopes(env, w, |w.feeds|, false);
    PollKeepsQueue(env, w, |w.feeds|, false);
    PendingIs(env, polled);
  }

  lemma AdvanceInLine<G>(env: Env<G>, budget: Budget, initial: Option<IpNet>, s: Work<G>, pending: seq<IpNet>, pass: nat)
    requires AtHand(budget, initial, s, pending)
    ensures InLine(budget, initial, AdvanceOn(env, budget, s, pending, pass))
  {
    SweepGrows(env, budget, AskOn(env, MergeOn(env, s), pass), pending, 0, pass);
  }

  lemma TurnInLine<G(!new)>(env: Env<G>, budget: Budget, initial: Option<IpNet>, w: Work<G>, pass: nat)
    requires Running(env, budget, w) && InLine(budget, initial, w)
    ensures InLine(budget, initial, WorkOf(TurnOn(env, budget, w, pass)))
    ensures TurnOn(env, budget, w, pass).Over? && initial.Some? && budget.maxScopes > 0 ==>
              initial.value in TurnOn(env, budget, w, pass).end.work.state.scopes
  {
    var (s, pending) := SurveyOn(env, w);
    SurveyInLine(env, budget, initial, w);
    if pending != [] || Outstanding(env, s.state) != [] {
      AdvanceInLine(env, budget, initial, s, pending, pass);
    } else {
      PollKeepsScopes(env, s, |s.feeds|, true);
    }
  }

  /** A converged run has processed the operator's scope, if it may process any. */
  lemma OperatorScopeIsProcessed<G(!new)>(env: Env<G>, budget: Budget, initial: Option<IpNet>, sources: nat)
    requires initial.Some? && budget.maxScopes > 0 && RunOn(env, budget, initial, sources).converged
    ensures initial.value in RunOn(env, budget, initial, sources).work.state.scopes
  {
    BeginRunning(env, budget, initial, sources);
    StartsUnswept(env, initial, sources);
    var w := BeginOn(env, initial, sources);
    var turn := (v: Work<G>, n: nat) => TurnOn(env, budget, v, n);
    var inv := (v: Work<G>) => Running(env, budget, v) && InLine(budget, initial, v);
    forall v, n | inv(v) ensures inv(WorkOf(turn(v, n))) {
      TurnRunning(env, budget, v, n);
      TurnInLine(env, budget, initial, v, n);
    }
    var last, p := LoopEnds(turn, budget.maxIterations, w, 0, inv);
    var e := LoopOn(env, budget, w, 0);
    if p < budget.maxIterations {
      TurnInLine(env, budget, initial, last, p);
    }
    if !e.work.finished {
      PollKeepsScopes(env, e.work, |e.work.feeds|, true);
    }
  }

  lemma {:induction false} SweepFinishes<G>(env: Env<G>, budget: Budget, w: Work<G>, pending: seq<IpNet>, i: nat, pass: nat, j: nat)
    requires i <= j < |pending|
    ensures var scopes := SweepFrom(env, budget, w, pending, i, pass).state.scopes;
            pending[j] in scopes || |scopes| >= budget.maxScopes
    decreases |pending| - i
  {
    SweepGrows(env, budget, w, pending, i, pass);
    if i < j && |w.state.scopes| < budget.maxScopes {
      SweepFinishes(env, budget, Done(env, w, Swept(pass, pending[i])), pending, i + 1, pass, j);
    }
  }

  /** A pass with work to do does all of it: every device outstanding is asked, every pending network swept while the budget lasts. */
  lemma PassDoesItsWork<G>(env: Env<G>, budget: Budget, w: Work<G>, pending: seq<IpNet>, pass: nat)
    ensures var r := AdvanceOn(env, budget, w, pending, pass);
            && (forall n :: n in pending ==> n in r.state.scopes || |r.state.scopes| >= budget.maxScopes)
            && (forall t :: t in Outstanding(env, MergeOn(env, w).state) ==> t.device in r.state.interrogated)
  {
    var asked := AskOn(env, MergeOn(env, w), pass);
    forall j | 0 <= j < |pending|
      ensures var scopes := SweepFrom(env, budget, asked, pending, 0, pass).state.scopes;
              pending[j] in scopes || |scopes| >= budget.maxScopes
    {
      SweepFinishes(env, budget, asked, pending, 0, pass, j);
    }
    SweepKeepsAsked(env, budget, asked, pending, 0, pass);
  }

  lemma {:induction false} SweepKeepsAsked<G>(env: Env<G>, budget: Budget, w: Work<G>, pending: seq<IpNet>, i: nat, pass: nat)
    requires i <= |pending|
    ensures SweepFrom(env, budget, w, pending, i, pass).state.interrogated == w.state.interrogated
    decreases |pending| - i
  {
    if i < |pending| && |w.state.scopes| < budget.maxScopes {
      SweepKeepsAsked(env, budget, Done(env, w, Swept(pass, pending[i])), pending, i + 1, pass);
    }
  }
}
