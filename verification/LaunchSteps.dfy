/**
 What holds after a launch because every single step keeps it: one induction over the steps
 of a call for all the properties that are preserved step by step.
 */
module LaunchSteps {
  import opened Wrappers
  import opened LaunchConfig
  import opened LaunchState
  import opened LaunchSpec

  // The rows and the traces that commits and restarts leave; sessions, prompts, launch
  // commands and the caller's object may differ.
  predicate SameRows(w: World, w': World) {
    w'.db == w.db && w'.commits == w.commits && w'.nextId == w.nextId && w'.relaunches == w.relaunches
  }

  // A property of rows and commits that outside commits and a launch's waits keep.
  ghost predicate Stable(P: World -> bool) {
    && (forall w, e {:trigger CommitOther(w, e)} :: P(w) ==> P(CommitOther(w, e)))
    && (forall w {:trigger Commit(w, w.db)} :: P(w) ==> P(Commit(w, w.db)))
    && (forall w, w' {:trigger SameRows(w, w')} :: SameRows(w, w') && P(w) ==> P(w'))
  }

  lemma {:induction false} OthersPreserve(P: World -> bool, w: World, acts: seq<EnvAction>)
    requires Stable(P) && P(w)
    ensures P(Others(w, acts))
    decreases |acts|
  {
    if acts != [] { OthersPreserve(P, CommitOther(w, acts[0]), acts[1..]); }
  }

  // Outside commits touch the rows and nothing else.
  lemma {:induction false} OthersTouch(w: World, acts: seq<EnvAction>)
    ensures var r := Others(w, acts);
            && r == w.(db := r.db, commits := r.commits)
            && r.db.agents.Keys == w.db.agents.Keys && r.db.tasks.Keys == w.db.tasks.Keys
    decreases |acts|
  {
    if acts != [] { OthersTouch(CommitOther(w, acts[0]), acts[1..]); }
  }

  // ------------------------------------------------------------- one attempt

  lemma BlockingStepPreserves(P: World -> bool, w: World, a: AgentId, t: TaskId, s: Attempt)
    requires Stable(P) && P(w)
    ensures var r := BlockingStep(w, a, t, s).w; P(r) && r.nextId == w.nextId
  {
    var w1 := Others(w, s.afterRecord);
    OthersPreserve(P, w, s.afterRecord);
    OthersTouch(w, s.afterRecord);
    var c := Commit(w1, w1.db);
    OthersPreserve(P, c, s.duringScan);
    OthersTouch(c, s.duringScan);
    var r := BlockingStep(w, a, t, s).w;
    if s.blockingStep && Doomed(w1.db, a, t) { assert SameRows(w1, r); }
  }

  lemma DeliverPreserves(P: World -> bool, w: World, a: AgentId, t: TaskId, s: Attempt)
    requires Stable(P) && P(w)
    ensures var r := Deliver(w, a, t, s).w; P(r) && r.nextId == w.nextId
  {
    var w1 := Others(w, s.duringReady);
    OthersPreserve(P, w, s.duringReady);
    OthersTouch(w, s.duringReady);
    if Doomed(w1.db, a, t) {
      assert SameRows(w1, Deliver(w, a, t, s).w);
    } else {
      var w2 := Others(w1, s.beforePrompt);
      OthersPreserve(P, w1, s.beforePrompt);
      OthersTouch(w1, s.beforePrompt);
      var w3 := w2.(prompts := w2.prompts + [a]);
      assert SameRows(w2, w3);
      OthersPreserve(P, w3, s.afterPrompt);
      OthersTouch(w3, s.afterPrompt);
    }
  }

  lemma AfterLaunchPreserves(P: World -> bool, w: World, a: AgentId, t: TaskId, s: Attempt)
    requires Stable(P) && P(w)
    ensures var r := AfterLaunch(w, a, t, s).w; P(r) && r.nextId == w.nextId
  {
    BlockingStepPreserves(P, w, a, t, s);
    var b := BlockingStep(w, a, t, s);
    if b.Going? { DeliverPreserves(P, b.w, a, t, s); }
  }

  lemma PreparePreserves(P: World -> bool, w: World, a: AgentId, s: Attempt)
    requires Stable(P) && P(w)
    ensures var r := Prepare(w, a, s).w; P(r) && r.nextId == w.nextId
  {
    OthersPreserve(P, w, s.duringPrep);
    OthersTouch(w, s.duringPrep);
    assert SameRows(Others(w, s.duringPrep), Prepare(w, a, s).w);
  }

  // Recording the agent keeps the property, for worlds with these ids.
  ghost predicate KeptByRecord(P: World -> bool, a: AgentId, cli: Tool, t: TaskId, nextId: AgentId) {
    forall x {:trigger Record(x.db, a, cli, t)} ::
      P(x) && x.nextId == nextId ==> P(Commit(x, Record(x.db, a, cli, t)))
  }

  lemma LaunchPreserves(P: World -> bool, w: World, a: AgentId, cli: Tool, t: TaskId, s: Attempt)
    requires Stable(P) && P(w) && KeptByRecord(P, a, cli, t, w.nextId)
    ensures var r := Launch(w, a, cli, t, s).w; P(r) && r.nextId == w.nextId
  {
    var w1 := Others(w, s.duringLaunch);
    OthersPreserve(P, w, s.duringLaunch);
    OthersTouch(w, s.duringLaunch);
    var w2 := w1.(starts := w1.starts + [Start(a, cli)]);
    var w3 := w2.(mem := w2.mem.(status := InProgress, owner := Some(a)));
    assert SameRows(w1, w2) && SameRows(w1, w3);
    assert P(Commit(w3, Record(w3.db, a, cli, t)));
  }

  lemma AttemptPreserves(P: World -> bool, w: World, a: AgentId, cli: Tool, t: TaskId, s: Attempt)
    requires Stable(P) && P(w) && KeptByRecord(P, a, cli, t, w.nextId)
    ensures var p := RunAttempt(w, a, cli, t, s); P(p.w) && p.w.nextId == w.nextId && !p.Going?
  {
    PreparePreserves(P, w, a, s);
    var p := Prepare(w, a, s);
    if p.Going? {
      LaunchPreserves(P, p.w, a, cli, t, s);
      var l := Launch(p.w, a, cli, t, s);
      if l.Going? { AfterLaunchPreserves(P, l.w, a, t, s); }
    }
  }

  ghost function Anything(): World -> bool { (w: World) => true }

  // An attempt makes no agents, and it returns or fails.
  lemma AttemptIds(w: World, a: AgentId, cli: Tool, t: TaskId, s: Attempt)
    ensures var p := RunAttempt(w, a, cli, t, s); p.w.nextId == w.nextId && !p.Going?
  {
    AttemptPreserves(Anything(), w, a, cli, t, s);
  }

  // ------------------------------------------------------------- the whole call

  // Whatever a call commits for its own agents, which are numbered from `first` on.
  ghost predicate StableFor(P: World -> bool, t: TaskId, first: AgentId) {
    && (forall x, cli, g {:trigger Stubbed(x, cli, t, g)} :: P(x) && x.nextId >= first ==> P(Stubbed(x, cli, t, g)))
    && (forall x, b, cli {:trigger Record(x.db, b, cli, t)} ::
          P(x) && first <= b < x.nextId ==> P(Commit(x, Record(x.db, b, cli, t))))
    && (forall x, b {:trigger Terminate(x.db, b)} ::
          P(x) && first <= b < x.nextId ==>
            P(Commit(x, Terminate(x.db, b))) && P(Commit(x, FailTask(Terminate(x.db, b), t))))
  }

  lemma FallbackPreserves(P: World -> bool, w: World, t: TaskId, first: AgentId, a: AgentId, bound: bool, s: Attempt)
    requires Stable(P) && StableFor(P, t, first) && P(w) && first <= a < w.nextId
    ensures var r := BeforeFallback(w, a, bound, s); P(r) && r.nextId == w.nextId
  {
    var w1 := Others(w, s.beforeFallback);
    OthersPreserve(P, w, s.beforeFallback);
    OthersTouch(w, s.beforeFallback);
    var w2 := Kill(w1, a, bound && s.killOk);
    assert SameRows(w1, w2);
    assert P(Commit(w2, Terminate(w2.db, a)));
  }

  lemma CleanupPreserves(P: World -> bool, w: World, t: TaskId, first: AgentId, a: AgentId, bound: bool, s: Attempt)
    requires Stable(P) && StableFor(P, t, first) && P(w) && first <= a < w.nextId
    ensures var r := Cleanup(w, a, t, bound, s); P(r) && r.nextId == w.nextId
  {
    var w1 := Others(w, s.beforeCleanup);
    OthersPreserve(P, w, s.beforeCleanup);
    OthersTouch(w, s.beforeCleanup);
    var w2 := Kill(w1, a, bound && s.finalKillOk);
    assert SameRows(w1, w2);
    assert P(Commit(w2, FailTask(Terminate(w2.db, a), t)));
  }

  // The guards pass and the stub is committed.
  predicate MakesStub(w: World, t: TaskId, phase: Option<PhaseId>, plan: seq<Attempt>)
    requires plan != []
  {
    FirstActive(w.db, t, 0, w.nextId).None? && !SiblingActive(w.db, t, phase) && plan[0].stubOk
  }

  lemma NewAttemptPreserves(P: World -> bool, w: World, cli: Tool, t: TaskId, first: AgentId, assign: bool, s: Attempt)
    requires Stable(P) && StableFor(P, t, first) && P(w) && w.nextId >= first
    ensures var p := RunAttempt(Stubbed(w, cli, t, assign), w.nextId, cli, t, s);
            P(p.w) && p.w.nextId == w.nextId + 1 && !p.Going?
  {
    var w0 := Stubbed(w, cli, t, assign);
    assert KeptByRecord(P, w.nextId, cli, t, w0.nextId);
    AttemptPreserves(P, w0, w.nextId, cli, t, s);
  }

  lemma {:induction false} CreatePreserves(P: World -> bool, cfg: Config, w: World, t: TaskId, phase: Option<PhaseId>,
                                           assign: bool, q: Request, plan: seq<Attempt>, first: AgentId)
    requires Stable(P) && StableFor(P, t, first) && P(w) && w.nextId >= first && |plan| > Rank(cfg, q)
    ensures var r := Create(cfg, w, t, phase, assign, q, plan).0; P(r) && r.nextId >= w.nextId
    decreases Rank(cfg, q)
  {
    if MakesStub(w, t, phase, plan) {
      var pc, a, s := Resolve(cfg, q), w.nextId, plan[0];
      NewAttemptPreserves(P, w, pc.cli, t, first, assign, s);
      var p := RunAttempt(Stubbed(w, pc.cli, t, assign), a, pc.cli, t, s);
      if p.Failing? {
        if FallsBack(pc) {
          FallbackLowersRank(cfg, q);
          FallbackPreserves(P, p.w, t, first, a, p.bound, s);
          var w1, q' := BeforeFallback(p.w, a, p.bound, s), FallbackRequest(pc, q);
          CreatePreserves(P, cfg, w1, t, phase, false, q', plan[1..], first);
          CleanupPreserves(P, Create(cfg, w1, t, phase, false, q', plan[1..]).0, t, first, a, p.bound, s);
        } else {
          CleanupPreserves(P, p.w, t, first, a, p.bound, s);
        }
      }
    }
  }
}
