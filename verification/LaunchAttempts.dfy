/**
 The attempts of one create call run under the tools of the fallback chain, in order.
 */
module LaunchAttempts {
  import opened Wrappers
  import opened LaunchConfig
  import opened LaunchState
  import opened LaunchSpec
  import opened LaunchSteps

  // No row disappears or changes its tool.
  ghost predicate KeepsTools(w: World, r: World) {
    forall a :: a in w.db.agents ==> a in r.db.agents && r.db.agents[a].cli == w.db.agents[a].cli
  }

  ghost function ToolsOf(w: World): World -> bool {
    (r: World) => KeepsTools(w, r) && IdsBelow(r.db, r.nextId)
  }

  lemma ToolsStable(w: World)
    ensures Stable(ToolsOf(w))
  {}

  lemma ToolsByRecord(w: World, a: AgentId, cli: Tool, t: TaskId, nextId: AgentId)
    requires a in w.db.agents && w.db.agents[a].cli == cli && a < nextId
    ensures KeptByRecord(ToolsOf(w), a, cli, t, nextId)
  {}

  lemma AfterLaunchStarts(w: World, a: AgentId, t: TaskId, s: Attempt)
    ensures AfterLaunch(w, a, t, s).w.starts == w.starts
  {
    OthersTouch(w, s.afterRecord);
    var w1 := Others(w, s.afterRecord);
    OthersTouch(Commit(w1, w1.db), s.duringScan);
    var b := BlockingStep(w, a, t, s);
    if b.Going? {
      var w2 := Others(b.w, s.duringReady);
      OthersTouch(b.w, s.duringReady);
      OthersTouch(w2, s.beforePrompt);
      var w3 := Others(w2, s.beforePrompt);
      OthersTouch(w3.(prompts := w3.prompts + [a]), s.afterPrompt);
    }
  }

  lemma AttemptStarts(w: World, a: AgentId, cli: Tool, t: TaskId, s: Attempt)
    ensures var r := RunAttempt(w, a, cli, t, s).w; r.starts == w.starts || r.starts == w.starts + [Start(a, cli)]
  {
    OthersTouch(w, s.duringPrep);
    var p := Prepare(w, a, s);
    if p.Going? {
      OthersTouch(p.w, s.duringLaunch);
      var l := Launch(p.w, a, cli, t, s);
      if l.Going? { AfterLaunchStarts(l.w, a, t, s); }
    }
  }

  // Nothing made and nothing launched.
  ghost predicate Idle(w: World, r: World) {
    KeepsTools(w, r) && r.starts == w.starts && r.nextId == w.nextId && IdsBelow(r.db, r.nextId)
  }

  lemma FallbackIdle(w: World, a: AgentId, bound: bool, s: Attempt)
    requires IdsBelow(w.db, w.nextId)
    ensures Idle(w, BeforeFallback(w, a, bound, s))
  {
    ToolsStable(w);
    OthersPreserve(ToolsOf(w), w, s.beforeFallback);
    OthersTouch(w, s.beforeFallback);
  }

  lemma CleanupIdle(w: World, a: AgentId, t: TaskId, bound: bool, s: Attempt)
    requires IdsBelow(w.db, w.nextId)
    ensures Idle(w, Cleanup(w, a, t, bound, s))
  {
    ToolsStable(w);
    OthersPreserve(ToolsOf(w), w, s.beforeCleanup);
    OthersTouch(w, s.beforeCleanup);
  }

  // The agents a call has made carry the chain's tools in order, and each sent at most one
  // launch command.
  ghost predicate Made(w: World, r: World, chain: seq<Tool>) {
    && KeepsTools(w, r) && IdsBelow(r.db, r.nextId) && w.starts <= r.starts
    && |r.starts| - |w.starts| <= r.nextId - w.nextId
    && w.nextId <= r.nextId <= w.nextId + |chain|
    && forall b :: w.nextId <= b < r.nextId ==> b in r.db.agents && r.db.agents[b].cli == chain[b - w.nextId]
  }

  lemma AttemptKeepsTools(w: World, a: AgentId, cli: Tool, t: TaskId, s: Attempt)
    requires a in w.db.agents && w.db.agents[a].cli == cli && a < w.nextId && IdsBelow(w.db, w.nextId)
    ensures var p := RunAttempt(w, a, cli, t, s);
            !p.Going? && KeepsTools(w, p.w) && IdsBelow(p.w.db, p.w.nextId) && p.w.nextId == w.nextId
  {
    ToolsStable(w);
    ToolsByRecord(w, a, cli, t, w.nextId);
    AttemptPreserves(ToolsOf(w), w, a, cli, t, s);
  }

  lemma StubMade(w: World, r: World, cli: Tool, t: TaskId, assign: bool)
    requires IdsBelow(w.db, w.nextId) && KeepsTools(Stubbed(w, cli, t, assign), r) && IdsBelow(r.db, r.nextId)
    requires r.nextId == w.nextId + 1 && w.starts <= r.starts && |r.starts| <= |w.starts| + 1
    ensures Made(w, r, [cli])
  {}

  lemma AttemptMade(w: World, cli: Tool, t: TaskId, assign: bool, s: Attempt)
    requires IdsBelow(w.db, w.nextId)
    ensures var p := RunAttempt(Stubbed(w, cli, t, assign), w.nextId, cli, t, s);
            !p.Going? && Made(w, p.w, [cli]) && p.w.nextId == w.nextId + 1
  {
    var w0 := Stubbed(w, cli, t, assign);
    AttemptKeepsTools(w0, w.nextId, cli, t, s);
    AttemptStarts(w0, w.nextId, cli, t, s);
    StubMade(w, RunAttempt(w0, w.nextId, cli, t, s).w, cli, t, assign);
  }

  lemma MadeExtends(w: World, r: World, r': World, chain: seq<Tool>, longer: seq<Tool>)
    requires Made(w, r, chain) && chain <= longer && Idle(r, r')
    ensures Made(w, r', longer)
  {}

  lemma MadeTwice(w: World, w1: World, w2: World, cli: Tool, rest: seq<Tool>)
    requires Made(w, w1, [cli]) && w1.nextId == w.nextId + 1 && Made(w1, w2, rest)
    ensures Made(w, w2, [cli] + rest)
  {
    var chain := [cli] + rest;
    forall b | w.nextId <= b < w2.nextId ensures b in w2.db.agents && w2.db.agents[b].cli == chain[b - w.nextId] {
      if b > w.nextId { assert chain[b - w.nextId] == rest[b - w1.nextId]; }
    }
  }

  lemma LastMade(w: World, p: Progress, t: TaskId, a: AgentId, s: Attempt, chain: seq<Tool>)
    requires chain != [] && Made(w, p.w, [chain[0]])
    ensures Made(w, p.w, chain)
    ensures p.Failing? ==> Made(w, Cleanup(p.w, a, t, p.bound, s), chain)
  {
    assert [chain[0]] <= chain;
    if p.Failing? {
      CleanupIdle(p.w, a, t, p.bound, s);
      MadeExtends(w, p.w, Cleanup(p.w, a, t, p.bound, s), [chain[0]], chain);
    }
  }

  // A failed attempt, the release, the fallback's own attempts, and the cleanup after them.
  lemma FallbackMade(w: World, w0: World, cli: Tool, t: TaskId, a: AgentId, bound: bool, s: Attempt, w2: World,
                     rest: seq<Tool>)
    requires Made(w, w0, [cli]) && w0.nextId == w.nextId + 1 && Made(BeforeFallback(w0, a, bound, s), w2, rest)
    ensures Made(w, w2, [cli] + rest) && Made(w, Cleanup(w2, a, t, bound, s), [cli] + rest)
  {
    FallbackIdle(w0, a, bound, s);
    MadeExtends(w, w0, BeforeFallback(w0, a, bound, s), [cli], [cli]);
    MadeTwice(w, BeforeFallback(w0, a, bound, s), w2, cli, rest);
    CleanupIdle(w2, a, t, bound, s);
    MadeExtends(w, w2, Cleanup(w2, a, t, bound, s), [cli] + rest, [cli] + rest);
  }

  lemma MadeNothing(w: World, chain: seq<Tool>)
    requires IdsBelow(w.db, w.nextId)
    ensures Made(w, w, chain)
  {}

  // Main result: a call makes at most one agent, and sends at most one launch command, per
  // tool of its chain; with the bound on chains, three at most.
  lemma {:induction false} AttemptsFollowChain(cfg: Config, w: World, t: TaskId, phase: Option<PhaseId>, assign: bool,
                                               q: Request, plan: seq<Attempt>)
    requires |plan| > Rank(cfg, q) && IdsBelow(w.db, w.nextId)
    ensures Made(w, Create(cfg, w, t, phase, assign, q, plan).0, Chain(cfg, q))
    decreases Rank(cfg, q)
  {
    var pc, a := Resolve(cfg, q), w.nextId;
    if MakesStub(w, t, phase, plan) && FallsBack(pc)
       && RunAttempt(Stubbed(w, pc.cli, t, assign), a, pc.cli, t, plan[0]).Failing? {
      AttemptMade(w, pc.cli, t, assign, plan[0]);
      var p := RunAttempt(Stubbed(w, pc.cli, t, assign), a, pc.cli, t, plan[0]);
      FallbackLowersRank(cfg, q);
      var w1, q' := BeforeFallback(p.w, a, p.bound, plan[0]), FallbackRequest(pc, q);
      assert IdsBelow(w1.db, w1.nextId) by { FallbackIdle(p.w, a, p.bound, plan[0]); }
      AttemptsFollowChain(cfg, w1, t, phase, false, q', plan[1..]);
      FallbackMade(w, p.w, pc.cli, t, a, p.bound, plan[0],
                   Create(cfg, w1, t, phase, false, q', plan[1..]).0, Chain(cfg, q'));
    } else {
      WithoutFallback(cfg, w, t, phase, assign, q, plan);
    }
  }

  lemma WithoutFallback(cfg: Config, w: World, t: TaskId, phase: Option<PhaseId>, assign: bool, q: Request,
                        plan: seq<Attempt>)
    requires |plan| > Rank(cfg, q) && IdsBelow(w.db, w.nextId)
    requires var pc := Resolve(cfg, q);
             MakesStub(w, t, phase, plan) && FallsBack(pc) ==>
               !RunAttempt(Stubbed(w, pc.cli, t, assign), w.nextId, pc.cli, t, plan[0]).Failing?
    ensures Made(w, Create(cfg, w, t, phase, assign, q, plan).0, Chain(cfg, q))
  {
    var pc, a := Resolve(cfg, q), w.nextId;
    if MakesStub(w, t, phase, plan) {
      AttemptMade(w, pc.cli, t, assign, plan[0]);
      var p := RunAttempt(Stubbed(w, pc.cli, t, assign), a, pc.cli, t, plan[0]);
      assert Chain(cfg, q)[0] == pc.cli;
      LastMade(w, p, t, a, plan[0], Chain(cfg, q));
    } else {
      MadeNothing(w, Chain(cfg, q));
    }
  }
}
