/**
 What a failed launch leaves behind.
 */
module LaunchCleanup {
  import opened Wrappers
  import opened LaunchConfig
  import opened LaunchState
  import opened LaunchSpec
  import opened LaunchSteps
  import opened LaunchRace

  // ------------------------------------------------------------- rows

  // Rows are never deleted.
  ghost function WithRows(agents: set<AgentId>, tasks: set<TaskId>): World -> bool {
    (w: World) => agents <= w.db.agents.Keys && tasks <= w.db.tasks.Keys
  }

  lemma WithRowsStable(agents: set<AgentId>, tasks: set<TaskId>, t: TaskId, first: AgentId)
    ensures Stable(WithRows(agents, tasks)) && StableFor(WithRows(agents, tasks), t, first)
  {}

  lemma CreateKeepsRows(cfg: Config, w: World, t: TaskId, phase: Option<PhaseId>, assign: bool, q: Request,
                        plan: seq<Attempt>)
    requires |plan| > Rank(cfg, q)
    ensures var r := Create(cfg, w, t, phase, assign, q, plan).0;
            w.db.agents.Keys <= r.db.agents.Keys && w.db.tasks.Keys <= r.db.tasks.Keys
  {
    WithRowsStable(w.db.agents.Keys, w.db.tasks.Keys, t, 0);
    CreatePreserves(WithRows(w.db.agents.Keys, w.db.tasks.Keys), cfg, w, t, phase, assign, q, plan, 0);
  }

  // ------------------------------------------------------------- sessions

  ghost predicate SessionsBelow(w: World) {
    forall x :: x in w.sessions ==> x.agent < w.nextId
  }

  // Only the session of agent a may differ.
  ghost predicate OnlySessionOf(w: World, r: World, a: AgentId) {
    forall x :: x != Session(a, false) ==> (x in r.sessions <==> x in w.sessions)
  }

  lemma AfterLaunchSessions(w: World, a: AgentId, t: TaskId, s: Attempt)
    ensures var p := AfterLaunch(w, a, t, s);
            !p.Going? && OnlySessionOf(w, p.w, a) && (p.Failing? ==> p.bound && p.w.sessions == w.sessions)
  {
    OthersTouch(w, s.afterRecord);
    var w1 := Others(w, s.afterRecord);
    OthersTouch(Commit(w1, w1.db), s.duringScan);
    var b := BlockingStep(w, a, t, s);
    if b.Going? {
      var w2 := Others(b.w, s.duringReady);
      OthersTouch(b.w, s.duringReady);
      OthersTouch(w2, s.beforePrompt);
      var w3 := Others(w2, s.beforePrompt);
      OthersTouch(w3.(prompts := w3.prompts + [a]), s.afterPrompt);
    }
  }

  lemma AttemptSessions(w: World, a: AgentId, cli: Tool, t: TaskId, s: Attempt)
    requires Session(a, false) !in w.sessions
    ensures var p := RunAttempt(w, a, cli, t, s);
            && OnlySessionOf(w, p.w, a)
            && (p.Failing? ==>
                 && p.bound == s.prepared
                 && (Session(a, false) in p.w.sessions <==> s.prepared || s.sessionCreated))
  {
    OthersTouch(w, s.duringPrep);
    var p := Prepare(w, a, s);
    if p.Going? {
      OthersTouch(p.w, s.duringLaunch);
      var l := Launch(p.w, a, cli, t, s);
      if l.Going? { AfterLaunchSessions(l.w, a, t, s); }
    }
  }

  // Stub and attempt together.
  lemma NewAttemptSessions(w: World, cli: Tool, t: TaskId, assign: bool, s: Attempt)
    requires SessionsBelow(w)
    ensures var p := RunAttempt(Stubbed(w, cli, t, assign), w.nextId, cli, t, s);
            && !p.Going? && p.w.nextId == w.nextId + 1 && OnlySessionOf(w, p.w, w.nextId) && SessionsBelow(p.w)
            && (p.Failing? ==>
                 && p.bound == s.prepared
                 && (Session(w.nextId, false) in p.w.sessions <==> s.prepared || s.sessionCreated))
  {
    var w0 := Stubbed(w, cli, t, assign);
    AttemptSessions(w0, w.nextId, cli, t, s);
    AttemptIds(w0, w.nextId, cli, t, s);
  }

  // Sessions of earlier agents are left alone.
  ghost predicate Extends(w: World, r: World) {
    && w.nextId <= r.nextId && SessionsBelow(r)
    && forall x: Session :: x.agent < w.nextId ==> (x in r.sessions <==> x in w.sessions)
  }

  lemma FallbackSessions(w: World, a: AgentId, bound: bool, s: Attempt)
    ensures var r := BeforeFallback(w, a, bound, s);
            && r.nextId == w.nextId
            && r.sessions == if bound && s.killOk then w.sessions - {Session(a, false)} else w.sessions
  {
    OthersTouch(w, s.beforeFallback);
  }

  lemma CleanupSessions(w: World, a: AgentId, t: TaskId, bound: bool, s: Attempt)
    ensures var r := Cleanup(w, a, t, bound, s);
            && r.nextId == w.nextId
            && r.sessions == if bound && s.finalKillOk then w.sessions - {Session(a, false)} else w.sessions
  {
    OthersTouch(w, s.beforeCleanup);
  }

  lemma {:induction false} CreateExtends(cfg: Config, w: World, t: TaskId, phase: Option<PhaseId>, assign: bool,
                                         q: Request, plan: seq<Attempt>)
    requires SessionsBelow(w) && |plan| > Rank(cfg, q)
    ensures var r := Create(cfg, w, t, phase, assign, q, plan).0;
            Extends(w, r) && r.nextId - w.nextId <= |plan|
    decreases Rank(cfg, q)
  {
    if MakesStub(w, t, phase, plan) {
      var pc, a, s := Resolve(cfg, q), w.nextId, plan[0];
      NewAttemptSessions(w, pc.cli, t, assign, s);
      var p := RunAttempt(Stubbed(w, pc.cli, t, assign), a, pc.cli, t, s);
      if p.Failing? {
        if FallsBack(pc) {
          FallbackLowersRank(cfg, q);
          FallbackSessions(p.w, a, p.bound, s);
          var w1, q' := BeforeFallback(p.w, a, p.bound, s), FallbackRequest(pc, q);
          CreateExtends(cfg, w1, t, phase, false, q', plan[1..]);
          CleanupSessions(Create(cfg, w1, t, phase, false, q', plan[1..]).0, a, t, p.bound, s);
        } else {
          CleanupSessions(p.w, a, t, p.bound, s);
        }
      }
    }
  }

  // ------------------------------------------------------------- what a raised call leaves

  // A session made inside a preparation that itself raises is never bound by the caller, so
  // nobody kills it; a bound one survives if every attempt to kill it fails.
  predicate Survives(s: Attempt, fellBack: bool) {
    (s.prepared || s.sessionCreated) && !(s.prepared && (s.finalKillOk || (fellBack && s.killOk)))
  }

  // Of the agents lo, lo + 1, ... that the attempts made; all but the last of `tries`
  // attempts fell back.
  ghost predicate CleanedUp(r: World, lo: AgentId, plan: seq<Attempt>, tries: nat) {
    && lo <= r.nextId <= lo + |plan|
    && (forall b :: lo <= b < r.nextId ==>
          (Session(b, false) in r.sessions <==> Survives(plan[b - lo], b - lo + 1 < tries)))
    && (forall b :: lo <= b < r.nextId && (plan[b - lo].cleanupOk || b - lo + 1 < tries) ==> AgentTerminated(r.db, b))
  }

  lemma CleanupLeaves(w: World, a: AgentId, t: TaskId, bound: bool, s: Attempt)
    requires a in w.db.agents && t in w.db.tasks
    ensures var r := Cleanup(w, a, t, bound, s);
            && (forall b :: AgentTerminated(w.db, b) ==> AgentTerminated(r.db, b))
            && (s.cleanupOk ==> AgentTerminated(r.db, a) && t in r.db.tasks && r.db.tasks[t].status == Failed)
  {
    OthersTouch(w, s.beforeCleanup);
    forall b | AgentTerminated(w.db, b) ensures AgentTerminated(Others(w, s.beforeCleanup).db, b) {
      TerminatedStable(b);
      OthersPreserve(TerminatedIn(b), w, s.beforeCleanup);
    }
  }

  ghost function TerminatedIn(a: AgentId): World -> bool { (w: World) => AgentTerminated(w.db, a) }

  lemma TerminatedStable(a: AgentId)
    ensures Stable(TerminatedIn(a))
  {}

  // No step of a call for later agents brings an agent back.
  lemma TerminatedStableFor(a: AgentId, t: TaskId, first: AgentId)
    requires a < first
    ensures StableFor(TerminatedIn(a), t, first)
  {}

  lemma CleanedUpStep(w: World, a: AgentId, t: TaskId, s: Attempt, plan: seq<Attempt>, tries: nat)
    requires a in w.db.agents && t in w.db.tasks && plan != [] && plan[0] == s && tries >= 1
    requires Session(a, false) in w.sessions <==>
             (s.prepared || s.sessionCreated) && !(s.prepared && tries > 1 && s.killOk)
    requires tries > 1 ==> AgentTerminated(w.db, a)
    requires CleanedUp(w, a + 1, plan[1..], tries - 1)
    ensures CleanedUp(Cleanup(w, a, t, s.prepared, s), a, plan, tries)
  {
    CleanupLeaves(w, a, t, s.prepared, s);
    CleanupSessions(w, a, t, s.prepared, s);
    var r := Cleanup(w, a, t, s.prepared, s);
    forall b | a < b < r.nextId
      ensures Session(b, false) in r.sessions <==> Survives(plan[b - a], b - a + 1 < tries)
      ensures plan[b - a].cleanupOk || b - a + 1 < tries ==> AgentTerminated(r.db, b)
    {
      assert plan[1..][b - (a + 1)] == plan[b - a];
    }
  }

  // When the fallback raises as well, its duplicate guard has found the attempt's agent
  // gone, whether or not the terminate before it went through.
  lemma FellBackTerminated(cfg: Config, w: World, t: TaskId, phase: Option<PhaseId>, q: Request, plan: seq<Attempt>,
                           a: AgentId)
    requires |plan| > Rank(cfg, q) && ActiveUnlessTerminated(w.db, a, t) && a < w.nextId
    requires Create(cfg, w, t, phase, false, q, plan).1.Raised?
    ensures AgentTerminated(Create(cfg, w, t, phase, false, q, plan).0.db, a)
  {
    assert FirstActive(w.db, t, 0, w.nextId).None?;
    assert AgentTerminated(w.db, a);
    TerminatedStable(a);
    TerminatedStableFor(a, t, w.nextId);
    CreatePreserves(TerminatedIn(a), cfg, w, t, phase, false, q, plan, w.nextId);
  }

  // What a failed attempt of agent a leaves to its fallback, or to its cleanup.
  ghost predicate LeftBy(w: World, a: AgentId, t: TaskId, alive: bool) {
    && w.nextId == a + 1 && SessionsBelow(w) && a in w.db.agents && t in w.db.tasks
    && ActiveUnlessTerminated(w.db, a, t) && (Session(a, false) in w.sessions <==> alive)
  }

  lemma NewAttemptFailed(w: World, cli: Tool, t: TaskId, assign: bool, s: Attempt)
    requires SessionsBelow(w) && t in w.db.tasks
    ensures var a := w.nextId;
            var p := RunAttempt(Stubbed(w, cli, t, assign), a, cli, t, s);
            && !p.Going? && (p.Over? ==> !p.outcome.Raised?)
            && (p.Failing? ==> p.bound == s.prepared && LeftBy(p.w, a, t, s.prepared || s.sessionCreated))
  {
    var w0, a := Stubbed(w, cli, t, assign), w.nextId;
    NewAttemptSessions(w, cli, t, assign, s);
    WithRowsStable(w0.db.agents.Keys, w0.db.tasks.Keys, t, a);
    var P := WithRows(w0.db.agents.Keys, w0.db.tasks.Keys);
    assert KeptByRecord(P, a, cli, t, w0.nextId);
    AttemptPreserves(P, w0, a, cli, t, s);
    ActiveStable(a, t);
    ActiveStableFor(a, t, a);
    assert KeptByRecord(ActiveOn(a, t), a, cli, t, w0.nextId);
    AttemptPreserves(ActiveOn(a, t), w0, a, cli, t, s);
    LaunchedAgent(w0, a, cli, t, s);
  }

  lemma ReleasedAgent(w: World, t: TaskId, a: AgentId, s: Attempt)
    requires LeftBy(w, a, t, s.prepared || s.sessionCreated)
    ensures LeftBy(BeforeFallback(w, a, s.prepared, s), a, t,
                   (s.prepared || s.sessionCreated) && !(s.prepared && s.killOk))
  {
    FallbackSessions(w, a, s.prepared, s);
    ActiveStable(a, t);
    ActiveStableFor(a, t, a);
    FallbackPreserves(ActiveOn(a, t), w, t, a, a, s.prepared, s);
    OthersTouch(w, s.beforeFallback);
  }

  // Main result: whichever of its kills and cleanups succeed, a create call that raises
  // leaves exactly the sessions that were created and never successfully killed; every agent
  // whose attempt fell back or whose cleanup succeeded is terminated; and with the outermost
  // cleanup the task is failed, not pending, although termination releases it first.
  lemma {:induction false} CleanupComplete(cfg: Config, w: World, t: TaskId, phase: Option<PhaseId>, assign: bool,
                                           q: Request, plan: seq<Attempt>)
    requires SessionsBelow(w) && |plan| > Rank(cfg, q) && t in w.db.tasks
    requires Create(cfg, w, t, phase, assign, q, plan).1.Raised?
    ensures var r := Create(cfg, w, t, phase, assign, q, plan).0;
            && CleanedUp(r, w.nextId, plan, |Chain(cfg, q)|)
            && (r.nextId > w.nextId && plan[0].cleanupOk ==> t in r.db.tasks && r.db.tasks[t].status == Failed)
    decreases Rank(cfg, q)
  {
    if plan[0].stubOk {
      var pc, a, s := Resolve(cfg, q), w.nextId, plan[0];
      var p := RunAttempt(Stubbed(w, pc.cli, t, assign), a, pc.cli, t, s);
      NewAttemptFailed(w, pc.cli, t, assign, s);
      if FallsBack(pc) {
        FallbackLowersRank(cfg, q);
        var w1, q' := BeforeFallback(p.w, a, p.bound, s), FallbackRequest(pc, q);
        ReleasedAgent(p.w, t, a, s);
        CleanupComplete(cfg, w1, t, phase, false, q', plan[1..]);
        AfterFallback(cfg, w1, t, phase, q', plan, a);
        assert |Chain(cfg, q)| == |Chain(cfg, q')| + 1;
      } else {
        LastFailed(p.w, a, t, plan);
      }
    }
  }

  lemma LastFailed(w: World, a: AgentId, t: TaskId, plan: seq<Attempt>)
    requires plan != [] && LeftBy(w, a, t, plan[0].prepared || plan[0].sessionCreated)
    ensures var r := Cleanup(w, a, t, plan[0].prepared, plan[0]);
            CleanedUp(r, a, plan, 1) && (plan[0].cleanupOk ==> t in r.db.tasks && r.db.tasks[t].status == Failed)
  {
    assert CleanedUp(w, a + 1, plan[1..], 0);
    CleanedUpStep(w, a, t, plan[0], plan, 1);
    CleanupLeaves(w, a, t, plan[0].prepared, plan[0]);
  }

  // The cleanup behind a fallback that raised.
  lemma AfterFallback(cfg: Config, w: World, t: TaskId, phase: Option<PhaseId>, q: Request, plan: seq<Attempt>,
                      a: AgentId)
    requires plan != [] && |plan[1..]| > Rank(cfg, q)
    requires LeftBy(w, a, t, (plan[0].prepared || plan[0].sessionCreated) && !(plan[0].prepared && plan[0].killOk))
    requires var (w2, o) := Create(cfg, w, t, phase, false, q, plan[1..]);
             o.Raised? && CleanedUp(w2, a + 1, plan[1..], |Chain(cfg, q)|)
    ensures var r := Cleanup(Create(cfg, w, t, phase, false, q, plan[1..]).0, a, t, plan[0].prepared, plan[0]);
            && CleanedUp(r, a, plan, |Chain(cfg, q)| + 1)
            && (plan[0].cleanupOk ==> t in r.db.tasks && r.db.tasks[t].status == Failed)
  {
    var last := Create(cfg, w, t, phase, false, q, plan[1..]).0;
    NestedLeaves(cfg, w, t, phase, q, plan[1..], a);
    CreateKeepsRows(cfg, w, t, phase, false, q, plan[1..]);
    ChainBounded(cfg, q);
    CleanedUpStep(last, a, t, plan[0], plan, |Chain(cfg, q)| + 1);
    CleanupLeaves(last, a, t, plan[0].prepared, plan[0]);
  }

  lemma NestedLeaves(cfg: Config, w: World, t: TaskId, phase: Option<PhaseId>, q: Request, plan: seq<Attempt>,
                     a: AgentId)
    requires |plan| > Rank(cfg, q) && SessionsBelow(w) && ActiveUnlessTerminated(w.db, a, t) && a < w.nextId
    requires t in w.db.tasks && a in w.db.agents && Create(cfg, w, t, phase, false, q, plan).1.Raised?
    ensures var r := Create(cfg, w, t, phase, false, q, plan).0;
            && AgentTerminated(r.db, a) && t in r.db.tasks
            && (Session(a, false) in r.sessions <==> Session(a, false) in w.sessions)
  {
    FellBackTerminated(cfg, w, t, phase, q, plan, a);
    CreateKeepsRows(cfg, w, t, phase, false, q, plan);
    CreateExtends(cfg, w, t, phase, false, q, plan);
  }
}
