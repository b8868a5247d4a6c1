/**
 A task claimed in the same commit as its stub agent: until somebody else terminates the
 agent or rewrites the task, every committed state, and so every state a crash can leave
 behind, has the two rows agree.
 */
module LaunchClaim {
  import opened Wrappers
  import opened LaunchConfig
  import opened LaunchState
  import opened LaunchSpec
  import opened LaunchSteps
  import opened LaunchProofs
  import opened LaunchRace

  // An agent that points at the task implies the task is in progress and points back.
  predicate Linked(db: Db, a: AgentId, t: TaskId) {
    a in db.agents && db.agents[a].task == Some(t) ==>
      t in db.tasks && db.tasks[t].status == InProgress && db.tasks[t].owner == Some(a)
  }

  // The same-commit claim is what makes the stub's own commit agree.
  lemma StubLinkedIff(db: Db, a: AgentId, cli: Tool, t: TaskId, assign: bool)
    requires t in db.tasks && db.tasks[t].owner != Some(a)
    ensures Linked(InsertStub(db, a, cli, t, assign), a, t) <==> assign
  {}

  // Other code that terminates the agent or rewrites the task.
  predicate Disturbs(x: Entry, a: AgentId, t: TaskId) {
    x.Other? && match x.act
                case EnvTerminate(b) => b == a
                case EnvTask(u, _, _) => u == t
  }

  // None of the commits from index `from` on disturbs.
  predicate Quiet(cs: seq<Entry>, from: nat, a: AgentId, t: TaskId) {
    |cs| <= from || (!Disturbs(cs[|cs| - 1], a, t) && Quiet(cs[..|cs| - 1], from, a, t))
  }

  // Every commit from index `from` on that comes before the first disturbing one agrees.
  predicate LinkedWhileQuiet(cs: seq<Entry>, from: nat, a: AgentId, t: TaskId) {
    || |cs| <= from
    || ((Quiet(cs, from, a, t) ==> Linked(cs[|cs| - 1].db, a, t)) && LinkedWhileQuiet(cs[..|cs| - 1], from, a, t))
  }

  predicate QuietUpTo(cs: seq<Entry>, from: nat, k: int, a: AgentId, t: TaskId)
    requires k < |cs|
  {
    forall j :: from <= j <= k ==> !Disturbs(cs[j], a, t)
  }

  lemma {:induction false} QuietMeans(cs: seq<Entry>, from: nat, a: AgentId, t: TaskId)
    ensures Quiet(cs, from, a, t) <==> QuietUpTo(cs, from, |cs| - 1, a, t)
  {
    if |cs| > from {
      var front := cs[..|cs| - 1];
      QuietMeans(front, from, a, t);
      assert forall j :: from <= j < |front| ==> front[j] == cs[j];
    }
  }

  // What LinkedWhileQuiet says of each single commit.
  lemma {:induction false} LinkedUntil(cs: seq<Entry>, from: nat, a: AgentId, t: TaskId, k: nat)
    requires LinkedWhileQuiet(cs, from, a, t) && from <= k < |cs| && QuietUpTo(cs, from, k, a, t)
    ensures Linked(cs[k].db, a, t)
  {
    if k == |cs| - 1 {
      QuietMeans(cs, from, a, t);
    } else {
      LinkedUntil(cs[..|cs| - 1], from, a, t, k);
    }
  }

  // ------------------------------------------------------------- what each step keeps

  predicate Claimed(db: Db, a: AgentId, t: TaskId) {
    Active(db, a, t) && t in db.tasks && db.tasks[t].status == InProgress && db.tasks[t].owner == Some(a)
  }

  predicate Freed(db: Db, a: AgentId) { AgentTerminated(db, a) && db.agents[a].task == None }

  // So far so good, and if it is still quiet the agent holds the task, or, once its own
  // launch has given up on it, is terminated.
  predicate Keeps(w: World, from: nat, a: AgentId, t: TaskId, freed: bool) {
    && from <= |w.commits| && LinkedWhileQuiet(w.commits, from, a, t)
    && (Quiet(w.commits, from, a, t) ==> if freed then Freed(w.db, a) else Claimed(w.db, a, t))
  }

  lemma CommitKeeps(w: World, d: Db, from: nat, a: AgentId, t: TaskId, freed: bool, freed': bool)
    requires Keeps(w, from, a, t, freed)
    requires (if freed then Freed(w.db, a) else Claimed(w.db, a, t)) ==>
             if freed' then Freed(d, a) else Claimed(d, a, t)
    ensures Keeps(Commit(w, d), from, a, t, freed')
  {
    var cs := w.commits + [Own(d)];
    assert cs[..|cs| - 1] == w.commits;
  }

  lemma CommitOtherKeeps(w: World, e: EnvAction, from: nat, a: AgentId, t: TaskId, freed: bool)
    requires Keeps(w, from, a, t, freed)
    ensures Keeps(CommitOther(w, e), from, a, t, freed)
  {
    var cs := w.commits + [Other(Apply(w.db, e), e)];
    assert cs[..|cs| - 1] == w.commits;
  }

  ghost function Keeping(from: nat, a: AgentId, t: TaskId, freed: bool): World -> bool {
    (w: World) => Keeps(w, from, a, t, freed)
  }

  lemma KeepingStable(from: nat, a: AgentId, t: TaskId, freed: bool)
    ensures Stable(Keeping(from, a, t, freed))
  {
    var P := Keeping(from, a, t, freed);
    forall w, e | P(w) ensures P(CommitOther(w, e)) { CommitOtherKeeps(w, e, from, a, t, freed); }
    forall w {:trigger Commit(w, w.db)} | P(w) ensures P(Commit(w, w.db)) {
      CommitKeeps(w, w.db, from, a, t, freed, freed);
    }
    forall w, w' | SameRows(w, w') && P(w) ensures P(w') { SameRowsKeep(w, w', from, a, t, freed); }
  }

  lemma SameRowsKeep(w: World, w': World, from: nat, a: AgentId, t: TaskId, freed: bool)
    requires SameRows(w, w') && Keeps(w, from, a, t, freed)
    ensures Keeps(w', from, a, t, freed)
  {}

  // The record of the claiming agent itself.
  lemma KeepingByRecord(from: nat, a: AgentId, cli: Tool, t: TaskId, nextId: AgentId)
    ensures KeptByRecord(Keeping(from, a, t, false), a, cli, t, nextId)
  {
    forall x | Keeps(x, from, a, t, false) ensures Keeps(Commit(x, Record(x.db, a, cli, t)), from, a, t, false) {
      CommitKeeps(x, Record(x.db, a, cli, t), from, a, t, false, false);
    }
  }

  // Later agents, once the claiming one was freed.
  lemma KeepingStableFor(from: nat, a: AgentId, t: TaskId)
    ensures StableFor(Keeping(from, a, t, true), t, a + 1)
  {
    var P := Keeping(from, a, t, true);
    forall x, cli, g | P(x) && x.nextId >= a + 1 ensures P(Stubbed(x, cli, t, g)) {
      CommitKeeps(x, InsertStub(x.db, x.nextId, cli, t, g), from, a, t, true, true);
    }
    forall x, b, cli | P(x) && a + 1 <= b < x.nextId ensures P(Commit(x, Record(x.db, b, cli, t))) {
      CommitKeeps(x, Record(x.db, b, cli, t), from, a, t, true, true);
    }
    forall x, b | P(x) && a + 1 <= b < x.nextId
      ensures P(Commit(x, Terminate(x.db, b))) && P(Commit(x, FailTask(Terminate(x.db, b), t)))
    {
      CommitKeeps(x, Terminate(x.db, b), from, a, t, true, true);
      CommitKeeps(x, FailTask(Terminate(x.db, b), t), from, a, t, true, true);
    }
  }

  // Giving up on the claiming agent frees it.
  lemma ReleaseKeeps(w: World, bound: bool, s: Attempt, t: TaskId, from: nat, a: AgentId, freed: bool)
    requires Keeps(w, from, a, t, freed)
    ensures Keeps(BeforeFallback(w, a, bound, s), from, a, t, freed || s.terminateOk)
  {
    var w1 := Kill(Others(w, s.beforeFallback), a, bound && s.killOk);
    KeepingStable(from, a, t, freed);
    OthersPreserve(Keeping(from, a, t, freed), w, s.beforeFallback);
    CommitKeeps(w1, Terminate(w1.db, a), from, a, t, freed, true);
  }

  lemma GiveUpKeeps(w: World, bound: bool, s: Attempt, t: TaskId, from: nat, a: AgentId, freed: bool)
    requires Keeps(w, from, a, t, freed)
    ensures Keeps(Cleanup(w, a, t, bound, s), from, a, t, freed || s.cleanupOk)
  {
    var w1 := Kill(Others(w, s.beforeCleanup), a, bound && s.finalKillOk);
    KeepingStable(from, a, t, freed);
    OthersPreserve(Keeping(from, a, t, freed), w, s.beforeCleanup);
    CommitKeeps(w1, FailTask(Terminate(w1.db, a), t), from, a, t, freed, true);
  }

  // The fallback after the claiming attempt: either its agent was freed, or it is found
  // again by the duplicate guard, or it was disturbed and nothing is promised any more.
  lemma FallbackAfterClaim(cfg: Config, w: World, t: TaskId, phase: Option<PhaseId>, q: Request, plan: seq<Attempt>,
                           from: nat, a: AgentId, freed: bool, s: Attempt, bound: bool)
    requires |plan| > Rank(cfg, q) && a < w.nextId && Keeps(w, from, a, t, freed)
    ensures var (r, o) := Create(cfg, w, t, phase, false, q, plan);
            && LinkedWhileQuiet(r.commits, from, a, t)
            && (o.Raised? ==> LinkedWhileQuiet(Cleanup(r, a, t, bound, s).commits, from, a, t))
  {
    if !freed && Quiet(w.commits, from, a, t) {
      var found := FirstActive(w.db, t, 0, w.nextId);
      assert found.Some?;
    } else {
      assert Keeps(w, from, a, t, true);
      KeepingStable(from, a, t, true);
      KeepingStableFor(from, a, t);
      CreatePreserves(Keeping(from, a, t, true), cfg, w, t, phase, false, q, plan, a + 1);
      GiveUpKeeps(Create(cfg, w, t, phase, false, q, plan).0, bound, s, t, from, a, true);
    }
  }

  lemma AssignedCall(cfg: Config, w: World, t: TaskId, phase: Option<PhaseId>, q: Request, plan: seq<Attempt>)
    requires |plan| > Rank(cfg, q) && t in w.db.tasks
    ensures var (r, o) := Create(cfg, w, t, phase, true, q, plan);
            var from, a := |w.commits|, w.nextId;
            && LinkedWhileQuiet(r.commits, from, a, t)
            && (o == Launched(a) && Quiet(r.commits, from, a, t) ==> MemAgrees(r, t))
  {
    if FirstActive(w.db, t, 0, w.nextId).None? && !SiblingActive(w.db, t, phase) && plan[0].stubOk {
      var pc, a, s, from := Resolve(cfg, q), w.nextId, plan[0], |w.commits|;
      var w0 := Stubbed(w, pc.cli, t, true);
      assert w0.commits[..from] == w.commits;
      assert Keeps(w0, from, a, t, false);
      KeepingStable(from, a, t, false);
      KeepingByRecord(from, a, pc.cli, t, w0.nextId);
      AttemptPreserves(Keeping(from, a, t, false), w0, a, pc.cli, t, s);
      var p := RunAttempt(w0, a, pc.cli, t, s);
      if p.Over? {
        LaunchedMem(w0, a, pc.cli, t, s);
      } else if FallsBack(pc) {
        FallbackLowersRank(cfg, q);
        ReleaseKeeps(p.w, p.bound, s, t, from, a, false);
        OthersFrame(p.w, s.beforeFallback);
        var w1, q' := BeforeFallback(p.w, a, p.bound, s), FallbackRequest(pc, q);
        FallbackAfterClaim(cfg, w1, t, phase, q', plan[1..], from, a, s.terminateOk, s, p.bound);
        LaterAgents(cfg, w1, t, phase, q', plan[1..]);
      } else {
        GiveUpKeeps(p.w, p.bound, s, t, from, a, false);
      }
    }
  }

  // Main result: whatever anybody commits at any wait of any attempt, every state committed
  // by or during a call before the first disturbing commit links the first attempt's agent
  // and its task if the call was made with `assign`, and only then. A launch that returns
  // undisturbed has written to the caller's object exactly what the database says.
  lemma AssignedUntilDisturbed(cfg: Config, w: World, t: TaskId, phase: Option<PhaseId>, assign: bool, q: Request,
                               plan: seq<Attempt>)
    requires |plan| > Rank(cfg, q) && t in w.db.tasks && w.db.tasks[t].owner != Some(w.nextId)
    ensures var (r, o) := Create(cfg, w, t, phase, assign, q, plan);
            var from, a := |w.commits|, w.nextId;
            && (r.nextId > a ==> (LinkedWhileQuiet(r.commits, from, a, t) <==> assign))
            && (assign && o == Launched(a) && Quiet(r.commits, from, a, t) ==> MemAgrees(r, t))
  {
    if assign {
      AssignedCall(cfg, w, t, phase, q, plan);
    } else if MakesStub(w, t, phase, plan) {
      var pc, from := Resolve(cfg, q), |w.commits|;
      var w0, r := Stubbed(w, pc.cli, t, false), Create(cfg, w, t, phase, false, q, plan).0;
      StubLinkedIff(w.db, w.nextId, pc.cli, t, false);
      FirstCommit(cfg, w, t, phase, q, plan);
      if LinkedWhileQuiet(r.commits, from, w.nextId, t) {
        LinkedUntil(r.commits, from, w.nextId, t, from);
      }
    }
  }

  // Commits are only ever added.
  ghost function Having(i: nat, x: Entry): World -> bool {
    (w: World) => i < |w.commits| && w.commits[i] == x
  }

  lemma HavingStable(i: nat, x: Entry, t: TaskId, first: AgentId)
    ensures Stable(Having(i, x)) && StableFor(Having(i, x), t, first)
  {}

  // The stub is the first commit of a call.
  lemma FirstCommit(cfg: Config, w: World, t: TaskId, phase: Option<PhaseId>, q: Request, plan: seq<Attempt>)
    requires |plan| > Rank(cfg, q) && MakesStub(w, t, phase, plan)
    ensures var w0, r := Stubbed(w, Resolve(cfg, q).cli, t, false), Create(cfg, w, t, phase, false, q, plan).0;
            |r.commits| > |w.commits| && r.commits[|w.commits|] == Own(w0.db)
  {
    var pc, a, s := Resolve(cfg, q), w.nextId, plan[0];
    var w0 := Stubbed(w, pc.cli, t, false);
    var P := Having(|w.commits|, Own(w0.db));
    HavingStable(|w.commits|, Own(w0.db), t, a);
    assert KeptByRecord(P, a, pc.cli, t, w0.nextId);
    AttemptPreserves(P, w0, a, pc.cli, t, s);
    var p := RunAttempt(w0, a, pc.cli, t, s);
    if p.Failing? {
      if FallsBack(pc) {
        FallbackLowersRank(cfg, q);
        FallbackPreserves(P, p.w, t, a, a, p.bound, s);
        var w1, q' := BeforeFallback(p.w, a, p.bound, s), FallbackRequest(pc, q);
        CreatePreserves(P, cfg, w1, t, phase, false, q', plan[1..], a);
        CleanupPreserves(P, Create(cfg, w1, t, phase, false, q', plan[1..]).0, t, a, a, p.bound, s);
      } else {
        CleanupPreserves(P, p.w, t, a, a, p.bound, s);
      }
    }
  }

  lemma LaunchedMem(w: World, a: AgentId, cli: Tool, t: TaskId, s: Attempt)
    ensures var p := RunAttempt(w, a, cli, t, s);
            p.Over? && p.outcome == Launched(a) ==> p.w.mem.status == InProgress && p.w.mem.owner == Some(a)
  {
    OthersFrame(w, s.duringPrep);
    var p := Prepare(w, a, s);
    if p.Going? {
      OthersFrame(p.w, s.duringLaunch);
      var l := Launch(p.w, a, cli, t, s);
      if l.Going? { VerdictAfterLaunch(l.w, a, t, s); }
    }
  }

  // Agents that a call launches are new.
  lemma {:induction false} LaterAgents(cfg: Config, w: World, t: TaskId, phase: Option<PhaseId>, q: Request,
                                       plan: seq<Attempt>)
    requires |plan| > Rank(cfg, q)
    ensures var o := Create(cfg, w, t, phase, false, q, plan).1; o.Launched? ==> o.agent >= w.nextId
    decreases Rank(cfg, q)
  {
    if FirstActive(w.db, t, 0, w.nextId).None? && !SiblingActive(w.db, t, phase) && plan[0].stubOk {
      var pc, b, s := Resolve(cfg, q), w.nextId, plan[0];
      var w0 := Stubbed(w, pc.cli, t, false);
      LaunchedAgent(w0, b, pc.cli, t, s);
      AttemptIds(w0, b, pc.cli, t, s);
      var p := RunAttempt(w0, b, pc.cli, t, s);
      if p.Failing? && FallsBack(pc) {
        FallbackLowersRank(cfg, q);
        OthersFrame(p.w, s.beforeFallback);
        LaterAgents(cfg, BeforeFallback(p.w, b, p.bound, s), t, phase, FallbackRequest(pc, q), plan[1..]);
      }
    }
  }
}
