/**
 What every run of launches, restarts and terminations keeps.
 */
module LaunchProofs {
  import opened Wrappers
  import opened LaunchConfig
  import opened LaunchState
  import opened LaunchSpec
  import opened LaunchSteps

  // ------------------------------------------------- one active agent per task

  ghost predicate Ok(w: World) {
    Sound(w.db, w.nextId) && forall c :: c in w.commits ==> Unique(c.db)
  }

  // During an attempt, its own agent is the only one that can be active on the task.
  ghost predicate Held(w: World, a: AgentId, t: TaskId) {
    Ok(w) && a < w.nextId && OnlyOn(w.db, a, t)
  }

  // Everyone else's commits touch the database and nothing else, and never bring a
  // terminated agent back.
  lemma {:induction false} OthersFrame(w: World, acts: seq<EnvAction>)
    ensures var r := Others(w, acts);
            && r == w.(db := r.db, commits := r.commits)
            && w.commits <= r.commits
            && (Sound(w.db, w.nextId) ==> forall b :: AgentTerminated(w.db, b) ==> AgentTerminated(r.db, b))
            && r.db.agents.Keys == w.db.agents.Keys && r.db.tasks.Keys == w.db.tasks.Keys
            && (Ok(w) ==> Ok(r))
    decreases |acts|
  {
    if acts != [] {
      var w1 := CommitOther(w, acts[0]);
      if Sound(w.db, w.nextId) { ApplySound(w.db, acts[0], w.nextId); }
      OthersFrame(w1, acts[1..]);
    }
  }

  ghost function HeldOn(a: AgentId, t: TaskId): World -> bool { (w: World) => Held(w, a, t) }

  lemma HeldStable(a: AgentId, t: TaskId)
    ensures Stable(HeldOn(a, t))
  {
    forall w, e | Held(w, a, t) ensures Held(CommitOther(w, e), a, t) { ApplySound(w.db, e, w.nextId); }
  }

  lemma HeldByRecord(a: AgentId, cli: Tool, t: TaskId, nextId: AgentId)
    ensures KeptByRecord(HeldOn(a, t), a, cli, t, nextId)
  {
    forall x | Held(x, a, t) ensures Held(Commit(x, Record(x.db, a, cli, t)), a, t) {
      RecordSound(x.db, a, cli, t, x.nextId);
    }
  }

  lemma AttemptHeld(w: World, a: AgentId, cli: Tool, t: TaskId, s: Attempt)
    requires Held(w, a, t)
    ensures var p := RunAttempt(w, a, cli, t, s); Held(p.w, a, t) && p.w.nextId == w.nextId && !p.Going?
  {
    HeldStable(a, t);
    HeldByRecord(a, cli, t, w.nextId);
    AttemptPreserves(HeldOn(a, t), w, a, cli, t, s);
  }

  lemma FallbackOk(w: World, a: AgentId, bound: bool, s: Attempt)
    requires Ok(w)
    ensures Ok(BeforeFallback(w, a, bound, s)) && BeforeFallback(w, a, bound, s).nextId == w.nextId
  {
    OthersFrame(w, s.beforeFallback);
    TerminateSound(Others(w, s.beforeFallback).db, a, w.nextId);
  }

  lemma CleanupOk(w: World, a: AgentId, t: TaskId, bound: bool, s: Attempt)
    requires Ok(w)
    ensures Ok(Cleanup(w, a, t, bound, s)) && Cleanup(w, a, t, bound, s).nextId == w.nextId
  {
    OthersFrame(w, s.beforeCleanup);
    var d := Others(w, s.beforeCleanup).db;
    TerminateSound(d, a, w.nextId);
    TasksDoNotMatter(Terminate(d, a), FailTask(Terminate(d, a), t), w.nextId);
  }

  lemma StubHeld(w: World, cli: Tool, t: TaskId, assign: bool)
    requires Ok(w) && FirstActive(w.db, t, 0, w.nextId).None?
    ensures Held(Stubbed(w, cli, t, assign), w.nextId, t)
  {
    StubSound(w.db, w.nextId, cli, t, assign);
  }

  // A create call keeps it through every attempt. When the terminate before a fallback
  // fails and is swallowed, the recursive call finds the failed agent still active and
  // stops at its own duplicate guard.
  lemma {:induction false} CreateOk(cfg: Config, w: World, t: TaskId, phase: Option<PhaseId>, assign: bool,
                                    q: Request, plan: seq<Attempt>)
    requires Ok(w) && |plan| > Rank(cfg, q)
    ensures Ok(Create(cfg, w, t, phase, assign, q, plan).0)
    ensures Create(cfg, w, t, phase, assign, q, plan).0.nextId >= w.nextId
    decreases Rank(cfg, q)
  {
    if FirstActive(w.db, t, 0, w.nextId).None? && !SiblingActive(w.db, t, phase) && plan[0].stubOk {
      var pc, a, s := Resolve(cfg, q), w.nextId, plan[0];
      var w0 := Stubbed(w, pc.cli, t, assign);
      StubHeld(w, pc.cli, t, assign);
      AttemptHeld(w0, a, pc.cli, t, s);
      var p := RunAttempt(w0, a, pc.cli, t, s);
      if p.Failing? {
        if FallsBack(pc) {
          FallbackLowersRank(cfg, q);
          FallbackOk(p.w, a, p.bound, s);
          var w1 := BeforeFallback(p.w, a, p.bound, s);
          CreateOk(cfg, w1, t, phase, false, FallbackRequest(pc, q), plan[1..]);
          CleanupOk(Create(cfg, w1, t, phase, false, FallbackRequest(pc, q), plan[1..]).0, a, t, p.bound, s);
        } else {
          CleanupOk(p.w, a, t, p.bound, s);
        }
      }
    }
  }

  lemma CreateKeepsOk(cfg: Config, w: World, t: TaskId, phase: Option<PhaseId>, assign: bool, q: Request,
                      plan: seq<Attempt>)
    requires |plan| > Rank(cfg, q)
    ensures Ok(w) ==> Ok(Create(cfg, w, t, phase, assign, q, plan).0)
  {
    if Ok(w) { CreateOk(cfg, w, t, phase, assign, q, plan); }
  }

  // A swallowed terminate failure: unless other code terminated the agent meanwhile, the
  // fallback returns normally with the dead attempt's own agent as the existing one.
  lemma SwallowedTerminateReturnsStub(cfg: Config, w: World, t: TaskId, phase: Option<PhaseId>, assign: bool,
                                      q: Request, plan: seq<Attempt>)
    requires Ok(w) && |plan| > Rank(cfg, q)
    requires FirstActive(w.db, t, 0, w.nextId).None? && !SiblingActive(w.db, t, phase) && plan[0].stubOk
    requires FallsBack(Resolve(cfg, q))
    requires var cli := Resolve(cfg, q).cli;
             var p := RunAttempt(Stubbed(w, cli, t, assign), w.nextId, cli, t, plan[0]);
             p.Failing? && Active(BeforeFallback(p.w, w.nextId, p.bound, plan[0]).db, w.nextId, t)
    ensures Create(cfg, w, t, phase, assign, q, plan).1 == Existing(w.nextId)
  {
    var pc, a, s := Resolve(cfg, q), w.nextId, plan[0];
    var w0 := Stubbed(w, pc.cli, t, assign);
    StubHeld(w, pc.cli, t, assign);
    AttemptHeld(w0, a, pc.cli, t, s);
    var p := RunAttempt(w0, a, pc.cli, t, s);
    HeldStable(a, t);
    OthersPreserve(HeldOn(a, t), p.w, s.beforeFallback);
    OthersFrame(p.w, s.beforeFallback);
    var w1 := BeforeFallback(p.w, a, p.bound, s);
    FallbackOk(p.w, a, p.bound, s);
    TerminateSound(Others(p.w, s.beforeFallback).db, a, p.w.nextId);
    assert OnlyOn(w1.db, a, t);
    assert FirstActive(w1.db, t, 0, w1.nextId) == Some(a);
  }

  lemma CallerCommitOk(w: World, t: TaskId, o: Outcome)
    requires Ok(w)
    ensures Ok(CallerCommit(w, t, o))
  {
    TasksDoNotMatter(w.db, WriteBack(w.db, t, w.mem), w.nextId);
  }

  // ------------------------------------------------------------- restarts

  // Rewriting one row, as long as it does not become active where it was not.
  lemma RowWriteSound(db: Db, a: AgentId, row: AgentRow, n: AgentId)
    requires Sound(db, n) && a in db.agents
    requires row.task == db.agents[a].task && RowOk(row)
    ensures Sound(db.(agents := db.agents[a := row]), n)
    ensures forall b, u :: Active(db.(agents := db.agents[a := row]), b, u) ==> Active(db, b, u)
  {
    var r := db.(agents := db.agents[a := row]);
    assert RowOk(db.agents[a]);
    assert forall b, u :: Active(r, b, u) ==> Active(db, b, u);
  }

  // A row that was terminated meanwhile may be set to working again, but it points at no
  // task any more.
  lemma ReworkSound(w: World, a: AgentId, read: AgentStatus)
    requires Ok(w) && a in w.db.agents
    ensures Ok(Commit(w, w.db.(agents := w.db.agents[a := Rework(w.db.agents[a], a, read)])))
  {
    assert RowOk(w.db.agents[a]);
    RowWriteSound(w.db, a, Rework(w.db.agents[a], a, read), w.nextId);
  }

  lemma AfterRelaunchOk(w: World, a: AgentId, t: TaskId, s: RestartScript)
    requires Ok(w)
    ensures Ok(AfterRelaunch(w, a, t, s)) && AfterRelaunch(w, a, t, s).nextId == w.nextId
  {
    var w1 := Others(w, s.duringReady);
    OthersFrame(w, s.duringReady);
    var w2 := Others(w1, s.beforePrompt);
    OthersFrame(w1, s.beforePrompt);
    OthersFrame(w2.(prompts := w2.prompts + [a]), s.afterPrompt);
  }

  lemma RelaunchOk(w: World, a: AgentId, t: TaskId, s: RestartScript)
    requires Ok(w) && a in w.db.agents
    ensures Ok(Relaunch(w, a, t, s)) && Relaunch(w, a, t, s).nextId == w.nextId
  {
    var w0 := KillNamed(w, w.db.agents[a].session, s.killOk);
    var w1 := Others(w0, s.duringPrep);
    OthersFrame(w0, s.duringPrep);
    var w3 := w1.(sessions := w1.sessions + {Session(a, true)}, relaunches := w1.relaunches + [a]);
    var read := w.db.agents[a].status;
    ReworkSound(w3, a, read);
    AfterRelaunchOk(Commit(w3, w3.db.(agents := w3.db.agents[a := Rework(w3.db.agents[a], a, read)])), a, t, s);
  }

  lemma ExceedRestartsOk(w: World, a: AgentId, s: RestartScript)
    requires Ok(w) && a in w.db.agents
    ensures Ok(ExceedRestarts(w, a, s)) && ExceedRestarts(w, a, s).nextId == w.nextId
  {
    TerminateSound(w.db, a, w.nextId);
    var w0 := KillNamed(Commit(w, Terminate(w.db, a)), w.db.agents[a].session, s.killOk);
    OthersFrame(w0, s.duringKill);
    var w1 := Others(w0, s.duringKill);
    forall t ensures Sound(FailTask(w1.db, t), w.nextId) { TasksDoNotMatter(w1.db, FailTask(w1.db, t), w.nextId); }
  }

  lemma RestartOk(cfg: Config, w: World, a: AgentId, s: RestartScript)
    requires Ok(w)
    ensures Ok(Restart(cfg, w, a, s)) && Restart(cfg, w, a, s).nextId == w.nextId
  {
    if a in w.db.agents {
      if w.db.agents[a].restarts >= MAX_RESTARTS {
        ExceedRestartsOk(w, a, s);
      } else {
        assert RowOk(w.db.agents[a]);
        var row := w.db.agents[a].(restarts := w.db.agents[a].restarts + 1);
        RowWriteSound(w.db, a, row, w.nextId);
        var w1 := Commit(w, w.db.(agents := w.db.agents[a := row]));
        if row.task.Some? && row.task.value in w1.db.tasks {
          TasksDoNotMatter(w1.db, FailTask(w1.db, row.task.value), w.nextId);
          var tool := RestartTool(cfg, row.cli);
          if tool.Some? {
            RowWriteSound(w1.db, a, row.(cli := tool.value), w.nextId);
            var w2 := if tool.value == row.cli then w1
                      else Commit(w1, w1.db.(agents := w1.db.agents[a := row.(cli := tool.value)]));
            RelaunchOk(w2, a, row.task.value, s);
          }
        }
      }
    }
  }

  lemma ExecOk(cfg: Config, w: World, c: Call)
    requires Ok(w) && CallOk(cfg, c)
    ensures Ok(Exec(cfg, w, c))
  {
    match c
    case CreateCall(t, phase, assign, q, plan, acts) =>
      CreateOk(cfg, Load(w, t), t, phase, assign, q, plan);
      var (w1, o) := Create(cfg, Load(w, t), t, phase, assign, q, plan);
      OthersFrame(w1, acts);
      CallerCommitOk(Others(w1, acts), t, o);
    case RestartCall(a, s) => RestartOk(cfg, w, a, s);
    case EnvCall(e) => ApplySound(w.db, e, w.nextId);
  }

  // Main result: in every run of serialised calls, with any script and any commits by
  // other code at every wait, each committed state has at most one working or idle agent
  // per task.
  lemma {:induction false} UniqueInEveryRun(cfg: Config, w: World, calls: seq<Call>)
    requires Ok(w) && forall c :: c in calls ==> CallOk(cfg, c)
    ensures Ok(Run(cfg, w, calls))
    decreases |calls|
  {
    if calls != [] {
      ExecOk(cfg, w, calls[0]);
      UniqueInEveryRun(cfg, Exec(cfg, w, calls[0]), calls[1..]);
    }
  }
}
