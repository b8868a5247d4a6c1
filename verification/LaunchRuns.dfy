/**
 Two concrete runs in which the caller's commit leaves a task in progress whose owner is
 terminated.
 */
module LaunchRuns {
  import opened Wrappers
  import opened LaunchConfig
  import opened LaunchState
  import opened LaunchSpec
  import opened LaunchCaller

  // Nothing raises and nobody else commits.
  const SMOOTH: Attempt := Attempt(true, [], true, false, [], Recorded, [], false, [], true, [], [], Delivered, [],
                                   [], true, true, [], true, true)

  // Recorded and prompted, and then rejected by the tool.
  const REJECTED: Attempt := SMOOTH.(delivery := RaisedAfterPrompt)

  // Fails before its launch command, and its terminate fails as well.
  const STUCK: Attempt := SMOOTH.(prepared := false, terminateOk := false)

  const NO_ARGUMENTS: Request := Request(None, None, None, None, None, None)

  const GLOBAL_FALLBACK: Config := Config("claude", Some("pi"), None, (_: Tool) => true)

  function Idle(tasks: map<TaskId, TaskRow>, t: TaskId): World
    requires t in tasks
  {
    World(Db(map[], tasks), Fresh(tasks[t]), {}, [], [], [], 0, [])
  }

  predicate RowIs(db: Db, t: TaskId, row: TaskRow) { t in db.tasks && db.tasks[t] == row }

  // Three attempts are as many as any request can lead to.
  function CreateOnTask0(cfg: Config, w: World, phase: Option<PhaseId>, q: Request, plan: seq<Attempt>): (World, Outcome)
    requires |plan| == 3
  {
    Create(cfg, w, 0, phase, false, q, plan)
  }

  lemma OneAction(w: World, e: EnvAction)
    ensures Others(w, [e]) == CommitOther(w, e)
  {
    assert [e][1..] == [];
  }

  // ------------------------------------------------------------- skipped

  // The first attempt's prompt is rejected, and while its session is being killed another
  // task of the phase becomes pending.
  const OVERTAKEN: Attempt := REJECTED.(beforeFallback := [EnvTask(1, Pending, None)])

  const TWO_TASKS: map<TaskId, TaskRow> :=
    map[0 := TaskRow(Pending, None, Some(0)), 1 := TaskRow(Blocked, None, Some(0))]

  lemma RejectedAttempt(w: World, s: Attempt, cli: Tool, t: TaskId)
    requires s.(beforeFallback := []) == REJECTED && w.nextId == 1 && w.prompts == []
    requires 0 in w.db.agents && w.db.agents[0].status.Idle? && w.db.agents[0].restarts == 0
    requires t in w.db.tasks && w.db.tasks[t] == TaskRow(Pending, None, w.db.tasks[t].phase)
    ensures var p := RunAttempt(w, 0, cli, t, s);
            && p.Failing? && p.bound && p.w.db.tasks == w.db.tasks && p.w.nextId == 1
            && p.w.db.agents == w.db.agents[0 := AgentRow(Working, cli, Some(t), Some(Session(0, false)), 0)]
            && p.w.mem == w.mem.(status := InProgress, owner := Some(0))
  {}

  // The fallback is skipped by the sibling guard, and the caller makes the terminated agent
  // the owner of a task in progress.
  lemma SkippedRun()
    ensures var (r, o) := CreateOnTask0(GLOBAL_FALLBACK, Idle(TWO_TASKS, 0), Some(0), NO_ARGUMENTS,
                                        [OVERTAKEN, SMOOTH, SMOOTH]);
            var d := CallerCommit(r, 0, o).db;
            o == Skipped && RowIs(d, 0, TaskRow(InProgress, Some(0), Some(0))) && DeadOwner(d, 0)
  {
    var w, plan := Idle(TWO_TASKS, 0), [OVERTAKEN, SMOOTH, SMOOTH];
    var pc := Resolve(GLOBAL_FALLBACK, NO_ARGUMENTS);
    var w0 := Stubbed(w, pc.cli, 0, false);
    RejectedAttempt(w0, OVERTAKEN, pc.cli, 0);
    var p := RunAttempt(w0, 0, pc.cli, 0, OVERTAKEN);
    OneAction(p.w, EnvTask(1, Pending, None));
    var w1 := BeforeFallback(p.w, 0, true, OVERTAKEN);
    assert !SiblingActive(w.db, 0, Some(0));
    assert HoldsPhase(w1.db.tasks[1], 0) && SiblingActive(w1.db, 0, Some(0));
    assert FirstActive(w1.db, 0, 0, 1).None?;
    assert Create(GLOBAL_FALLBACK, w1, 0, Some(0), false, FallbackRequest(pc, NO_ARGUMENTS), plan[1..]) == (w1, Skipped);
  }

  // ------------------------------------------------------------- another agent found

  const OWN_FALLBACK: Request :=
    Request(None, None, None, None, None, Some(PhaseRow(None, None, None, None, Some("codex"), None)))

  const ONE_TASK: map<TaskId, TaskRow> := map[0 := TaskRow(Pending, None, None)]

  // Three tools. The first attempt is recorded, rejected and terminated; the second fails in
  // its preparation and its terminate is swallowed; the third stops at that agent. The
  // caller makes the first attempt's terminated agent the owner, while the second is active.
  lemma ExistingRun()
    ensures var (r, o) := CreateOnTask0(GLOBAL_FALLBACK, Idle(ONE_TASK, 0), None, OWN_FALLBACK,
                                        [REJECTED, STUCK, SMOOTH]);
            var d := CallerCommit(r, 0, o).db;
            && o == Existing(1) && RowIs(d, 0, TaskRow(InProgress, Some(0), None))
            && DeadOwner(d, 0) && Active(d, 1, 0)
  {
    var w, plan := Idle(ONE_TASK, 0), [REJECTED, STUCK, SMOOTH];
    var pc := Resolve(GLOBAL_FALLBACK, OWN_FALLBACK);
    var w0 := Stubbed(w, pc.cli, 0, false);
    RejectedAttempt(w0, REJECTED, pc.cli, 0);
    var p := RunAttempt(w0, 0, pc.cli, 0, REJECTED);
    var w1 := BeforeFallback(p.w, 0, true, REJECTED);
    var q1 := FallbackRequest(pc, OWN_FALLBACK);
    assert FirstActive(w1.db, 0, 0, 1).None?;
    SecondAttempt(w1, q1);
    assert plan[1..] == [STUCK, SMOOTH];
  }

  // The second attempt and the third, which goes no further than its duplicate guard.
  lemma SecondAttempt(w: World, q: Request)
    requires w.nextId == 1 && w.db.agents.Keys == {0} && AgentTerminated(w.db, 0) && w.db.agents[0].task == None
    requires 0 in w.db.tasks && FirstActive(w.db, 0, 0, 1).None?
    requires Rank(GLOBAL_FALLBACK, q) == 1 && q.tool == Some("codex") && !ReadsPhase(q)
    ensures var (r, o) := Create(GLOBAL_FALLBACK, w, 0, None, false, q, [STUCK, SMOOTH]);
            && o == Existing(1) && r.mem == w.mem && r.db.tasks == w.db.tasks && Active(r.db, 1, 0)
            && AgentTerminated(r.db, 0)
  {
    var pc := Resolve(GLOBAL_FALLBACK, q);
    assert FallsBack(pc);
    var w0 := Stubbed(w, pc.cli, 0, false);
    var p := RunAttempt(w0, 1, pc.cli, 0, STUCK);
    assert p == Failing(w0, false);
    var w1 := BeforeFallback(w0, 1, false, STUCK);
    assert w1 == w0;
    assert !Active(w1.db, 0, 0) && Active(w1.db, 1, 0);
    assert FirstActive(w1.db, 0, 1, 2) == Some(1);
    assert FirstActive(w1.db, 0, 0, 2) == Some(1);
    assert [STUCK, SMOOTH][1..] == [SMOOTH];
  }

  // ------------------------------------------------------------- reassigned and released

  // Nothing to fall back to.
  const ONE_TOOL: Config := Config("claude", None, None, (_: Tool) => true)

  // Once it is recorded, somebody gives its task to agent 0.
  const REASSIGNED: Attempt := SMOOTH.(afterRecord := [EnvTask(0, InProgress, Some(0))])

  // Agent 0 is alive, on no task.
  function WithAgent(tasks: map<TaskId, TaskRow>, t: TaskId): World
    requires t in tasks
  {
    Idle(tasks, t).(db := Db(map[0 := AgentRow(Working, "claude", None, None, 0)], tasks), nextId := 1)
  }

  lemma ReassignedAttempt(w: World, cli: Tool)
    requires w.nextId == 2 && w.db.agents.Keys == {0, 1} && w.db.agents[0].status.Working?
    requires w.db.tasks == ONE_TASK
    ensures var p := RunAttempt(w, 1, cli, 0, REASSIGNED);
            && p.Over? && p.outcome == Aborted(1) && p.w.db.agents.Keys == {0, 1}
            && p.w.db.agents[0] == w.db.agents[0] && RowIs(p.w.db, 0, TaskRow(InProgress, Some(0), None))
            && p.w.mem == w.mem.(status := InProgress, owner := Some(0))
  {
    var w1 := Launch(Prepare(w, 1, REASSIGNED).w, 1, cli, 0, REASSIGNED).w;
    OneAction(w1, EnvTask(0, InProgress, Some(0)));
  }

  // The launch is aborted in favour of agent 0, which is terminated before the caller
  // commits. Its task is released, and the caller's commit takes the release back.
  lemma AbortedRun()
    ensures var (r, o) := CreateOnTask0(ONE_TOOL, WithAgent(ONE_TASK, 0), None, NO_ARGUMENTS,
                                        [REASSIGNED, SMOOTH, SMOOTH]);
            var before := Others(r, [EnvTerminate(0)]);
            var d := CallerCommit(before, 0, o).db;
            && o == Aborted(1) && RowIs(before.db, 0, TaskRow(Pending, None, None))
            && RowIs(d, 0, TaskRow(InProgress, Some(0), None)) && DeadOwner(d, 0)
  {
    var w := WithAgent(ONE_TASK, 0);
    var pc := Resolve(ONE_TOOL, NO_ARGUMENTS);
    assert !Active(w.db, 0, 0);
    assert FirstActive(w.db, 0, 1, 1).None?;
    assert FirstActive(w.db, 0, 0, 1).None?;
    var w0 := Stubbed(w, pc.cli, 0, false);
    ReassignedAttempt(w0, pc.cli);
    var p := RunAttempt(w0, 1, pc.cli, 0, REASSIGNED);
    OneAction(p.w, EnvTerminate(0));
  }
}
