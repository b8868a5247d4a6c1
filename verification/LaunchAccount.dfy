/**
 Whole calls told from the rows they start with and the script alone, with the statuses and
 limits of the program written out: when the guards turn a call away, what one attempt does
 to every trace, what a restart does, what a termination hands back.
 */
module LaunchAccount {
  import opened Wrappers
  import opened LaunchConfig
  import opened LaunchState
  import opened LaunchSpec
  import opened LaunchSteps

  // ------------------------------------------------------------- the rows in between

  // The rows after these commits of other code.
  function After(db: Db, acts: seq<EnvAction>): (r: Db)
    ensures r.agents.Keys == db.agents.Keys && r.tasks.Keys == db.tasks.Keys
    decreases |acts|
  {
    if acts == [] then db else After(Apply(db, acts[0]), acts[1..])
  }

  lemma {:induction false} OthersAre(w: World, acts: seq<EnvAction>)
    ensures Others(w, acts) == w.(db := After(w.db, acts), commits := Others(w, acts).commits)
    decreases |acts|
  {
    if acts != [] { OthersAre(CommitOther(w, acts[0]), acts[1..]); }
  }

  // A termination releases the agent's own tasks in these five statuses and no others, and
  // takes the agent off its task.
  lemma TerminateMeans(db: Db, a: AgentId)
    ensures var r := Terminate(db, a);
            && r.tasks.Keys == db.tasks.Keys && r.agents.Keys == db.agents.Keys
            && (forall b :: b in db.agents && b != a ==> r.agents[b] == db.agents[b])
            && (a in db.agents ==>
                 var row := db.agents[a]; r.agents[a] == AgentRow(Terminated, row.cli, None, row.session, row.restarts))
            && forall t :: t in db.tasks ==>
                 var row := db.tasks[t];
                 r.tasks[t] == if a in db.agents && row.owner == Some(a)
                                  && row.status in {Assigned, InProgress, Pending, UnderReview, NeedsWork}
                               then TaskRow(Pending, None, row.phase) else row
  {}

  // ------------------------------------------------------------- the guards

  lemma GuardsMean(w: World, t: TaskId, phase: Option<PhaseId>)
    requires forall a :: a in w.db.agents ==> a < w.nextId
    ensures FirstActive(w.db, t, 0, w.nextId).Some? <==>
            exists a :: a in w.db.agents && w.db.agents[a].task == Some(t) && w.db.agents[a].status in {Working, Idle}
    ensures SiblingActive(w.db, t, phase) <==>
            phase.Some? &&
            exists u :: u in w.db.tasks && u != t && w.db.tasks[u].phase == phase &&
              w.db.tasks[u].status in {Pending, Assigned, InProgress, UnderReview, ValidationInProgress, NeedsWork}
  {
    forall a | a in w.db.agents && w.db.agents[a].task == Some(t) && w.db.agents[a].status in {Working, Idle}
      ensures FirstActive(w.db, t, 0, w.nextId).Some?
    {
      assert Active(w.db, a, t);
    }
    forall u | u in w.db.tasks && u != t && phase.Some? && w.db.tasks[u].phase == phase
               && w.db.tasks[u].status in {Pending, Assigned, InProgress, UnderReview, ValidationInProgress, NeedsWork}
      ensures SiblingActive(w.db, t, phase)
    {
      assert HoldsPhase(w.db.tasks[u], phase.value);
    }
  }

  lemma StubUsesId(cfg: Config, w: World, t: TaskId, phase: Option<PhaseId>, assign: bool, q: Request,
                   plan: seq<Attempt>)
    requires |plan| > Rank(cfg, q) && MakesStub(w, t, phase, plan)
    ensures Create(cfg, w, t, phase, assign, q, plan).0.nextId > w.nextId
  {
    var pc, a, s := Resolve(cfg, q), w.nextId, plan[0];
    var w0 := Stubbed(w, pc.cli, t, assign);
    AttemptIds(w0, a, pc.cli, t, s);
    var p := RunAttempt(w0, a, pc.cli, t, s);
    if p.Failing? {
      OthersAre(p.w, s.beforeCleanup);
      if FallsBack(pc) {
        FallbackLowersRank(cfg, q);
        OthersAre(p.w, s.beforeFallback);
        var w1, q' := BeforeFallback(p.w, a, p.bound, s), FallbackRequest(pc, q);
        assert w1.nextId == w.nextId + 1;
        CreatePreserves(Anything(), cfg, w1, t, phase, false, q', plan[1..], 0);
        OthersAre(Create(cfg, w1, t, phase, false, q', plan[1..]).0, s.beforeCleanup);
      }
    }
  }

  // Main result: exactly when a call is turned away before its stub. An agent working or idle
  // on the task is returned. Without one, the call is skipped, and nothing at all changes, if
  // and only if it names a phase and another task of it is in one of six statuses; a queued,
  // blocked, done, failed or duplicated one is no obstacle.
  lemma TurnedAwayIff(cfg: Config, w: World, t: TaskId, phase: Option<PhaseId>, assign: bool, q: Request,
                      plan: seq<Attempt>)
    requires |plan| > Rank(cfg, q) && forall a :: a in w.db.agents ==> a < w.nextId
    ensures var (r, o) := Create(cfg, w, t, phase, assign, q, plan);
            var busy :=
              exists a ::
                a in w.db.agents && w.db.agents[a].task == Some(t) && w.db.agents[a].status in {Working, Idle};
            var taken := phase.Some? &&
              exists u :: u in w.db.tasks && u != t && w.db.tasks[u].phase == phase &&
                w.db.tasks[u].status in {Pending, Assigned, InProgress, UnderReview, ValidationInProgress, NeedsWork};
            && (busy ==> r == w && o.Existing? && o.agent in w.db.agents && w.db.agents[o.agent].task == Some(t)
                         && w.db.agents[o.agent].status in {Working, Idle})
            && (!busy ==> (r == w && o == Skipped <==> taken))
            && (!busy && !taken ==> if plan[0].stubOk then r.nextId > w.nextId else r == w && o == Raised)
  {
    GuardsMean(w, t, phase);
    if MakesStub(w, t, phase, plan) { StubUsesId(cfg, w, t, phase, assign, q, plan); }
  }

  // ------------------------------------------------------------- one attempt

  // What a check reads as a reason to call the launch off.
  predicate CalledOff(db: Db, a: AgentId, t: TaskId) {
    || (a in db.agents && db.agents[a].status == Terminated)
    || (t in db.tasks && db.tasks[t].status in {Done, Failed, Duplicated})
    || (t in db.tasks && db.tasks[t].owner.Some? &&
        var b := db.tasks[t].owner.value; b != a && b in db.agents && db.agents[b].status != Terminated)
  }

  // The rows at four points of an attempt: before the record, and at the first check, at the
  // last check and at the prompt if it gets there.
  datatype Rows = Rows(unrecorded: Db, first: Db, last: Db, prompted: Db)

  function RowsOf(db: Db, a: AgentId, cli: Tool, t: TaskId, s: Attempt): Rows {
    var d1 := After(db, s.duringPrep);
    var d2 := if s.prepared then After(d1, s.duringLaunch) else d1;
    var restarts := if a in d2.agents then d2.agents[a].restarts else 0;
    var d3 := d2.(agents := d2.agents[a := AgentRow(Working, cli, Some(t), Some(Session(a, false)), restarts)]);
    var first := After(d3, s.afterRecord);
    var last := After(if s.blockingStep then After(first, s.duringScan) else first, s.duringReady);
    Rows(d2, first, last, After(last, s.beforePrompt))
  }

  // One of the checks calls it off.
  predicate Stopped(d: Rows, a: AgentId, t: TaskId, s: Attempt) {
    && s.prepared && s.launch == Recorded
    && ((s.blockingStep && CalledOff(d.first, a, t)) || ((s.blockingStep ==> s.scanOk) && CalledOff(d.last, a, t)))
  }

  // It passes the last check.
  predicate Passes(d: Rows, a: AgentId, t: TaskId, s: Attempt) {
    s.prepared && s.launch == Recorded && !Stopped(d, a, t, s) && (s.blockingStep ==> s.scanOk)
  }

  lemma PrepareIs(w: World, a: AgentId, s: Attempt)
    ensures var p := Prepare(w, a, s);
            && (if s.prepared then p.Going? else p.Failing? && !p.bound)
            && p.w == w.(db := After(w.db, s.duringPrep), commits := p.w.commits, sessions := p.w.sessions)
            && p.w.sessions == if s.prepared || s.sessionCreated then w.sessions + {Session(a, false)} else w.sessions
  {
    OthersAre(w, s.duringPrep);
  }

  lemma LaunchIs(w: World, a: AgentId, cli: Tool, t: TaskId, s: Attempt)
    ensures var p, d := Launch(w, a, cli, t, s), After(w.db, s.duringLaunch);
            var restarts := if a in d.agents then d.agents[a].restarts else 0;
            var row := AgentRow(Working, cli, Some(t), Some(Session(a, false)), restarts);
            && (if s.launch == Recorded then p.Going? else p.Failing? && p.bound)
            && p.w == w.(db := p.w.db, commits := p.w.commits, starts := p.w.starts, mem := p.w.mem)
            && p.w.starts == (if s.launch == NotSent then w.starts else w.starts + [Start(a, cli)])
            && p.w.mem == (if s.launch in {SentNotCommitted, Recorded}
                           then w.mem.(status := InProgress, owner := Some(a)) else w.mem)
            && p.w.db == if s.launch == Recorded then d.(agents := d.agents[a := row]) else d
  {
    OthersAre(w, s.duringLaunch);
  }

  // What an abort does to the session and to the caller's object.
  function CopiedTask(mem: Mem, db: Db, t: TaskId): Mem {
    if t in db.tasks then Mem(db.tasks[t].status, db.tasks[t].owner, mem.status0, mem.owner0) else mem
  }

  lemma CheckIs(w: World, a: AgentId, t: TaskId)
    ensures RaceCheck(w, a, t) ==
            if CalledOff(w.db, a, t)
            then Over(w.(sessions := w.sessions - {Session(a, false)}, mem := CopiedTask(w.mem, w.db, t)), Aborted(a))
            else Going(w)
  {}

  lemma BlockingIs(w: World, a: AgentId, t: TaskId, s: Attempt)
    ensures var p, first := BlockingStep(w, a, t, s), After(w.db, s.afterRecord);
            && (s.blockingStep && CalledOff(first, a, t) ==>
                 && p == Over(p.w, Aborted(a))
                 && p.w == w.(db := first, commits := p.w.commits, sessions := w.sessions - {Session(a, false)},
                              mem := CopiedTask(w.mem, first, t)))
            && (!(s.blockingStep && CalledOff(first, a, t)) ==>
                 && (if s.blockingStep && !s.scanOk then p == Failing(p.w, true) else p == Going(p.w))
                 && p.w == w.(db := if s.blockingStep then After(first, s.duringScan) else first,
                              commits := p.w.commits))
  {
    var w1 := Others(w, s.afterRecord);
    OthersAre(w, s.afterRecord);
    CheckIs(w1, a, t);
    OthersAre(Commit(w1, w1.db), s.duringScan);
  }

  lemma DeliverIs(w: World, a: AgentId, t: TaskId, s: Attempt)
    ensures var p, last := Deliver(w, a, t, s), After(w.db, s.duringReady);
            var prompted := After(last, s.beforePrompt);
            && (CalledOff(last, a, t) ==>
                 && p == Over(p.w, Aborted(a))
                 && p.w == w.(db := last, commits := p.w.commits, sessions := w.sessions - {Session(a, false)},
                              mem := CopiedTask(w.mem, last, t)))
            && (!CalledOff(last, a, t) ==>
                 && (if s.delivery == Delivered then p == Over(p.w, Launched(a)) else p == Failing(p.w, true))
                 && p.w == w.(db := if s.delivery == DiedBefore then prompted else After(prompted, s.afterPrompt),
                              commits := p.w.commits,
                              prompts := if s.delivery == DiedBefore then w.prompts else w.prompts + [a]))
  {
    var w1 := Others(w, s.duringReady);
    OthersAre(w, s.duringReady);
    CheckIs(w1, a, t);
    var w2 := Others(w1, s.beforePrompt);
    OthersAre(w1, s.beforePrompt);
    OthersAre(w2.(prompts := w2.prompts + [a]), s.afterPrompt);
  }

  // Main result: everything one attempt does, whatever others commit at its waits. The launch
  // command goes out once, exactly if the preparation and the keystrokes work; the prompt
  // goes out exactly if the last check passes and the agent is still there; an aborted
  // attempt leaves no session and the caller's object with the database's task fields.
  lemma AttemptAccount(w: World, a: AgentId, cli: Tool, t: TaskId, s: Attempt)
    ensures var p, d := RunAttempt(w, a, cli, t, s), RowsOf(w.db, a, cli, t, s);
            var stopped, passes := Stopped(d, a, t, s), Passes(d, a, t, s);
            && p.w.starts == (if s.prepared && s.launch != NotSent then w.starts + [Start(a, cli)] else w.starts)
            && p.w.prompts == (if passes && s.delivery != DiedBefore then w.prompts + [a] else w.prompts)
            && (if stopped then p == Over(p.w, Aborted(a))
                else if passes && s.delivery == Delivered then p == Over(p.w, Launched(a))
                else p == Failing(p.w, s.prepared))
            && p.w.sessions == (if stopped then w.sessions - {Session(a, false)}
                                else if s.prepared || s.sessionCreated then w.sessions + {Session(a, false)}
                                else w.sessions)
            && p.w.nextId == w.nextId && p.w.relaunches == w.relaunches
    ensures var p, d := RunAttempt(w, a, cli, t, s), RowsOf(w.db, a, cli, t, s);
            var wrote := s.prepared && s.launch in {SentNotCommitted, Recorded};
            var mem := if wrote then Mem(InProgress, Some(a), w.mem.status0, w.mem.owner0) else w.mem;
            p.w.mem == if Stopped(d, a, t, s) then CopiedTask(mem, p.w.db, t) else mem
    ensures var p, d := RunAttempt(w, a, cli, t, s), RowsOf(w.db, a, cli, t, s);
            && (!(s.prepared && s.launch == Recorded) ==> p.w.db == d.unrecorded)
            && (Stopped(d, a, t, s) ==>
                 p.w.db == if s.blockingStep && CalledOff(d.first, a, t) then d.first else d.last)
            && (Passes(d, a, t, s) ==>
                 p.w.db == if s.delivery == DiedBefore then d.prompted else After(d.prompted, s.afterPrompt))
  {
    PrepareIs(w, a, s);
    var p, x := Prepare(w, a, s), Session(a, false);
    assert (w.sessions + {x}) - {x} == w.sessions - {x};
    if p.Going? {
      LaunchIs(p.w, a, cli, t, s);
      var l := Launch(p.w, a, cli, t, s);
      if l.Going? {
        BlockingIs(l.w, a, t, s);
        var b := BlockingStep(l.w, a, t, s);
        if b.Going? { DeliverIs(b.w, a, t, s); }
      }
    }
  }

  // ------------------------------------------------------------- around the attempts

  // The rows with the new agent's stub, and with the task claimed if so asked.
  function WithStub(db: Db, a: AgentId, cli: Tool, t: TaskId, assign: bool): Db {
    Db(db.agents[a := AgentRow(Idle, cli, Some(t), None, 0)],
       if assign && t in db.tasks then db.tasks[t := TaskRow(InProgress, Some(a), db.tasks[t].phase)] else db.tasks)
  }

  // The cleanup of agent a's attempt took w to r: it terminates the agent and fails the task
  // in one commit, and kills the session if the preparation got to bind it.
  predicate CleanedUp(w: World, r: World, a: AgentId, t: TaskId, s: Attempt) {
    var left := After(w.db, s.beforeCleanup);
    var ended := Terminate(left, a);
    && r == w.(db := r.db, sessions := r.sessions, commits := r.commits)
    && r.sessions == (if s.prepared && s.finalKillOk then w.sessions - {Session(a, false)} else w.sessions)
    && r.db == if !s.cleanupOk then left
               else if t !in left.tasks then ended
               else ended.(tasks := ended.tasks[t := ended.tasks[t].(status := Failed)])
  }

  lemma CleanupIs(w: World, a: AgentId, t: TaskId, s: Attempt)
    ensures CleanedUp(w, Cleanup(w, a, t, s.prepared, s), a, t, s)
  {
    OthersAre(w, s.beforeCleanup);
  }

  lemma StubbedIs(w: World, cli: Tool, t: TaskId, assign: bool)
    ensures var d := WithStub(w.db, w.nextId, cli, t, assign);
            Stubbed(w, cli, t, assign) == w.(db := d, commits := w.commits + [Own(d)], nextId := w.nextId + 1)
  {
    var a := w.nextId;
    assert WithStub(w.db, a, cli, t, assign) == InsertStub(w.db, a, cli, t, assign);
  }

  // Main result: what a call does around its first attempt. It inserts the stub, with the
  // claim if asked to, and returns with the attempt; if that fails and there is no other
  // tool, it cleans up and raises.
  lemma CallAccount(cfg: Config, w: World, t: TaskId, phase: Option<PhaseId>, assign: bool, q: Request,
                    plan: seq<Attempt>)
    requires |plan| > Rank(cfg, q) && MakesStub(w, t, phase, plan)
    ensures var (r, o), pc, a, s := Create(cfg, w, t, phase, assign, q, plan), Resolve(cfg, q), w.nextId, plan[0];
            var d := WithStub(w.db, a, pc.cli, t, assign);
            var p := RunAttempt(w.(db := d, commits := w.commits + [Own(d)], nextId := a + 1), a, pc.cli, t, s);
            && (p.Over? ==> r == p.w && o == p.outcome)
            && (p.Failing? && pc.fallbackTool in {None, Some(""), Some(pc.cli)} ==>
                 o == Raised && CleanedUp(p.w, r, a, t, s))
  {
    var pc, a, s := Resolve(cfg, q), w.nextId, plan[0];
    var w0 := Stubbed(w, pc.cli, t, assign);
    StubbedIs(w, pc.cli, t, assign);
    AttemptAccount(w0, a, pc.cli, t, s);
    var p := RunAttempt(w0, a, pc.cli, t, s);
    if p.Failing? { CleanupIs(p.w, a, t, s); }
  }

  // The release before a fallback: the session if it was bound, and the agent.
  lemma ReleaseIs(w: World, a: AgentId, s: Attempt)
    ensures var r, left := BeforeFallback(w, a, s.prepared, s), After(w.db, s.beforeFallback);
            r == w.(db := if s.terminateOk then Terminate(left, a) else left, commits := r.commits,
                    sessions := if s.prepared && s.killOk then w.sessions - {Session(a, false)} else w.sessions)
  {
    OthersAre(w, s.beforeFallback);
  }

  // Main result: a call whose first attempt fails and that has another tool goes on, from the
  // release, exactly as a call for that tool made without the claim would, and cleans up its
  // own attempt only if that call raises.
  lemma FallbackAccount(cfg: Config, w: World, t: TaskId, phase: Option<PhaseId>, assign: bool, q: Request,
                        plan: seq<Attempt>)
    requires |plan| > Rank(cfg, q) && MakesStub(w, t, phase, plan) && FallsBack(Resolve(cfg, q))
    requires RunAttempt(Stubbed(w, Resolve(cfg, q).cli, t, assign), w.nextId, Resolve(cfg, q).cli, t, plan[0]).Failing?
    ensures var pc, a, s := Resolve(cfg, q), w.nextId, plan[0];
            var failed := RunAttempt(Stubbed(w, pc.cli, t, assign), a, pc.cli, t, s).w;
            var (r, o) := Create(cfg, w, t, phase, assign, q, plan);
            && |plan[1..]| > Rank(cfg, FallbackRequest(pc, q))
            && var (w2, o2) := Create(cfg, BeforeFallback(failed, a, s.prepared, s), t, phase, false,
                                      FallbackRequest(pc, q), plan[1..]);
               o == o2 && if o2 == Raised then CleanedUp(w2, r, a, t, s) else r == w2
  {
    var pc, a, s := Resolve(cfg, q), w.nextId, plan[0];
    var w0 := Stubbed(w, pc.cli, t, assign);
    AttemptAccount(w0, a, pc.cli, t, s);
    var p := RunAttempt(w0, a, pc.cli, t, s);
    FallbackLowersRank(cfg, q);
    var w1 := BeforeFallback(p.w, a, s.prepared, s);
    CleanupIs(Create(cfg, w1, t, phase, false, FallbackRequest(pc, q), plan[1..]).0, a, t, s);
  }
}
