/**
 The launch pipeline itself: an object whose methods change rows, sessions and the
 caller's task object step by step. Each method is proved to do exactly what the
 functions of LaunchSpec say, so every theorem about those holds of it.
 */
module LaunchPipeline {
  import opened Wrappers
  import opened LaunchConfig
  import opened LaunchState
  import opened LaunchSpec
  import LaunchSteps
  import LaunchProofs
  import LaunchRace
  import LaunchRestart

  // How a step of a call ends: it goes on, it raises, or the call returns.
  datatype Signal = Continue | Raise | Return(outcome: Outcome)

  class Pipeline {
    const config: Config
    var agents: map<AgentId, AgentRow>
    var tasks: map<TaskId, TaskRow>
    var callerTask: Mem
    var sessions: set<Session>
    var prompts: seq<AgentId>
    var starts: seq<Start>
    var relaunches: seq<AgentId>
    var nextId: AgentId
    var commits: seq<Entry>

    constructor (config: Config)
      ensures this.config == config && State().db == Db(map[], map[]) && State().commits == [] && sessions == {}
      ensures nextId == 0 && relaunches == []
      ensures LaunchProofs.Ok(State()) && LaunchRestart.Budget(State())
    {
      this.config := config;
      agents, tasks := map[], map[];
      callerTask := Mem(Pending, None, Pending, None);
      sessions := {};
      prompts, starts, relaunches, commits := [], [], [], [];
      nextId := 0;
    }

    ghost function State(): World
      reads this
    {
      World(Db(agents, tasks), callerTask, sessions, prompts, starts, relaunches, nextId, commits)
    }

    method CommitSession()
      modifies this`commits
      ensures State() == Commit(old(State()), old(State().db))
    {
      commits := commits + [Own(Db(agents, tasks))];
    }

    // Hand back the agent's stray tasks one by one, then flip its row.
    method TerminateAgent(a: AgentId)
      modifies this`agents, this`tasks
      ensures State() == old(State()).(db := Terminate(old(State().db), a))
    {
      if a !in agents { return; }
      ghost var before := tasks;
      var stray := set t | t in tasks && Stray(tasks[t], a);
      while stray != {}
        invariant stray <= tasks.Keys == before.Keys && agents == old(agents)
        invariant forall t :: t in stray ==> Stray(before[t], a)
        invariant forall t :: t in before ==>
          tasks[t] == if t in stray then before[t] else Release(before[t], a)
        decreases |stray|
      {
        var t :| t in stray;
        tasks := tasks[t := tasks[t].(status := Pending, owner := None)];
        stray := stray - {t};
      }
      assert tasks == map t | t in before :: Release(before[t], a);
      agents := agents[a := agents[a].(status := Terminated, task := None)];
    }

    method WriteTask(t: TaskId, status: TaskStatus, owner: Option<AgentId>)
      modifies this`tasks
      ensures State() == old(State()).(db := SetTask(old(State().db), t, status, owner))
    {
      if t in tasks {
        tasks := tasks[t := tasks[t].(status := status, owner := owner)];
      }
    }

    method MarkFailed(t: TaskId)
      modifies this`tasks
      ensures State() == old(State()).(db := FailTask(old(State().db), t))
    {
      if t in tasks {
        tasks := tasks[t := tasks[t].(status := Failed)];
      }
    }

    // Whatever other code commits while this call waits.
    method Wait(acts: seq<EnvAction>)
      modifies this`agents, this`tasks, this`commits
      ensures State() == Others(old(State()), acts)
    {
      var i := 0;
      while i < |acts|
        invariant i <= |acts|
        invariant Others(State(), acts[i..]) == Others(old(State()), acts)
      {
        match acts[i] {
          case EnvTerminate(a) => TerminateAgent(a);
          case EnvTask(t, status, owner) => WriteTask(t, status, owner);
        }
        commits := commits + [Other(Db(agents, tasks), acts[i])];
        assert acts[i..][1..] == acts[i + 1..];
        i := i + 1;
      }
    }

    method CheckDuplicateActiveAgent(t: TaskId) returns (existing: Option<AgentId>)
      ensures existing == FirstActive(State().db, t, 0, nextId)
    {
      var a := 0;
      while a < nextId
        invariant a <= nextId && FirstActive(State().db, t, 0, nextId) == FirstActive(State().db, t, a, nextId)
      {
        if a in agents && agents[a].task == Some(t) && (agents[a].status.Working? || agents[a].status.Idle?) {
          return Some(a);
        }
        a := a + 1;
      }
      existing := None;
    }

    method InsertStubAgentRow(cli: Tool, t: TaskId, assign: bool) returns (a: AgentId)
      modifies this`agents, this`tasks, this`commits, this`nextId
      ensures a == old(nextId) && State() == Stubbed(old(State()), cli, t, assign)
      ensures LaunchProofs.Ok(old(State())) && FirstActive(old(State()).db, t, 0, old(nextId)).None? ==>
        LaunchProofs.Held(State(), a, t) && Active(State().db, a, t)
    {
      if LaunchProofs.Ok(State()) && FirstActive(State().db, t, 0, nextId).None? {
        LaunchProofs.StubHeld(State(), cli, t, assign);
      }
      a := nextId;
      nextId := nextId + 1;
      agents := agents[a := AgentRow(Idle, cli, Some(t), None, 0)];
      if assign {
        WriteTask(t, InProgress, Some(a));
      }
      CommitSession();
    }

    method PrepareTmuxAndPrompt(a: AgentId, s: Attempt) returns (sig: Signal)
      modifies this`agents, this`tasks, this`commits, this`sessions
      ensures sig == Signal.Continue || sig == Raise
      ensures Prepare(old(State()), a, s) == if sig.Continue? then Going(State()) else Failing(State(), false)
    {
      Wait(s.duringPrep);
      if s.prepared || s.sessionCreated {
        sessions := sessions + {Session(a, false)};
      }
      sig := if s.prepared then Signal.Continue else Raise;
    }

    method SendLaunchCommandAndRecordAgent(a: AgentId, cli: Tool, t: TaskId, s: Attempt) returns (sig: Signal)
      modifies this`agents, this`tasks, this`commits, this`starts, this`callerTask
      ensures sig == Signal.Continue || sig == Raise
      ensures Launch(old(State()), a, cli, t, s) == if sig.Continue? then Going(State()) else Failing(State(), true)
      ensures LaunchProofs.Held(old(State()), a, t) ==> LaunchProofs.Held(State(), a, t)
      ensures sig.Continue? ==>
        Active(State().db, a, t) && callerTask.status == InProgress && callerTask.owner == Some(a)
    {
      if LaunchProofs.Held(State(), a, t) {
        LaunchProofs.HeldStable(a, t);
        LaunchProofs.HeldByRecord(a, cli, t, nextId);
        LaunchSteps.LaunchPreserves(LaunchProofs.HeldOn(a, t), State(), a, cli, t, s);
      }
      Wait(s.duringLaunch);
      if s.launch.NotSent? { return Raise; }
      starts := starts + [Start(a, cli)];
      if s.launch.SentNotMerged? { return Raise; }
      callerTask := callerTask.(status := InProgress, owner := Some(a));
      if s.launch.SentNotCommitted? { return Raise; }
      var restarts := if a in agents then agents[a].restarts else 0;
      agents := agents[a := AgentRow(Working, cli, Some(t), Some(Session(a, false)), restarts)];
      CommitSession();
      sig := Signal.Continue;
    }

    method CheckTerminationRace(a: AgentId, t: TaskId) returns (aborted: bool)
      modifies this`sessions, this`callerTask
      ensures RaceCheck(old(State()), a, t) == if aborted then Over(State(), Aborted(a)) else Going(State())
      ensures aborted <==> Doomed(State().db, a, t)
      ensures aborted ==> Session(a, false) !in sessions && LaunchRace.MemAgrees(State(), t)
    {
      var agentTerminated := a in agents && agents[a].status.Terminated?;
      var taskCancelled := false;
      if t in tasks {
        var otherIsLive := false;
        match tasks[t].owner {
          case None =>
          case Some(b) => otherIsLive := b != a && b in agents && !agents[b].status.Terminated?;
        }
        taskCancelled := Terminal(tasks[t].status) || otherIsLive;
      }
      aborted := agentTerminated || taskCancelled;
      if aborted {
        sessions := sessions - {Session(a, false)};
        if t in tasks {
          callerTask := callerTask.(status := tasks[t].status, owner := tasks[t].owner);
        }
      }
    }

    method RunBlockingStep(a: AgentId, t: TaskId, s: Attempt) returns (sig: Signal)
      modifies this`agents, this`tasks, this`commits, this`sessions, this`callerTask
      ensures BlockingStep(old(State()), a, t, s) ==
              match sig {
                case Continue => Going(State())
                case Raise => Failing(State(), true)
                case Return(o) => Over(State(), o)
              }
    {
      Wait(s.afterRecord);
      if !s.blockingStep { return Signal.Continue; }
      var aborted := CheckTerminationRace(a, t);
      if aborted { return Return(Aborted(a)); }
      CommitSession();
      Wait(s.duringScan);
      sig := if s.scanOk then Signal.Continue else Raise;
    }

    method DeliverInitialPromptFlow(a: AgentId, t: TaskId, s: Attempt) returns (sig: Signal)
      modifies this`agents, this`tasks, this`commits, this`sessions, this`callerTask, this`prompts
      ensures !sig.Continue?
      ensures Deliver(old(State()), a, t, s) ==
              if sig.Return? then Over(State(), sig.outcome) else Failing(State(), true)
      ensures prompts != old(prompts) ==>
        prompts == old(prompts) + [a] && !Doomed(Others(old(State()), s.duringReady).db, a, t)
      ensures sig == Return(Aborted(a)) ==>
        Doomed(State().db, a, t) && Session(a, false) !in sessions && LaunchRace.MemAgrees(State(), t)
    {
      LaunchRace.DeliverVerdict(State(), a, t, s);
      Wait(s.duringReady);
      var aborted := CheckTerminationRace(a, t);
      if aborted { return Return(Aborted(a)); }
      Wait(s.beforePrompt);
      if s.delivery.DiedBefore? { return Raise; }
      prompts := prompts + [a];
      Wait(s.afterPrompt);
      sig := if s.delivery.Delivered? then Return(Launched(a)) else Raise;
    }

    // The body of the try block. bound says whether the session's name was bound in the
    // caller's scope when it raised.
    method Try(a: AgentId, cli: Tool, t: TaskId, s: Attempt) returns (sig: Signal, bound: bool)
      modifies this`agents, this`tasks, this`commits, this`sessions, this`callerTask, this`prompts, this`starts
      ensures !sig.Continue?
      ensures RunAttempt(old(State()), a, cli, t, s) ==
              if sig.Return? then Over(State(), sig.outcome) else Failing(State(), bound)
    {
      bound := false;
      sig := PrepareTmuxAndPrompt(a, s);
      if !sig.Continue? { return; }
      bound := true;
      sig := SendLaunchCommandAndRecordAgent(a, cli, t, s);
      if !sig.Continue? { return; }
      sig := RunBlockingStep(a, t, s);
      if !sig.Continue? { return; }
      sig := DeliverInitialPromptFlow(a, t, s);
    }

    method CreateAgentForTask(t: TaskId, phase: Option<PhaseId>, assign: bool, q: Request, plan: seq<Attempt>)
      returns (o: Outcome)
      requires |plan| > Rank(config, q)
      modifies this
      ensures (State(), o) == Create(config, old(State()), t, phase, assign, q, plan)
      ensures LaunchProofs.Ok(old(State())) ==> LaunchProofs.Ok(State())
      decreases Rank(config, q)
    {
      LaunchProofs.CreateKeepsOk(config, State(), t, phase, assign, q, plan);
      var existing := CheckDuplicateActiveAgent(t);
      if existing.Some? { return Existing(existing.value); }
      if SiblingActive(Db(agents, tasks), t, phase) { return Skipped; }
      if !plan[0].stubOk { return Raised; }

      var pc, s := Resolve(config, q), plan[0];
      var a := InsertStubAgentRow(pc.cli, t, assign);
      var sig, bound := Try(a, pc.cli, t, s);
      if sig.Return? { return sig.outcome; }

      if FallsBack(pc) {
        ReleaseBeforeFallback(a, bound, s);
        FallbackLowersRank(config, q);
        o := CreateAgentForTask(t, phase, false, FallbackRequest(pc, q), plan[1..]);
        if !o.Raised? { return; }
      }

      CleanUpFailedLaunch(a, t, bound, s);
      o := Raised;
    }

    // Both kills and the terminate are attempted on their own; a failure is only logged.
    method ReleaseBeforeFallback(a: AgentId, bound: bool, s: Attempt)
      modifies this`agents, this`tasks, this`commits, this`sessions
      ensures State() == BeforeFallback(old(State()), a, bound, s)
    {
      Wait(s.beforeFallback);
      if bound && s.killOk { sessions := sessions - {Session(a, false)}; }
      if s.terminateOk {
        TerminateAgent(a);
        CommitSession();
      }
    }

    // The task is failed after the terminate, which would otherwise release it.
    method CleanUpFailedLaunch(a: AgentId, t: TaskId, bound: bool, s: Attempt)
      modifies this`agents, this`tasks, this`commits, this`sessions
      ensures State() == Cleanup(old(State()), a, t, bound, s)
    {
      Wait(s.beforeCleanup);
      if bound && s.finalKillOk { sessions := sessions - {Session(a, false)}; }
      if s.cleanupOk {
        TerminateAgent(a);
        MarkFailed(t);
        CommitSession();
      }
    }

    method RestartAgent(a: AgentId, s: RestartScript)
      modifies this
      ensures State() == Restart(config, old(State()), a, s)
      ensures LaunchProofs.Ok(old(State())) ==> LaunchProofs.Ok(State())
    {
      if LaunchProofs.Ok(State()) { LaunchProofs.RestartOk(config, State(), a, s); }
      if a !in agents { return; }
      if agents[a].restarts >= MAX_RESTARTS {
        GiveUp(a, s);
        return;
      }
      agents := agents[a := agents[a].(restarts := agents[a].restarts + 1)];
      CommitSession();
      if agents[a].task.None? || agents[a].task.value !in tasks { return; }
      var t := agents[a].task.value;
      var tool := RestartTool(config, agents[a].cli);
      if tool.None? {
        MarkFailed(t);
        CommitSession();
        return;
      }
      if tool.value != agents[a].cli {
        agents := agents[a := agents[a].(cli := tool.value)];
        CommitSession();
      }
      RelaunchAgent(a, t, s);
    }

    method GiveUp(a: AgentId, s: RestartScript)
      requires a in agents
      modifies this
      ensures State() == ExceedRestarts(old(State()), a, s)
    {
      if !s.terminateOk { return; }
      var task, session := agents[a].task, agents[a].session;
      TerminateAgent(a);
      CommitSession();
      if s.killOk && session.Some? { sessions := sessions - {session.value}; }
      Wait(s.duringKill);
      if task.Some? && task.value in tasks && !tasks[task.value].status.Done? && !tasks[task.value].status.Failed? {
        MarkFailed(task.value);
        CommitSession();
      }
    }

    method RelaunchAgent(a: AgentId, t: TaskId, s: RestartScript)
      requires a in agents
      modifies this
      ensures State() == Relaunch(old(State()), a, t, s)
    {
      var read := agents[a].status;
      if s.killOk && agents[a].session.Some? { sessions := sessions - {agents[a].session.value}; }
      Wait(s.duringPrep);
      if !s.prepared { return; }
      sessions := sessions + {Session(a, true)};
      if !s.sent { return; }
      relaunches := relaunches + [a];
      if !s.recorded { return; }
      assert a in State().db.agents;
      var row := agents[a].(session := Some(Session(a, true)));
      if !read.Working? { row := row.(status := Working); }
      agents := agents[a := row];
      CommitSession();
      DeliverContinuePrompt(a, t, s);
    }

    method DeliverContinuePrompt(a: AgentId, t: TaskId, s: RestartScript)
      modifies this
      ensures State() == AfterRelaunch(old(State()), a, t, s)
    {
      Wait(s.duringReady);
      if Doomed(Db(agents, tasks), a, t) {
        sessions := sessions - {Session(a, true)};
        return;
      }
      Wait(s.beforePrompt);
      if s.delivered {
        prompts := prompts + [a];
        Wait(s.afterPrompt);
      }
    }

    // The caller's own commit; a call that raised is not followed by one.
    method CommitCaller(t: TaskId, o: Outcome)
      modifies this`tasks, this`commits, this`callerTask
      ensures State() == CallerCommit(old(State()), t, o)
    {
      if o.Raised? || !Changed(callerTask) { return; }
      if t in tasks {
        var row := tasks[t];
        if callerTask.status != callerTask.status0 { row := row.(status := callerTask.status); }
        if callerTask.owner != callerTask.owner0 { row := row.(owner := callerTask.owner); }
        tasks := tasks[t := row];
      }
      CommitSession();
      callerTask := Mem(callerTask.status, callerTask.owner, callerTask.status, callerTask.owner);
    }
  }
}
