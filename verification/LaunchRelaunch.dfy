/**
 A restart told from the rows it starts with and the script alone: the tool, the sessions,
 the continue prompt, the row it leaves, and what happens at the limit of three.
 */
module LaunchRelaunch {
  import opened Wrappers
  import opened LaunchConfig
  import opened LaunchState
  import opened LaunchSpec
  import opened LaunchSteps
  import opened LaunchAccount
  import LaunchRestart

  // ------------------------------------------------------------- the tool

  // A configured tool that can stand in for a stored one that is not installed.
  predicate StandsIn(cfg: Config, x: Tool, stored: Tool) { x != "" && x != stored && cfg.available(x) }

  // The stored tool if it is installed, else the configured fallback, else the default.
  predicate Chosen(cfg: Config, stored: Tool, tool: Tool) {
    if cfg.available(stored) then tool == stored
    else if cfg.fallbackTool.Some? && StandsIn(cfg, cfg.fallbackTool.value, stored) then cfg.fallbackTool == Some(tool)
    else tool == cfg.defaultTool && StandsIn(cfg, tool, stored)
  }

  lemma ToolIs(cfg: Config, stored: Tool, tool: Tool)
    ensures RestartTool(cfg, stored) == Some(tool) <==> Chosen(cfg, stored, tool)
  {}

  // ------------------------------------------------------------- a restart that relaunches

  // Outside commits never touch an agent's tool, session or count.
  lemma {:induction false} AfterKeepsRow(db: Db, acts: seq<EnvAction>, a: AgentId)
    requires a in db.agents
    ensures var row, row' := db.agents[a], After(db, acts).agents[a];
            row'.cli == row.cli && row'.session == row.session && row'.restarts == row.restarts
    decreases |acts|
  {
    if acts != [] { AfterKeepsRow(Apply(db, acts[0]), acts[1..], a); }
  }

  // The rows when the preparation ends, when the check reads them, and at the prompt.
  datatype RestartRows = RestartRows(prepared: Db, read: Db, prompted: Db)

  function RowsOfRestart(db: Db, a: AgentId, tool: Tool, s: RestartScript): RestartRows
    requires a in db.agents
  {
    var row := db.agents[a];
    var counted := db.(agents := db.agents[a := row.(restarts := row.restarts + 1, cli := tool)]);
    var d1 := After(counted, s.duringPrep);
    var now := d1.agents[a];
    var named := AgentRow(if row.status == Working then now.status else Working, now.cli, now.task,
                          Some(Session(a, true)), now.restarts);
    var read := After(d1.(agents := d1.agents[a := named]), s.duringReady);
    RestartRows(d1, read, After(read, s.beforePrompt))
  }

  predicate Recorded(s: RestartScript) { s.prepared && s.sent && s.recorded }

  function Killed(row: AgentRow, ok: bool): set<Session> {
    if ok && row.session.Some? then {row.session.value} else {}
  }

  // What the relaunch part does, with the world already counted and moved to its tool.
  lemma RelaunchIs(w: World, a: AgentId, t: TaskId, s: RestartScript)
    requires a in w.db.agents
    ensures var r, row, d1 := Relaunch(w, a, t, s), w.db.agents[a], After(w.db, s.duringPrep);
            var left := w.sessions - Killed(row, s.killOk);
            && (!s.prepared ==> r == w.(db := d1, sessions := left, commits := r.commits))
            && (s.prepared && !s.sent ==>
                 r == w.(db := d1, sessions := left + {Session(a, true)}, commits := r.commits))
            && (s.prepared && s.sent && !s.recorded ==>
                 r == w.(db := d1, sessions := left + {Session(a, true)}, relaunches := w.relaunches + [a],
                         commits := r.commits))
  {
    OthersAre(KillNamed(w, w.db.agents[a].session, s.killOk), s.duringPrep);
  }

  lemma PromptIs(w: World, a: AgentId, t: TaskId, s: RestartScript)
    ensures var r, read := AfterRelaunch(w, a, t, s), After(w.db, s.duringReady);
            var prompted := After(read, s.beforePrompt);
            r == if CalledOff(read, a, t)
                 then w.(db := read, sessions := w.sessions - {Session(a, true)}, commits := r.commits)
                 else if !s.delivered then w.(db := prompted, commits := r.commits)
                 else w.(db := After(prompted, s.afterPrompt), prompts := w.prompts + [a], commits := r.commits)
  {
    var w1 := Others(w, s.duringReady);
    OthersAre(w, s.duringReady);
    CheckIs(w1, a, t);
    var w2 := Others(w1, s.beforePrompt);
    OthersAre(w1, s.beforePrompt);
    OthersAre(w2.(prompts := w2.prompts + [a]), s.afterPrompt);
  }

  lemma RecordedIs(w: World, a: AgentId, t: TaskId, s: RestartScript)
    requires a in w.db.agents && Recorded(s)
    ensures var r, row, d1 := Relaunch(w, a, t, s), w.db.agents[a], After(w.db, s.duringPrep);
            var left, now := w.sessions - Killed(row, s.killOk), d1.agents[a];
            var named := AgentRow(if row.status == Working then now.status else Working, now.cli, now.task,
                                  Some(Session(a, true)), now.restarts);
            var read := After(d1.(agents := d1.agents[a := named]), s.duringReady);
            var prompted := After(read, s.beforePrompt);
            r == if CalledOff(read, a, t)
                 then w.(db := read, sessions := left - {Session(a, true)}, relaunches := w.relaunches + [a],
                         commits := r.commits)
                 else w.(db := if s.delivered then After(prompted, s.afterPrompt) else prompted,
                         sessions := left + {Session(a, true)}, relaunches := w.relaunches + [a],
                         prompts := if s.delivered then w.prompts + [a] else w.prompts, commits := r.commits)
  {
    var x, row := Session(a, true), w.db.agents[a];
    var w0 := KillNamed(w, row.session, s.killOk);
    var w1 := Others(w0, s.duringPrep);
    OthersAre(w0, s.duringPrep);
    var w3 := w1.(sessions := w1.sessions + {x}, relaunches := w1.relaunches + [a]);
    var w4 := Commit(w3, w3.db.(agents := w3.db.agents[a := Rework(w3.db.agents[a], a, row.status)]));
    PromptIs(w4, a, t, s);
    assert (w1.sessions + {x}) - {x} == w1.sessions - {x};
    assert w1.sessions == w.sessions - Killed(row, s.killOk);
  }

  lemma CountedIs(cfg: Config, w: World, a: AgentId, tool: Tool)
    requires a in w.db.agents && w.db.agents[a].restarts < 3 && Chosen(cfg, w.db.agents[a].cli, tool)
    requires w.db.agents[a].task.Some? && w.db.agents[a].task.value in w.db.tasks
    ensures LaunchRestart.Relaunches(cfg, w, a)
    ensures var from, row := LaunchRestart.Counted(cfg, w, a), w.db.agents[a];
            from == w.(db := w.db.(agents := w.db.agents[a := row.(restarts := row.restarts + 1, cli := tool)]),
                       commits := from.commits)
  {
    ToolIs(cfg, w.db.agents[a].cli, tool);
    var row := w.db.agents[a].(restarts := w.db.agents[a].restarts + 1);
    assert w.db.agents[a := row][a := row.(cli := tool)] == w.db.agents[a := row.(cli := tool)];
  }

  // Main result: the whole account of a restart below the limit whose task exists and that
  // finds a tool. The continue prompt goes out exactly if every step up to it works and the
  // rows read by the check do not call it off; the agent is relaunched exactly if its command
  // was sent; the old session is gone if its kill worked, and the new one is there if it was
  // prepared and no check called the restart off.
  lemma RestartAccount(cfg: Config, w: World, a: AgentId, s: RestartScript, tool: Tool)
    requires a in w.db.agents && w.db.agents[a].restarts < 3 && Chosen(cfg, w.db.agents[a].cli, tool)
    requires w.db.agents[a].task.Some? && w.db.agents[a].task.value in w.db.tasks
    ensures var r, row, d := Restart(cfg, w, a, s), w.db.agents[a], RowsOfRestart(w.db, a, tool, s);
            var off := CalledOff(d.read, a, row.task.value);
            var left := w.sessions - (if s.killOk && row.session.Some? then {row.session.value} else {});
            && r.prompts == (if s.prepared && s.sent && s.recorded && !off && s.delivered then w.prompts + [a]
                             else w.prompts)
            && r.relaunches == (if s.prepared && s.sent then w.relaunches + [a] else w.relaunches)
            && r.sessions == (if s.prepared && s.sent && s.recorded && off then left - {Session(a, true)}
                              else if s.prepared then left + {Session(a, true)} else left)
            && r.mem == w.mem && r.starts == w.starts && r.nextId == w.nextId
            && r.db == if !(s.prepared && s.sent && s.recorded) then d.prepared
                       else if off then d.read
                       else if s.delivered then After(d.prompted, s.afterPrompt)
                       else d.prompted
  {
    CountedIs(cfg, w, a, tool);
    LaunchRestart.RestartRelaunches(cfg, w, a, s);
    var from, t := LaunchRestart.Counted(cfg, w, a), w.db.agents[a].task.value;
    if Recorded(s) {
      RecordedIs(from, a, t, s);
    } else {
      RelaunchIs(from, a, t, s);
    }
  }

  // The agent's row afterwards: one more restart, the chosen tool, and the new session once
  // it was recorded.
  lemma RestartedRow(cfg: Config, w: World, a: AgentId, s: RestartScript, tool: Tool)
    requires a in w.db.agents && w.db.agents[a].restarts < 3 && Chosen(cfg, w.db.agents[a].cli, tool)
    requires w.db.agents[a].task.Some? && w.db.agents[a].task.value in w.db.tasks
    ensures var r, row := Restart(cfg, w, a, s), w.db.agents[a];
            && a in r.db.agents && r.db.agents[a].restarts == row.restarts + 1 && r.db.agents[a].cli == tool
            && r.db.agents[a].session ==
               if s.prepared && s.sent && s.recorded then Some(Session(a, true)) else row.session
  {
    RestartAccount(cfg, w, a, s, tool);
    var row := w.db.agents[a];
    var counted := w.db.(agents := w.db.agents[a := row.(restarts := row.restarts + 1, cli := tool)]);
    AfterKeepsRow(counted, s.duringPrep, a);
    var d1 := After(counted, s.duringPrep);
    var now := d1.agents[a];
    var named := d1.(agents := d1.agents[a :=
      AgentRow(if row.status == Working then now.status else Working, now.cli, now.task, Some(Session(a, true)),
               now.restarts)]);
    AfterKeepsRow(named, s.duringReady, a);
    var d := RowsOfRestart(w.db, a, tool, s);
    AfterKeepsRow(d.read, s.beforePrompt, a);
    AfterKeepsRow(d.prompted, s.afterPrompt, a);
  }

  // ------------------------------------------------------------- a restart that does not

  // Below the limit, without a task row only the count changes, and without a tool the task
  // fails as well.
  lemma RestartWithout(cfg: Config, w: World, a: AgentId, s: RestartScript)
    ensures a !in w.db.agents ==> Restart(cfg, w, a, s) == w
    ensures a in w.db.agents && w.db.agents[a].restarts < 3 ==>
      var r, row := Restart(cfg, w, a, s), w.db.agents[a];
      var counted := w.db.agents[a := row.(restarts := row.restarts + 1)];
      && (row.task.None? || row.task.value !in w.db.tasks ==>
           r == w.(db := Db(counted, w.db.tasks), commits := r.commits))
      && (row.task.Some? && row.task.value in w.db.tasks && (forall tool :: !Chosen(cfg, row.cli, tool)) ==>
           var t := row.task.value;
           r == w.(db := Db(counted, w.db.tasks[t := w.db.tasks[t].(status := Failed)]), commits := r.commits))
  {
    if a in w.db.agents {
      var stored := w.db.agents[a].cli;
      var tool := RestartTool(cfg, stored);
      if tool.Some? { ToolIs(cfg, stored, tool.value); }
    }
  }

  predicate LeavesTask(acts: seq<EnvAction>, t: TaskId) {
    forall e :: e in acts ==> e.EnvTerminate? || e.task != t
  }

  lemma {:induction false} AfterKeepsDone(db: Db, acts: seq<EnvAction>, t: TaskId)
    requires t in db.tasks && db.tasks[t].status == Done && LeavesTask(acts, t)
    ensures After(db, acts).tasks[t] == db.tasks[t]
    decreases |acts|
  {
    if acts != [] {
      assert acts[0] in acts;
      AfterKeepsDone(Apply(db, acts[0]), acts[1..], t);
    }
  }

  // Main result: a restart at the limit, which is three. Its terminate goes first, so the
  // task is released and then failed, unless it is done or failed by then; a task that was
  // done stays as it is, if nobody else rewrites it meanwhile.
  lemma LimitAccount(cfg: Config, w: World, a: AgentId, s: RestartScript)
    requires a in w.db.agents && w.db.agents[a].restarts >= 3
    ensures var r, row, left := Restart(cfg, w, a, s), w.db.agents[a], After(Terminate(w.db, a), s.duringKill);
            && r == w.(db := r.db, sessions := r.sessions, commits := r.commits)
            && (!s.terminateOk ==> r == w)
            && (s.terminateOk ==>
                 && r.sessions == w.sessions - (if s.killOk && row.session.Some? then {row.session.value} else {})
                 && r.db.agents == left.agents
                 && (row.task.None? ==> r.db == left)
                 && (forall t :: t in left.tasks ==>
                      t in r.db.tasks &&
                      r.db.tasks[t] == if row.task == Some(t) && left.tasks[t].status !in {Done, Failed}
                                       then left.tasks[t].(status := Failed) else left.tasks[t])
                 && (row.task.Some? && row.task.value in w.db.tasks && w.db.tasks[row.task.value].status == Done
                     && LeavesTask(s.duringKill, row.task.value) ==>
                      r.db.tasks[row.task.value] == w.db.tasks[row.task.value]))
  {
    var row := w.db.agents[a];
    var w0 := KillNamed(Commit(w, Terminate(w.db, a)), row.session, s.killOk);
    OthersAre(w0, s.duringKill);
    if row.task.Some? && row.task.value in w.db.tasks && w.db.tasks[row.task.value].status == Done
       && LeavesTask(s.duringKill, row.task.value) {
      AfterKeepsDone(Terminate(w.db, a), s.duringKill, row.task.value);
    }
  }

  // ------------------------------------------------------------- commits are the states

  // The last commit is the state the database is in.
  ghost predicate Logged(w: World) { w.commits != [] ==> w.commits[|w.commits| - 1].db == w.db }

  ghost function Logging(): World -> bool { (w: World) => Logged(w) }

  lemma LoggingStable(t: TaskId)
    ensures Stable(Logging()) && StableFor(Logging(), t, 0)
  {}

  lemma OthersLogged(w: World, acts: seq<EnvAction>)
    requires Logged(w)
    ensures Logged(Others(w, acts))
  {
    LoggingStable(0);
    OthersPreserve(Logging(), w, acts);
  }

  lemma AfterRelaunchLogged(w: World, a: AgentId, t: TaskId, s: RestartScript)
    requires Logged(w)
    ensures Logged(AfterRelaunch(w, a, t, s))
  {
    var w1 := Others(w, s.duringReady);
    OthersLogged(w, s.duringReady);
    var w2 := Others(w1, s.beforePrompt);
    OthersLogged(w1, s.beforePrompt);
    OthersLogged(w2.(prompts := w2.prompts + [a]), s.afterPrompt);
  }

  lemma RelaunchLogged(w: World, a: AgentId, t: TaskId, s: RestartScript)
    requires a in w.db.agents && Logged(w)
    ensures Logged(Relaunch(w, a, t, s))
  {
    var w0 := KillNamed(w, w.db.agents[a].session, s.killOk);
    var w1 := Others(w0, s.duringPrep);
    OthersLogged(w0, s.duringPrep);
    var w3 := w1.(sessions := w1.sessions + {Session(a, true)}, relaunches := w1.relaunches + [a]);
    var row := Rework(w3.db.agents[a], a, w.db.agents[a].status);
    AfterRelaunchLogged(Commit(w3, w3.db.(agents := w3.db.agents[a := row])), a, t, s);
  }

  lemma RestartLogged(cfg: Config, w: World, a: AgentId, s: RestartScript)
    requires Logged(w)
    ensures Logged(Restart(cfg, w, a, s))
  {
    if LaunchRestart.Relaunches(cfg, w, a) {
      LaunchRestart.RestartRelaunches(cfg, w, a, s);
      RelaunchLogged(LaunchRestart.Counted(cfg, w, a), a, w.db.agents[a].task.value, s);
    } else if a in w.db.agents && w.db.agents[a].restarts >= MAX_RESTARTS {
      OthersLogged(KillNamed(Commit(w, Terminate(w.db, a)), w.db.agents[a].session, s.killOk), s.duringKill);
    }
  }

  // In every run the database is always in the state of its last commit, so that what is
  // proved of every commit is proved of every state a crash can leave behind.
  lemma {:induction false} EveryStateCommitted(cfg: Config, w: World, calls: seq<Call>)
    requires Logged(w) && forall c :: c in calls ==> CallOk(cfg, c)
    ensures Logged(Run(cfg, w, calls))
    decreases |calls|
  {
    if calls != [] {
      assert CallOk(cfg, calls[0]);
      match calls[0] {
        case CreateCall(t, phase, assign, q, plan, acts) =>
          LoggingStable(t);
          CreatePreserves(Logging(), cfg, Load(w, t), t, phase, assign, q, plan, 0);
          OthersLogged(Create(cfg, Load(w, t), t, phase, assign, q, plan).0, acts);
        case RestartCall(a, s) => RestartLogged(cfg, w, a, s);
        case EnvCall(_) =>
      }
      EveryStateCommitted(cfg, Exec(cfg, w, calls[0]), calls[1..]);
    }
  }
}
