/**
 One call of `create_agent_for_task` and one call of `restart_agent`, as functions from a
 world and a script. The script resolves everything the code cannot control: which step
 raises, and what other code commits at each point where the call waits.
 */
module LaunchSpec {
  import opened Wrappers
  import opened LaunchConfig
  import opened LaunchState

  // The caller's own task object: its two columns as they stand, and as they were loaded.
  datatype Mem = Mem(status: TaskStatus, owner: Option<AgentId>, status0: TaskStatus, owner0: Option<AgentId>)

  // One commit, and for other code's commits what it did.
  datatype Entry = Own(db: Db) | Other(db: Db, act: EnvAction)

  datatype Start = Start(agent: AgentId, cli: Tool)

  // db is always the last committed state, commits all of them in order, so a crash at any
  // point leaves one of the commits behind.
  datatype World = World(db: Db, mem: Mem, sessions: set<Session>, prompts: seq<AgentId>, starts: seq<Start>,
                         relaunches: seq<AgentId>, nextId: AgentId, commits: seq<Entry>)

  datatype LaunchStep = NotSent | SentNotMerged | SentNotCommitted | Recorded
  datatype Delivery = DiedBefore | RaisedAfterPrompt | Delivered

  datatype Attempt = Attempt(
    stubOk: bool,
    duringPrep: seq<EnvAction>, prepared: bool, sessionCreated: bool,
    duringLaunch: seq<EnvAction>, launch: LaunchStep,
    afterRecord: seq<EnvAction>,
    blockingStep: bool, duringScan: seq<EnvAction>, scanOk: bool,
    duringReady: seq<EnvAction>,
    beforePrompt: seq<EnvAction>, delivery: Delivery, afterPrompt: seq<EnvAction>,
    beforeFallback: seq<EnvAction>, killOk: bool, terminateOk: bool,
    beforeCleanup: seq<EnvAction>, finalKillOk: bool, cleanupOk: bool)

  datatype Outcome =
    | Existing(agent: AgentId)
    | Skipped
    | Aborted(agent: AgentId)
    | Launched(agent: AgentId)
    | Raised

  datatype Progress =
    | Going(w: World)
    | Over(w: World, outcome: Outcome)
    | Failing(w: World, bound: bool)

  function Commit(w: World, d: Db): World {
    w.(db := d, commits := w.commits + [Own(d)])
  }

  function CommitOther(w: World, e: EnvAction): World {
    w.(db := Apply(w.db, e), commits := w.commits + [Other(Apply(w.db, e), e)])
  }

  function Others(w: World, acts: seq<EnvAction>): (r: World)
    ensures r.db.agents.Keys == w.db.agents.Keys && r.db.tasks.Keys == w.db.tasks.Keys
    decreases |acts|
  {
    if acts == [] then w else Others(CommitOther(w, acts[0]), acts[1..])
  }

  // ------------------------------------------------------------- create

  function Prepare(w: World, a: AgentId, s: Attempt): Progress {
    var w1 := Others(w, s.duringPrep);
    var w2 := if s.prepared || s.sessionCreated then w1.(sessions := w1.sessions + {Session(a, false)}) else w1;
    if s.prepared then Going(w2) else Failing(w2, false)
  }

  function Launch(w: World, a: AgentId, cli: Tool, t: TaskId, s: Attempt): Progress {
    var w1 := Others(w, s.duringLaunch);
    if s.launch.NotSent? then Failing(w1, true)
    else
      var w2 := w1.(starts := w1.starts + [Start(a, cli)]);
      if s.launch.SentNotMerged? then Failing(w2, true)
      else
        var w3 := w2.(mem := w2.mem.(status := InProgress, owner := Some(a)));
        if s.launch.SentNotCommitted? then Failing(w3, true)
        else Going(Commit(w3, Record(w3.db, a, cli, t)))
  }

  // An abort kills the session and copies the database's task fields over the caller's.
  function RaceCheck(w: World, a: AgentId, t: TaskId): Progress {
    if Doomed(w.db, a, t) then
      var mem := if t in w.db.tasks then w.mem.(status := w.db.tasks[t].status, owner := w.db.tasks[t].owner)
                 else w.mem;
      Over(w.(sessions := w.sessions - {Session(a, false)}, mem := mem), Aborted(a))
    else Going(w)
  }

  // A phase with a blocking step is checked before it, and its grace period is committed.
  function BlockingStep(w: World, a: AgentId, t: TaskId, s: Attempt): Progress {
    var w1 := Others(w, s.afterRecord);
    if !s.blockingStep then Going(w1)
    else match RaceCheck(w1, a, t)
      case Going(w2) =>
        var w3 := Others(Commit(w2, w2.db), s.duringScan);
        if s.scanOk then Going(w3) else Failing(w3, true)
      case p => p
  }

  // Confirmation keys and the wait for the tool's own servers come after the last check and
  // before the prompt; the wait for a rejection, the goal and the session record after it.
  function Deliver(w: World, a: AgentId, t: TaskId, s: Attempt): Progress {
    match RaceCheck(Others(w, s.duringReady), a, t)
    case Going(w1) =>
      var w2 := Others(w1, s.beforePrompt);
      if s.delivery.DiedBefore? then Failing(w2, true)
      else
        var w3 := Others(w2.(prompts := w2.prompts + [a]), s.afterPrompt);
        if s.delivery.Delivered? then Over(w3, Launched(a)) else Failing(w3, true)
    case p => p
  }

  function AfterLaunch(w: World, a: AgentId, t: TaskId, s: Attempt): Progress {
    match BlockingStep(w, a, t, s)
    case Going(w1) => Deliver(w1, a, t, s)
    case p => p
  }

  function RunAttempt(w: World, a: AgentId, cli: Tool, t: TaskId, s: Attempt): Progress {
    match Prepare(w, a, s)
    case Going(w1) =>
      (match Launch(w1, a, cli, t, s)
       case Going(w2) => AfterLaunch(w2, a, t, s)
       case p => p)
    case p => p
  }

  function Kill(w: World, a: AgentId, ok: bool): World {
    if ok then w.(sessions := w.sessions - {Session(a, false)}) else w
  }

  function BeforeFallback(w: World, a: AgentId, bound: bool, s: Attempt): World {
    var w1 := Kill(Others(w, s.beforeFallback), a, bound && s.killOk);
    if s.terminateOk then Commit(w1, Terminate(w1.db, a)) else w1
  }

  function Cleanup(w: World, a: AgentId, t: TaskId, bound: bool, s: Attempt): World {
    var w1 := Kill(Others(w, s.beforeCleanup), a, bound && s.finalKillOk);
    if s.cleanupOk then Commit(w1, FailTask(Terminate(w1.db, a), t)) else w1
  }

  function Stubbed(w: World, cli: Tool, t: TaskId, assign: bool): World {
    Commit(w, InsertStub(w.db, w.nextId, cli, t, assign)).(nextId := w.nextId + 1)
  }

  // The task's phase is the one the caller's object carries. The recursive call does not
  // forward `assign`.
  function Create(cfg: Config, w: World, t: TaskId, phase: Option<PhaseId>, assign: bool, q: Request,
                  plan: seq<Attempt>): (r: (World, Outcome))
    requires |plan| > Rank(cfg, q)
    decreases Rank(cfg, q)
  {
    var existing := FirstActive(w.db, t, 0, w.nextId);
    if existing.Some? then (w, Existing(existing.value))
    else if SiblingActive(w.db, t, phase) then (w, Skipped)
    else if !plan[0].stubOk then (w, Raised)
    else
      var pc := Resolve(cfg, q);
      match RunAttempt(Stubbed(w, pc.cli, t, assign), w.nextId, pc.cli, t, plan[0])
      case Over(w1, o) => (w1, o)
      case Going(w1) => (w1, Raised)  // RunAttempt always ends Over or Failing
      case Failing(w1, bound) =>
        if FallsBack(pc) then
          FallbackLowersRank(cfg, q);
          var (w2, o) := Create(cfg, BeforeFallback(w1, w.nextId, bound, plan[0]), t, phase, false,
                                FallbackRequest(pc, q), plan[1..]);
          if o.Raised? then (Cleanup(w2, w.nextId, t, bound, plan[0]), Raised) else (w2, o)
        else (Cleanup(w1, w.nextId, t, bound, plan[0]), Raised)
  }

  predicate Changed(mem: Mem) { mem.status != mem.status0 || mem.owner != mem.owner0 }

  // Only columns that differ from what was loaded are written.
  function WriteBack(db: Db, t: TaskId, mem: Mem): Db {
    if t in db.tasks then
      var row := db.tasks[t];
      SetTask(db, t, if mem.status != mem.status0 then mem.status else row.status,
              if mem.owner != mem.owner0 then mem.owner else row.owner)
    else db
  }

  // The caller commits its own session after any normal return.
  function CallerCommit(w: World, t: TaskId, o: Outcome): World {
    if o.Raised? || !Changed(w.mem) then w
    else Commit(w, WriteBack(w.db, t, w.mem)).(mem := Mem(w.mem.status, w.mem.owner, w.mem.status, w.mem.owner))
  }

  // ------------------------------------------------------------- restart

  datatype RestartScript = RestartScript(
    terminateOk: bool, duringKill: seq<EnvAction>,
    killOk: bool, duringPrep: seq<EnvAction>, prepared: bool, sent: bool, recorded: bool,
    duringReady: seq<EnvAction>,
    beforePrompt: seq<EnvAction>, delivered: bool, afterPrompt: seq<EnvAction>)

  const MAX_RESTARTS := 3

  // The tool to relaunch under: the stored one, or a configured one if it is gone.
  function RestartTool(cfg: Config, stored: Tool): Option<Tool> {
    if cfg.available(stored) then Some(stored)
    else
      var fb := OrElse(cfg.fallbackTool, "");
      if fb != "" && fb != stored && cfg.available(fb) then Some(fb)
      else if cfg.defaultTool != "" && cfg.defaultTool != stored && cfg.available(cfg.defaultTool) then
        Some(cfg.defaultTool)
      else None
  }

  function KillNamed(w: World, s: Option<Session>, ok: bool): World {
    if ok && s.Some? then w.(sessions := w.sessions - {s.value}) else w
  }

  function ExceedRestarts(w: World, a: AgentId, s: RestartScript): World
    requires a in w.db.agents
  {
    var row := w.db.agents[a];
    if !s.terminateOk then w
    else
      var w1 := Others(KillNamed(Commit(w, Terminate(w.db, a)), row.session, s.killOk), s.duringKill);
      if row.task.Some? && row.task.value in w1.db.tasks
         && !w1.db.tasks[row.task.value].status.Done? && !w1.db.tasks[row.task.value].status.Failed?
      then Commit(w1, FailTask(w1.db, row.task.value))
      else w1
  }

  // The final write of a restart. The row was read once, before the preparation; setting
  // its status to the value it was read with writes nothing.
  function Rework(row: AgentRow, a: AgentId, read: AgentStatus): AgentRow {
    row.(status := if read.Working? then row.status else Working, session := Some(Session(a, true)))
  }

  function Relaunch(w: World, a: AgentId, t: TaskId, s: RestartScript): World
    requires a in w.db.agents
  {
    var w1 := Others(KillNamed(w, w.db.agents[a].session, s.killOk), s.duringPrep);
    if !s.prepared then w1
    else
      var w2 := w1.(sessions := w1.sessions + {Session(a, true)});
      if !s.sent then w2
      else
        var w3 := w2.(relaunches := w2.relaunches + [a]);
        if !s.recorded then w3
        else
          var row := Rework(w3.db.agents[a], a, w.db.agents[a].status);
          AfterRelaunch(Commit(w3, w3.db.(agents := w3.db.agents[a := row])), a, t, s)
  }

  function AfterRelaunch(w: World, a: AgentId, t: TaskId, s: RestartScript): World {
    var w1 := Others(w, s.duringReady);
    if Doomed(w1.db, a, t) then w1.(sessions := w1.sessions - {Session(a, true)})
    else
      var w2 := Others(w1, s.beforePrompt);
      if !s.delivered then w2 else Others(w2.(prompts := w2.prompts + [a]), s.afterPrompt)
  }

  function Restart(cfg: Config, w: World, a: AgentId, s: RestartScript): World {
    if a !in w.db.agents then w
    else if w.db.agents[a].restarts >= MAX_RESTARTS then ExceedRestarts(w, a, s)
    else
      var row := w.db.agents[a].(restarts := w.db.agents[a].restarts + 1);
      var w1 := Commit(w, w.db.(agents := w.db.agents[a := row]));
      if row.task.None? || row.task.value !in w1.db.tasks then w1
      else
        var tool := RestartTool(cfg, row.cli);
        if tool.None? then Commit(w1, FailTask(w1.db, row.task.value))
        else
          var w2 := if tool.value == row.cli then w1
                    else Commit(w1, w1.db.(agents := w1.db.agents[a := row.(cli := tool.value)]));
          Relaunch(w2, a, row.task.value, s)
  }

  // ------------------------------------------------------------- runs

  datatype Call =
    | CreateCall(task: TaskId, phase: Option<PhaseId>, assign: bool, request: Request, plan: seq<Attempt>,
                 beforeCommit: seq<EnvAction>)
    | RestartCall(agent: AgentId, script: RestartScript)
    | EnvCall(action: EnvAction)

  predicate CallOk(cfg: Config, c: Call) {
    c.CreateCall? ==> |c.plan| > Rank(cfg, c.request)
  }

  function Fresh(row: TaskRow): Mem { Mem(row.status, row.owner, row.status, row.owner) }

  // The caller loads the task before it asks for an agent, and commits afterwards.
  function Load(w: World, t: TaskId): World {
    if t in w.db.tasks then w.(mem := Fresh(w.db.tasks[t])) else w
  }

  function Exec(cfg: Config, w: World, c: Call): World
    requires CallOk(cfg, c)
  {
    match c
    case CreateCall(t, phase, assign, q, plan, acts) =>
      if t !in w.db.tasks then w
      else
        var (w1, o) := Create(cfg, Load(w, t), t, phase, assign, q, plan);
        CallerCommit(Others(w1, acts), t, o)
    case RestartCall(a, s) => Restart(cfg, w, a, s)
    case EnvCall(e) => CommitOther(w, e)
  }

  function Run(cfg: Config, w: World, calls: seq<Call>): World
    requires forall c :: c in calls ==> CallOk(cfg, c)
    decreases |calls|
  {
    if calls == [] then w else Run(cfg, Exec(cfg, w, calls[0]), calls[1..])
  }
}
