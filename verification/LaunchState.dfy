/**
 The rows an agent launch reads and writes, and each committed step as a function from
 one database state to the next. Sessions of the ORM are atomic commits on these maps.
 */
module LaunchState {
  import opened Wrappers
  import opened LaunchConfig

  type AgentId = nat
  type TaskId = nat
  type PhaseId = nat

  datatype AgentStatus = Idle | Working | Stuck | Terminated | Starting

  datatype TaskStatus =
    | Pending | Queued | Blocked | Assigned | InProgress | UnderReview
    | ValidationInProgress | NeedsWork | Done | Failed | Duplicated

  // A tmux session is named after its agent; a restarted agent gets a second name.
  datatype Session = Session(agent: AgentId, restarted: bool)

  datatype AgentRow = AgentRow(status: AgentStatus, cli: Tool, task: Option<TaskId>, session: Option<Session>,
                               restarts: nat)
  datatype TaskRow = TaskRow(status: TaskStatus, owner: Option<AgentId>, phase: Option<PhaseId>)

  datatype Db = Db(agents: map<AgentId, AgentRow>, tasks: map<TaskId, TaskRow>)

  predicate Terminal(s: TaskStatus) { s.Done? || s.Failed? || s.Duplicated? }

  // ------------------------------------------------------------- committed steps

  // The statuses under which a dying agent's task is handed back.
  predicate Stray(row: TaskRow, a: AgentId) {
    && row.owner == Some(a)
    && (row.status.Assigned? || row.status.InProgress? || row.status.Pending? || row.status.UnderReview?
        || row.status.NeedsWork?)
  }

  function Release(row: TaskRow, a: AgentId): TaskRow {
    if Stray(row, a) then row.(status := Pending, owner := None) else row
  }

  // The shared termination primitive: stray tasks first, then the agent row.
  function Terminate(db: Db, a: AgentId): (r: Db)
    ensures r.agents.Keys == db.agents.Keys && r.tasks.Keys == db.tasks.Keys
  {
    if a !in db.agents then db
    else Db(db.agents[a := db.agents[a].(status := Terminated, task := None)],
            map t | t in db.tasks :: Release(db.tasks[t], a))
  }

  function SetTask(db: Db, t: TaskId, status: TaskStatus, owner: Option<AgentId>): (r: Db)
    ensures r.agents == db.agents && r.tasks.Keys == db.tasks.Keys
  {
    if t in db.tasks then db.(tasks := db.tasks[t := db.tasks[t].(status := status, owner := owner)]) else db
  }

  function FailTask(db: Db, t: TaskId): (r: Db)
    ensures r.agents == db.agents && r.tasks.Keys == db.tasks.Keys
  {
    if t in db.tasks then SetTask(db, t, Failed, db.tasks[t].owner) else db
  }

  // The stub row; with `assign`, the task is claimed in the same commit.
  function InsertStub(db: Db, a: AgentId, cli: Tool, t: TaskId, assign: bool): Db {
    var d := db.(agents := db.agents[a := AgentRow(Idle, cli, Some(t), None, 0)]);
    if assign then SetTask(d, t, InProgress, Some(a)) else d
  }

  // `session.merge`: overwrites the stub's columns, whatever has happened to it since.
  function Record(db: Db, a: AgentId, cli: Tool, t: TaskId): Db {
    var restarts := if a in db.agents then db.agents[a].restarts else 0;
    db.(agents := db.agents[a := AgentRow(Working, cli, Some(t), Some(Session(a, false)), restarts)])
  }

  // ------------------------------------------------------------- guards

  predicate Active(db: Db, a: AgentId, t: TaskId) {
    a in db.agents && db.agents[a].task == Some(t) && (db.agents[a].status.Working? || db.agents[a].status.Idle?)
  }

  // The first active agent of a task among the ids issued so far, in order of insertion.
  function FirstActive(db: Db, t: TaskId, lo: AgentId, hi: AgentId): (r: Option<AgentId>)
    requires lo <= hi
    ensures r.Some? ==> lo <= r.value < hi && Active(db, r.value, t)
    ensures r.None? ==> forall a :: lo <= a < hi ==> !Active(db, a, t)
    decreases hi - lo
  {
    if lo == hi then None
    else if Active(db, lo, t) then Some(lo)
    else FirstActive(db, t, lo + 1, hi)
  }

  predicate HoldsPhase(row: TaskRow, p: PhaseId) {
    && row.phase == Some(p)
    && (row.status.Pending? || row.status.Assigned? || row.status.InProgress? || row.status.UnderReview?
        || row.status.ValidationInProgress? || row.status.NeedsWork?)
  }

  predicate SiblingActive(db: Db, t: TaskId, phase: Option<PhaseId>) {
    phase.Some? && exists t' :: t' in db.tasks && t' != t && HoldsPhase(db.tasks[t'], phase.value)
  }

  predicate Alive(db: Db, a: AgentId) { a in db.agents && !db.agents[a].status.Terminated? }

  // What the termination-race check looks for.
  predicate AgentTerminated(db: Db, a: AgentId) { a in db.agents && db.agents[a].status.Terminated? }

  predicate TaskTaken(db: Db, a: AgentId, t: TaskId) {
    && t in db.tasks
    && (|| Terminal(db.tasks[t].status)
        || (db.tasks[t].owner.Some? && db.tasks[t].owner != Some(a) && Alive(db, db.tasks[t].owner.value)))
  }

  predicate Doomed(db: Db, a: AgentId, t: TaskId) { AgentTerminated(db, a) || TaskTaken(db, a, t) }

  // ------------------------------------------------------------- invariants

  // At most one working or idle agent per task.
  ghost predicate Unique(db: Db) {
    forall a, b, t :: Active(db, a, t) && Active(db, b, t) ==> a == b
  }

  // No agent other than a is active on t.
  ghost predicate OnlyOn(db: Db, a: AgentId, t: TaskId) {
    forall b :: Active(db, b, t) ==> b == a
  }

  // Termination clears the agent's task, and nothing in the launch path writes the two
  // statuses that are neither live nor terminated.
  predicate RowOk(row: AgentRow) {
    && (row.status.Terminated? ==> row.task == None)
    && !row.status.Stuck? && !row.status.Starting?
  }

  predicate RowsOk(db: Db) {
    forall a :: a in db.agents ==> RowOk(db.agents[a])
  }

  predicate IdsBelow(db: Db, n: AgentId) {
    forall a :: a in db.agents ==> a < n
  }

  ghost predicate Sound(db: Db, n: AgentId) { Unique(db) && RowsOk(db) && IdsBelow(db, n) }

  lemma TerminateSound(db: Db, a: AgentId, n: AgentId)
    requires Sound(db, n)
    ensures Sound(Terminate(db, a), n)
    ensures forall b, t :: Active(Terminate(db, a), b, t) ==> b != a && Active(db, b, t)
    ensures a in db.agents ==> AgentTerminated(Terminate(db, a), a)
  {
    var r := Terminate(db, a);
    assert forall b, t :: Active(r, b, t) ==> b != a && Active(db, b, t);
  }

  lemma TasksDoNotMatter(db: Db, r: Db, n: AgentId)
    requires Sound(db, n) && r.agents == db.agents
    ensures Sound(r, n)
    ensures forall b, t :: Active(r, b, t) <==> Active(db, b, t)
  {
    assert forall b, t :: Active(r, b, t) <==> Active(db, b, t);
  }

  lemma StubSound(db: Db, a: AgentId, cli: Tool, t: TaskId, assign: bool)
    requires Sound(db, a) && forall b :: b in db.agents ==> !Active(db, b, t)
    ensures Sound(InsertStub(db, a, cli, t, assign), a + 1)
    ensures OnlyOn(InsertStub(db, a, cli, t, assign), a, t)
  {
    var r := InsertStub(db, a, cli, t, assign);
    assert forall b, u :: b != a ==> (Active(r, b, u) <==> Active(db, b, u));
  }

  lemma RecordSound(db: Db, a: AgentId, cli: Tool, t: TaskId, n: AgentId)
    requires Sound(db, n) && a < n && OnlyOn(db, a, t)
    ensures Sound(Record(db, a, cli, t), n) && OnlyOn(Record(db, a, cli, t), a, t)
  {
    var r := Record(db, a, cli, t);
    assert forall b, u :: b != a ==> (Active(r, b, u) <==> Active(db, b, u));
  }

  // ------------------------------------------------------------- everyone else

  // What other code commits while a launch is waiting: it terminates agents and rewrites
  // task rows, but dispatch is serialised, so it does not create agents.
  datatype EnvAction = EnvTerminate(agent: AgentId) | EnvTask(task: TaskId, status: TaskStatus, owner: Option<AgentId>)

  function Apply(db: Db, e: EnvAction): Db {
    match e
    case EnvTerminate(a) => Terminate(db, a)
    case EnvTask(t, s, o) => SetTask(db, t, s, o)
  }

  lemma ApplySound(db: Db, e: EnvAction, n: AgentId)
    requires Sound(db, n)
    ensures Sound(Apply(db, e), n)
    ensures Apply(db, e).agents.Keys == db.agents.Keys
    ensures forall b, t :: Active(Apply(db, e), b, t) ==> Active(db, b, t)
    ensures forall b :: AgentTerminated(db, b) ==> AgentTerminated(Apply(db, e), b)
  {
    match e
    case EnvTerminate(a) => TerminateSound(db, a, n);
    case EnvTask(t, s, o) => TasksDoNotMatter(db, Apply(db, e), n);
  }
}
