/**
 What a create call leaves in the caller's own task object, and what the caller's commit
 then makes of the task row.
 */
module LaunchCaller {
  import opened Wrappers
  import opened LaunchConfig
  import opened LaunchState
  import opened LaunchSpec
  import opened LaunchSteps
  import opened LaunchProofs
  import opened LaunchRace
  import LaunchCleanup

  // ------------------------------------------------------------- who wrote the object

  // The attempt gets as far as writing to the caller's object.
  predicate Writes(s: Attempt) {
    s.prepared && (s.launch.SentNotCommitted? || s.launch.Recorded?)
  }

  // The agent of the last of the first n attempts that did.
  function LastWriter(plan: seq<Attempt>, n: nat, first: AgentId): Option<AgentId>
    decreases n
  {
    if n == 0 || plan == [] then None
    else match LastWriter(plan[1..], n - 1, first + 1)
      case Some(b) => Some(b)
      case None => if Writes(plan[0]) then Some(first) else None
  }

  lemma {:induction false} LastWriterIn(plan: seq<Attempt>, n: nat, first: AgentId)
    ensures LastWriter(plan, n, first).Some? ==> first <= LastWriter(plan, n, first).value < first + n
    decreases n
  {
    if n > 0 && plan != [] { LastWriterIn(plan[1..], n - 1, first + 1); }
  }

  function Written(mem: Mem, last: Option<AgentId>): Mem {
    if last.Some? then mem.(status := InProgress, owner := last) else mem
  }

  // ------------------------------------------------------------- one attempt

  ghost predicate Attempted(w: World, p: Progress, a: AgentId, t: TaskId, s: Attempt) {
    && !p.Going? && p.w.nextId == w.nextId
    && (p.Over? ==> p.outcome == Aborted(a) || p.outcome == Launched(a))
    && (p.Over? && p.outcome == Aborted(a) ==>
         && p.w.prompts == w.prompts && Doomed(p.w.db, a, t) && Session(a, false) !in p.w.sessions
         && MemAgrees(p.w, t) && p.w.mem.status0 == w.mem.status0 && p.w.mem.owner0 == w.mem.owner0)
    && (!(p.Over? && p.outcome == Aborted(a)) ==> p.w.mem == Written(w.mem, if Writes(s) then Some(a) else None))
    && (p.Over? && p.outcome == Launched(a) ==>
         && Writes(s) && Session(a, false) in p.w.sessions && p.w.prompts == w.prompts + [a]
         && (AgentTerminated(p.w.db, a) <==> TooLate(s, a)))
  }

  predicate SameLoad(w: World, r: World) {
    r.mem.status0 == w.mem.status0 && r.mem.owner0 == w.mem.owner0
  }

  lemma DeliverKeepsLoad(w: World, a: AgentId, t: TaskId, s: Attempt)
    ensures SameLoad(w, Deliver(w, a, t, s).w)
  {
    var w2 := Others(w, s.duringReady);
    OthersFrame(w, s.duringReady);
    OthersFrame(w2, s.beforePrompt);
    var w3 := Others(w2, s.beforePrompt);
    OthersFrame(w3.(prompts := w3.prompts + [a]), s.afterPrompt);
  }

  lemma MemAfterLaunch(w: World, a: AgentId, t: TaskId, s: Attempt)
    ensures SameLoad(w, AfterLaunch(w, a, t, s).w)
  {
    OthersFrame(w, s.afterRecord);
    var w1 := Others(w, s.afterRecord);
    OthersFrame(Commit(w1, w1.db), s.duringScan);
    var b := BlockingStep(w, a, t, s);
    if b.Going? { DeliverKeepsLoad(b.w, a, t, s); }
  }

  lemma AttemptVerdict(w: World, a: AgentId, cli: Tool, t: TaskId, s: Attempt)
    requires Held(w, a, t) && a in w.db.agents
    ensures Attempted(w, RunAttempt(w, a, cli, t, s), a, t, s)
  {
    OthersFrame(w, s.duringPrep);
    var p := Prepare(w, a, s);
    if p.Going? { OthersFrame(p.w, s.duringLaunch); }
    if s.prepared && s.launch.Recorded? {
      RecordedActive(w, a, cli, t, s);
      var r := RecordedIn(w, a, cli, t, s);
      VerdictAfterLaunch(r, a, t, s);
      PromptedAfterRecord(r, a, t, s);
      MemAfterLaunch(r, a, t, s);
    }
  }

  // ------------------------------------------------------------- the whole call

  // Everything the caller can rely on after a call, fallbacks included.
  ghost predicate Accounted(w: World, r: World, o: Outcome, t: TaskId, plan: seq<Attempt>) {
    && Ok(r) && w.nextId <= r.nextId <= w.nextId + |plan|
    && (forall b :: w.nextId <= b < r.nextId ==> ActiveUnlessTerminated(r.db, b, t))
    && (!o.Aborted? ==> r.mem == Written(w.mem, LastWriter(plan, r.nextId - w.nextId, w.nextId)))
    && (o.Aborted? ==>
         && w.nextId <= o.agent < r.nextId && Doomed(r.db, o.agent, t)
         && Session(o.agent, false) !in r.sessions && MemAgrees(r, t)
         && r.mem.status0 == w.mem.status0 && r.mem.owner0 == w.mem.owner0)
    && (o.Launched? ==>
         && w.nextId <= o.agent < r.nextId && LastWriter(plan, r.nextId - w.nextId, w.nextId) == Some(o.agent)
         && Session(o.agent, false) in r.sessions && r.prompts != [] && r.prompts[|r.prompts| - 1] == o.agent
         && (AgentTerminated(r.db, o.agent) <==> TooLate(plan[o.agent - w.nextId], o.agent)))
    && (o.Existing? ==> Active(r.db, o.agent, t))
    && (o.Skipped? ==> forall b :: w.nextId <= b < r.nextId ==> !Active(r.db, b, t))
  }

  // The first attempt in front of the rest of the call, and the cleanup behind it.
  lemma AccountedStep(w: World, w1: World, w2: World, o: Outcome, t: TaskId, plan: seq<Attempt>)
    requires plan != [] && w1.nextId == w.nextId + 1
    requires w1.mem == Written(w.mem, if Writes(plan[0]) then Some(w.nextId) else None)
    requires Accounted(w1, w2, o, t, plan[1..]) && ActiveUnlessTerminated(w2.db, w.nextId, t)
    requires o.Skipped? ==> !Active(w2.db, w.nextId, t)
    ensures Accounted(w, w2, o, t, plan)
  {
    var n := w2.nextId - w.nextId;
    assert LastWriter(plan, n, w.nextId) ==
           match LastWriter(plan[1..], n - 1, w1.nextId)
           case Some(b) => Some(b)
           case None => if Writes(plan[0]) then Some(w.nextId) else None;
  }

  lemma FirstStep(w: World, w0: World, p: Progress, t: TaskId, plan: seq<Attempt>)
    requires plan != [] && w0.mem == w.mem && w0.nextId == w.nextId + 1
    requires p.Over? && Ok(p.w) && Attempted(w0, p, w.nextId, t, plan[0])
    requires ActiveUnlessTerminated(p.w.db, w.nextId, t)
    ensures Accounted(w, p.w, p.outcome, t, plan)
  {
    var s := plan[0];
    assert LastWriter(plan, 1, w.nextId) == if Writes(s) then Some(w.nextId) else None by {
      assert LastWriter(plan[1..], 0, w.nextId + 1) == None;
    }
  }

  lemma FailedStep(w: World, w0: World, p: Progress, t: TaskId, plan: seq<Attempt>)
    requires plan != [] && w0.mem == w.mem && w0.nextId == w.nextId + 1
    requires p.Failing? && Ok(p.w) && Attempted(w0, p, w.nextId, t, plan[0])
    requires ActiveUnlessTerminated(p.w.db, w.nextId, t)
    ensures Accounted(w, Cleanup(p.w, w.nextId, t, p.bound, plan[0]), Raised, t, plan)
  {
    CleanupOk(p.w, w.nextId, t, p.bound, plan[0]);
    OthersFrame(p.w, plan[0].beforeCleanup);
    ActiveStable(w.nextId, t);
    ActiveStableFor(w.nextId, t, w.nextId);
    CleanupPreserves(ActiveOn(w.nextId, t), p.w, t, w.nextId, w.nextId, p.bound, plan[0]);
    assert LastWriter(plan, 1, w.nextId) == if Writes(plan[0]) then Some(w.nextId) else None by {
      assert LastWriter(plan[1..], 0, w.nextId + 1) == None;
    }
  }

  lemma NewAttempt(w: World, cli: Tool, t: TaskId, assign: bool, s: Attempt)
    requires Ok(w) && FirstActive(w.db, t, 0, w.nextId).None?
    ensures var w0, a := Stubbed(w, cli, t, assign), w.nextId;
            var p := RunAttempt(w0, a, cli, t, s);
            Attempted(w0, p, a, t, s) && Ok(p.w) && ActiveUnlessTerminated(p.w.db, a, t)
  {
    var w0, a := Stubbed(w, cli, t, assign), w.nextId;
    StubHeld(w, cli, t, assign);
    AttemptVerdict(w0, a, cli, t, s);
    AttemptHeld(w0, a, cli, t, s);
    ActiveStable(a, t);
    ActiveStableFor(a, t, a);
    assert KeptByRecord(ActiveOn(a, t), a, cli, t, w0.nextId);
    AttemptPreserves(ActiveOn(a, t), w0, a, cli, t, s);
  }

  lemma Released(w: World, a: AgentId, t: TaskId, bound: bool, s: Attempt)
    requires Ok(w) && a < w.nextId && ActiveUnlessTerminated(w.db, a, t)
    ensures var r := BeforeFallback(w, a, bound, s);
            Ok(r) && r.nextId == w.nextId && r.mem == w.mem && ActiveUnlessTerminated(r.db, a, t)
  {
    FallbackOk(w, a, bound, s);
    ActiveStable(a, t);
    ActiveStableFor(a, t, a);
    FallbackPreserves(ActiveOn(a, t), w, t, a, a, bound, s);
    OthersFrame(w, s.beforeFallback);
  }

  lemma {:induction false} CreateAccounted(cfg: Config, w: World, t: TaskId, phase: Option<PhaseId>, assign: bool,
                                           q: Request, plan: seq<Attempt>)
    requires Ok(w) && |plan| > Rank(cfg, q)
    ensures var (r, o) := Create(cfg, w, t, phase, assign, q, plan);
            Accounted(w, r, o, t, plan)
    decreases Rank(cfg, q)
  {
    if FirstActive(w.db, t, 0, w.nextId).None? && !SiblingActive(w.db, t, phase) && plan[0].stubOk {
      var pc, a, s := Resolve(cfg, q), w.nextId, plan[0];
      var w0 := Stubbed(w, pc.cli, t, assign);
      NewAttempt(w, pc.cli, t, assign, s);
      var p := RunAttempt(w0, a, pc.cli, t, s);
      if p.Over? {
        FirstStep(w, w0, p, t, plan);
      } else if FallsBack(pc) {
        FallbackLowersRank(cfg, q);
        Released(p.w, a, t, p.bound, s);
        var w1, q' := BeforeFallback(p.w, a, p.bound, s), FallbackRequest(pc, q);
        CreateAccounted(cfg, w1, t, phase, false, q', plan[1..]);
        FallbackAccounted(cfg, w, w1, t, phase, q', plan, a, p.bound, s);
      } else {
        FailedStep(w, w0, p, t, plan);
      }
    }
  }

  lemma FallbackAccounted(cfg: Config, w: World, w1: World, t: TaskId, phase: Option<PhaseId>, q: Request,
                          plan: seq<Attempt>, a: AgentId, bound: bool, s: Attempt)
    requires plan != [] && |plan[1..]| > Rank(cfg, q) && a == w.nextId && w1.nextId == w.nextId + 1 && Ok(w1)
    requires w1.mem == Written(w.mem, if Writes(plan[0]) then Some(a) else None)
    requires ActiveUnlessTerminated(w1.db, a, t)
    requires var (w2, o) := Create(cfg, w1, t, phase, false, q, plan[1..]); Accounted(w1, w2, o, t, plan[1..])
    ensures var (w2, o) := Create(cfg, w1, t, phase, false, q, plan[1..]);
            Accounted(w, if o.Raised? then Cleanup(w2, a, t, bound, s) else w2, o, t, plan)
  {
    var (w2, o) := Create(cfg, w1, t, phase, false, q, plan[1..]);
    ActiveStable(a, t);
    ActiveStableFor(a, t, w1.nextId);
    CreatePreserves(ActiveOn(a, t), cfg, w1, t, phase, false, q, plan[1..], w1.nextId);
    SkippedFindsNone(cfg, w1, t, phase, q, plan[1..]);
    AccountedStep(w, w1, w2, o, t, plan);
    if o.Raised? { CleanupAccounted(w, w2, t, plan, a, bound, s); }
  }

  lemma CleanupAccounted(w: World, w2: World, t: TaskId, plan: seq<Attempt>, a: AgentId, bound: bool, s: Attempt)
    requires Accounted(w, w2, Raised, t, plan) && w.nextId <= a < w2.nextId
    ensures Accounted(w, Cleanup(w2, a, t, bound, s), Raised, t, plan)
  {
    var r := Cleanup(w2, a, t, bound, s);
    CleanupOk(w2, a, t, bound, s);
    OthersFrame(w2, s.beforeCleanup);
    forall b | w.nextId <= b < r.nextId ensures ActiveUnlessTerminated(r.db, b, t) {
      ActiveStable(b, t);
      ActiveStableFor(b, t, w.nextId);
      CleanupPreserves(ActiveOn(b, t), w2, t, w.nextId, a, bound, s);
    }
  }

  // A call that is skipped found no active agent on the task.
  lemma {:induction false} SkippedFindsNone(cfg: Config, w: World, t: TaskId, phase: Option<PhaseId>, q: Request,
                                            plan: seq<Attempt>)
    requires |plan| > Rank(cfg, q)
    ensures var (r, o) := Create(cfg, w, t, phase, false, q, plan);
            o.Skipped? ==> FirstActive(r.db, t, 0, r.nextId).None?
    decreases Rank(cfg, q)
  {
    if MakesStub(w, t, phase, plan) {
      var pc, b, s := Resolve(cfg, q), w.nextId, plan[0];
      var p := RunAttempt(Stubbed(w, pc.cli, t, false), b, pc.cli, t, s);
      LaunchedAgent(Stubbed(w, pc.cli, t, false), b, pc.cli, t, s);
      if p.Failing? && FallsBack(pc) {
        FallbackLowersRank(cfg, q);
        SkippedFindsNone(cfg, BeforeFallback(p.w, b, p.bound, s), t, phase, FallbackRequest(pc, q), plan[1..]);
      }
    }
  }

  // ------------------------------------------------------------- the caller's commit

  // The task names an owner that is terminated.
  predicate DeadOwner(db: Db, t: TaskId) {
    t in db.tasks && db.tasks[t].owner.Some? && AgentTerminated(db, db.tasks[t].owner.value)
  }

  // As the caller loads it: unchanged, and naming no agent that does not exist yet.
  predicate Loaded(w: World) {
    !Changed(w.mem) && (w.mem.owner.Some? ==> w.mem.owner.value < w.nextId)
  }

  // What the load itself gives.
  lemma LoadGives(w: World, t: TaskId)
    requires t in w.db.tasks && (w.db.tasks[t].owner.Some? ==> w.db.tasks[t].owner.value < w.nextId)
    ensures Loaded(Load(w, t)) && MemAgrees(Load(w, t), t) && Load(w, t) == w.(mem := Load(w, t).mem)
  {}

  // The agent whose launch wrote the object the caller commits; none after an abort, which
  // copies the database's own fields over it.
  function Writer(w: World, r: World, o: Outcome, plan: seq<Attempt>): Option<AgentId>
    requires w.nextId <= r.nextId
  {
    if o.Aborted? then None else LastWriter(plan, r.nextId - w.nextId, w.nextId)
  }

  // What ended the writer by the time the call returned.
  predicate WriterEnded(o: Outcome, plan: seq<Attempt>, first: AgentId, b: AgentId) {
    match o
    case Existing(x) => b != x
    case Skipped => true
    case Launched(_) => first <= b < first + |plan| && TooLate(plan[b - first], b)
    case _ => false
  }

  lemma WriterEndedIff(w: World, r: World, o: Outcome, t: TaskId, plan: seq<Attempt>, b: AgentId)
    requires Accounted(w, r, o, t, plan) && !o.Raised? && Writer(w, r, o, plan) == Some(b)
    ensures w.nextId <= b < r.nextId && b in r.db.agents
    ensures AgentTerminated(r.db, b) <==> WriterEnded(o, plan, w.nextId, b)
  {
    LastWriterIn(plan, r.nextId - w.nextId, w.nextId);
    assert ActiveUnlessTerminated(r.db, b, t);
    if o.Existing? && b != o.agent { assert !Active(r.db, b, t); }
  }

  // What the commit makes of the two columns, told from the call's result and the database:
  // the writer's agent and in_progress, after an abort the fields copied from the database,
  // and in either case only where they differ from what was loaded.
  function OwnerWritten(w: World, r: World, o: Outcome, plan: seq<Attempt>, before: Db, t: TaskId): Option<AgentId>
    requires w.nextId <= r.nextId && t in r.db.tasks && t in before.tasks
  {
    var writer := Writer(w, r, o, plan);
    if writer.Some? then writer
    else if o.Aborted? && r.db.tasks[t].owner != w.mem.owner then r.db.tasks[t].owner
    else before.tasks[t].owner
  }

  function StatusWritten(w: World, r: World, o: Outcome, plan: seq<Attempt>, before: Db, t: TaskId): TaskStatus
    requires w.nextId <= r.nextId && t in r.db.tasks && t in before.tasks
  {
    var written := if o.Aborted? then r.db.tasks[t].status
                   else if Writer(w, r, o, plan).Some? then InProgress
                   else w.mem.status;
    if written != w.mem.status then written else before.tasks[t].status
  }

  // An agent that existed when the call returned is terminated by the time of the commit.
  predicate EndedBy(r: World, acts: seq<EnvAction>, x: Option<AgentId>) {
    x.Some? && x.value in r.db.agents && (AgentTerminated(r.db, x.value) || Ends(acts, x.value))
  }

  // Main result: for every call that returns normally, and whatever others still commit
  // before the caller does, exactly what the caller's commit writes to the task, and exactly
  // when it leaves the task with a terminated owner. Where an attempt wrote the object, that
  // is its agent, ended in between or as the outcome says: another agent was found, the
  // launch was skipped, or it was terminated after the last check. After an abort it is the
  // owner the check saw, or the one the database has by now if that is the one loaded.
  lemma CallerLeavesDeadOwnerIff(cfg: Config, w: World, t: TaskId, phase: Option<PhaseId>, assign: bool, q: Request,
                                 plan: seq<Attempt>, acts: seq<EnvAction>)
    requires Ok(w) && |plan| > Rank(cfg, q) && Loaded(w) && t in w.db.tasks
    ensures var (r, o) := Create(cfg, w, t, phase, assign, q, plan);
            var before := Others(r, acts).db;
            var d := CallerCommit(Others(r, acts), t, o).db;
            !o.Raised? ==>
              && w.nextId <= r.nextId && t in r.db.tasks && t in before.tasks
              && d == SetTask(before, t, StatusWritten(w, r, o, plan, before, t), OwnerWritten(w, r, o, plan, before, t))
              && (DeadOwner(d, t) <==> EndedBy(r, acts, OwnerWritten(w, r, o, plan, before, t)))
              && (match Writer(w, r, o, plan)
                  case Some(b) => DeadOwner(d, t) <==> WriterEnded(o, plan, w.nextId, b) || Ends(acts, b)
                  case None => !o.Aborted? || acts == [] ==> d == before)
  {
    CreateAccounted(cfg, w, t, phase, assign, q, plan);
    LaunchCleanup.CreateKeepsRows(cfg, w, t, phase, assign, q, plan);
    var (r, o) := Create(cfg, w, t, phase, assign, q, plan);
    if !o.Raised? {
      CommitWrites(w, r, o, t, plan, acts);
      var x := OwnerWritten(w, r, o, plan, Others(r, acts).db, t);
      if x.Some? && x.value in r.db.agents { OthersTerminateIff(r, acts, x.value); }
      OthersTouch(r, acts);
      var writer := Writer(w, r, o, plan);
      if writer.Some? { WriterEndedIff(w, r, o, t, plan, writer.value); }
    }
  }

  // A create call of a run loads the row first, and ends with exactly that commit.
  lemma RunCommits(cfg: Config, w: World, t: TaskId, phase: Option<PhaseId>, assign: bool, q: Request,
                   plan: seq<Attempt>, acts: seq<EnvAction>)
    requires Ok(w) && |plan| > Rank(cfg, q) && t in w.db.tasks
    requires w.db.tasks[t].owner.Some? ==> w.db.tasks[t].owner.value < w.nextId
    ensures var w0, end := Load(w, t), Exec(cfg, w, CreateCall(t, phase, assign, q, plan, acts)).db;
            var (r, o) := Create(cfg, w0, t, phase, assign, q, plan);
            var before := Others(r, acts).db;
            && w0 == w.(mem := Mem(w.db.tasks[t].status, w.db.tasks[t].owner, w.db.tasks[t].status, w.db.tasks[t].owner))
            && w.nextId <= r.nextId && t in r.db.tasks && t in before.tasks
            && end == if o.Raised? then before
                      else SetTask(before, t, StatusWritten(w0, r, o, plan, before, t),
                                   OwnerWritten(w0, r, o, plan, before, t))
  {
    LoadGives(w, t);
    CallerLeavesDeadOwnerIff(cfg, Load(w, t), t, phase, assign, q, plan, acts);
    CreateAccounted(cfg, Load(w, t), t, phase, assign, q, plan);
    LaunchCleanup.CreateKeepsRows(cfg, Load(w, t), t, phase, assign, q, plan);
    OthersTouch(Create(cfg, Load(w, t), t, phase, assign, q, plan).0, acts);
  }

  // The commit in terms of the object alone.
  lemma CommitIs(r: World, o: Outcome, t: TaskId)
    requires !o.Raised? && t in r.db.tasks
    ensures var row := r.db.tasks[t];
            CallerCommit(r, t, o).db ==
            SetTask(r.db, t, if r.mem.status != r.mem.status0 then r.mem.status else row.status,
                    if r.mem.owner != r.mem.owner0 then r.mem.owner else row.owner)
  {
    assert r.db.tasks[t := r.db.tasks[t]] == r.db.tasks;
  }

  lemma CommitWrites(w: World, r: World, o: Outcome, t: TaskId, plan: seq<Attempt>, acts: seq<EnvAction>)
    requires Accounted(w, r, o, t, plan) && Loaded(w) && !o.Raised? && t in r.db.tasks
    ensures var before := Others(r, acts).db;
            var d := CallerCommit(Others(r, acts), t, o).db;
            && t in before.tasks
            && d == SetTask(before, t, StatusWritten(w, r, o, plan, before, t), OwnerWritten(w, r, o, plan, before, t))
            && (Writer(w, r, o, plan).None? && (!o.Aborted? || acts == []) ==> d == before)
  {
    OthersTouch(r, acts);
    LastWriterIn(plan, r.nextId - w.nextId, w.nextId);
    CommitIs(Others(r, acts), o, t);
    if o.Aborted? && acts == [] {
      AbortWritesNothing(r, t, o.agent);
    } else if Writer(w, r, o, plan).None? && !o.Aborted? {
      assert r.mem == w.mem;
    }
  }

  lemma AbortWritesNothing(w: World, t: TaskId, a: AgentId)
    requires MemAgrees(w, t)
    ensures CallerCommit(w, t, Aborted(a)).db == w.db
  {
    if t in w.db.tasks {
      assert w.db.tasks[t := w.db.tasks[t]] == w.db.tasks;
    }
  }

  // Task row and agent row point at each other.
  predicate RowsAgree(db: Db, a: AgentId, t: TaskId) {
    t in db.tasks && db.tasks[t].status == InProgress && db.tasks[t].owner == Some(a) && Active(db, a, t)
  }

  // After a successful launch and the caller's commit, the rows agree exactly when nobody
  // terminated the agent after the last check and, if the object already said in_progress
  // when it was loaded so that this column is not written, the database still says so.
  lemma LaunchedRowsAgreeIff(cfg: Config, w: World, t: TaskId, phase: Option<PhaseId>, assign: bool, q: Request,
                             plan: seq<Attempt>, acts: seq<EnvAction>)
    requires Ok(w) && |plan| > Rank(cfg, q) && Loaded(w)
    ensures var (r, o) := Create(cfg, w, t, phase, assign, q, plan);
            var before := Others(r, acts);
            var d := CallerCommit(before, t, o).db;
            o.Launched? && t in d.tasks ==>
              && w.nextId <= o.agent < w.nextId + |plan|
              && (RowsAgree(d, o.agent, t) <==>
                   && !TooLate(plan[o.agent - w.nextId], o.agent) && !Ends(acts, o.agent)
                   && (w.mem.status == InProgress ==> before.db.tasks[t].status == InProgress))
  {
    CreateAccounted(cfg, w, t, phase, assign, q, plan);
    var (r, o) := Create(cfg, w, t, phase, assign, q, plan);
    OthersFrame(r, acts);
    if o.Launched? {
      assert ActiveUnlessTerminated(r.db, o.agent, t);
      OthersTerminateIff(r, acts, o.agent);
      ActiveStable(o.agent, t);
      OthersPreserve(ActiveOn(o.agent, t), r, acts);
    }
  }
}
