/**
 The termination-race check: which launches it aborts, what an abort leaves behind, and
 exactly which terminations it cannot see.
 */
module LaunchRace {
  import opened Wrappers
  import opened LaunchConfig
  import opened LaunchState
  import opened LaunchSpec
  import opened LaunchSteps
  import opened LaunchProofs

  // ------------------------------------------------------------- the verdict

  // The caller's object carries the database's own task fields.
  predicate MemAgrees(w: World, t: TaskId) {
    t in w.db.tasks ==> w.mem.status == w.db.tasks[t].status && w.mem.owner == w.db.tasks[t].owner
  }

  ghost predicate AbortedClean(w: World, p: Progress, a: AgentId, t: TaskId) {
    && p.Over? && p.outcome == Aborted(a) && Doomed(p.w.db, a, t)
    && p.w.prompts == w.prompts && Session(a, false) !in p.w.sessions && MemAgrees(p.w, t)
  }

  // The state the last check of a recorded launch reads, if it gets there.
  function LastCheck(w: World, a: AgentId, t: TaskId, s: Attempt): World {
    match BlockingStep(w, a, t, s)
    case Going(w1) => Others(w1, s.duringReady)
    case p => p.w
  }

  lemma BlockingStepVerdict(w: World, a: AgentId, t: TaskId, s: Attempt)
    ensures var p := BlockingStep(w, a, t, s);
            && p.w.prompts == w.prompts && p.w.nextId == w.nextId
            && (p.Over? ==> AbortedClean(w, p, a, t))
            && (!p.Over? ==> p.w.mem == w.mem && p.w.sessions == w.sessions)
  {
    var w1 := Others(w, s.afterRecord);
    OthersFrame(w, s.afterRecord);
    OthersFrame(Commit(w1, w1.db), s.duringScan);
  }

  lemma DeliverVerdict(w: World, a: AgentId, t: TaskId, s: Attempt)
    ensures var p, doomed := Deliver(w, a, t, s), Doomed(Others(w, s.duringReady).db, a, t);
            && !p.Going? && p.w.nextId == w.nextId
            && (doomed <==> p.Over? && p.outcome == Aborted(a))
            && (doomed ==> AbortedClean(w, p, a, t) && p.w.db == Others(w, s.duringReady).db)
            && (!doomed ==>
                 && p.w.mem == w.mem && p.w.sessions == w.sessions
                 && p.w.prompts == (if s.delivery.DiedBefore? then w.prompts else w.prompts + [a])
                 && (p.Over? <==> s.delivery.Delivered?) && (p.Over? ==> p.outcome == Launched(a)))
  {
    var w1 := Others(w, s.duringReady);
    OthersFrame(w, s.duringReady);
    var w2 := Others(w1, s.beforePrompt);
    OthersFrame(w1, s.beforePrompt);
    OthersFrame(w2.(prompts := w2.prompts + [a]), s.afterPrompt);
  }

  // How a launch that was recorded ends, whatever others commit at its waits: it is aborted
  // exactly when it is doomed in the state its last check reads, and only a launch that is
  // not doomed in that state has its prompt delivered.
  lemma VerdictAfterLaunch(w: World, a: AgentId, t: TaskId, s: Attempt)
    ensures var p, seen := AfterLaunch(w, a, t, s), LastCheck(w, a, t, s).db;
            && !p.Going? && p.w.nextId == w.nextId
            && (p.Over? ==> p.outcome == Aborted(a) || p.outcome == Launched(a))
            && (p.Over? ==> (p.outcome == Aborted(a) <==> Doomed(seen, a, t)))
            && (p.Over? && p.outcome == Aborted(a) ==> AbortedClean(w, p, a, t) && p.w.db == seen)
            && (p.w.prompts == w.prompts || p.w.prompts == w.prompts + [a])
            && (p.w.prompts != w.prompts ==> !Doomed(seen, a, t))
            && (p.Over? && p.outcome == Launched(a) ==>
                 p.w.prompts == w.prompts + [a] && p.w.mem == w.mem && p.w.sessions == w.sessions)
            && (p.Failing? ==> p.w.mem == w.mem && p.w.sessions == w.sessions)
  {
    BlockingStepVerdict(w, a, t, s);
    var b := BlockingStep(w, a, t, s);
    if b.Going? { DeliverVerdict(b.w, a, t, s); }
  }

  // ------------------------------------------------------------- which terminations are seen

  predicate Ends(acts: seq<EnvAction>, a: AgentId) { EnvTerminate(a) in acts }

  // Other code terminates an agent, and nothing other code does brings one back.
  lemma {:induction false} OthersTerminateIff(w: World, acts: seq<EnvAction>, a: AgentId)
    requires Sound(w.db, w.nextId) && a in w.db.agents
    ensures Sound(Others(w, acts).db, w.nextId) && Others(w, acts).nextId == w.nextId
    ensures AgentTerminated(Others(w, acts).db, a) <==> AgentTerminated(w.db, a) || Ends(acts, a)
    decreases |acts|
  {
    if acts != [] {
      var w1 := CommitOther(w, acts[0]);
      ApplySound(w.db, acts[0], w.nextId);
      if acts[0] == EnvTerminate(a) { TerminateSound(w.db, a, w.nextId); }
      OthersTerminateIff(w1, acts[1..], a);
      assert Ends(acts, a) <==> acts[0] == EnvTerminate(a) || Ends(acts[1..], a);
    }
  }

  // The script gets to the point where the prompt is sent, unless a check aborts it first.
  predicate GetsToPrompt(s: Attempt) {
    s.prepared && s.launch.Recorded? && (s.blockingStep ==> s.scanOk) && !s.delivery.DiedBefore?
  }

  // The waits of an attempt, by where they lie: before the agent's row is recorded, between
  // that and the last check, and after the last check.
  predicate TooEarly(s: Attempt, a: AgentId) { Ends(s.duringPrep, a) || Ends(s.duringLaunch, a) }

  predicate InTime(s: Attempt, a: AgentId) {
    Ends(s.afterRecord, a) || (s.blockingStep && Ends(s.duringScan, a)) || Ends(s.duringReady, a)
  }

  predicate TooLate(s: Attempt, a: AgentId) { Ends(s.beforePrompt, a) || Ends(s.afterPrompt, a) }

  // What the first check reads, and what the last one reads when the first one passes.
  function FirstSeen(w: World, s: Attempt): World { Others(w, s.afterRecord) }

  function LastSeen(w: World, s: Attempt): World {
    var w1 := FirstSeen(w, s);
    Others(if s.blockingStep then Others(Commit(w1, w1.db), s.duringScan) else w1, s.duringReady)
  }

  // A check finds the task finished or with another live owner.
  predicate SeenTaken(w: World, a: AgentId, t: TaskId, s: Attempt) {
    (s.blockingStep && TaskTaken(FirstSeen(w, s).db, a, t)) || TaskTaken(LastSeen(w, s).db, a, t)
  }

  lemma SeenTerminated(w: World, a: AgentId, s: Attempt)
    requires Sound(w.db, w.nextId) && a in w.db.agents && !AgentTerminated(w.db, a)
    ensures AgentTerminated(FirstSeen(w, s).db, a) <==> Ends(s.afterRecord, a)
    ensures AgentTerminated(LastSeen(w, s).db, a) <==> InTime(s, a)
    ensures Sound(LastSeen(w, s).db, w.nextId) && LastSeen(w, s).nextId == w.nextId
  {
    var w1 := FirstSeen(w, s);
    OthersTerminateIff(w, s.afterRecord, a);
    var c := Commit(w1, w1.db);
    OthersTerminateIff(c, s.duringScan, a);
    OthersTerminateIff(if s.blockingStep then Others(c, s.duringScan) else w1, s.duringReady, a);
  }

  // From the record on: prompted exactly when no check sees a reason not to be, and then
  // terminated at the end exactly when that happened after the last check.
  lemma PromptedAfterRecord(w: World, a: AgentId, t: TaskId, s: Attempt)
    requires Sound(w.db, w.nextId) && a in w.db.agents && !AgentTerminated(w.db, a)
    requires s.prepared && s.launch.Recorded?
    ensures var p := AfterLaunch(w, a, t, s);
            && (p.w.prompts == w.prompts || p.w.prompts == w.prompts + [a])
            && (p.w.prompts != w.prompts <==> GetsToPrompt(s) && !InTime(s, a) && !SeenTaken(w, a, t, s))
            && (p.w.prompts != w.prompts ==> (AgentTerminated(p.w.db, a) <==> TooLate(s, a)))
  {
    SeenTerminated(w, a, s);
    VerdictAfterLaunch(w, a, t, s);
    BlockingStepVerdict(w, a, t, s);
    var b := BlockingStep(w, a, t, s);
    if b.Going? {
      DeliverVerdict(b.w, a, t, s);
      var w1 := LastSeen(w, s);
      assert w1 == Others(b.w, s.duringReady);
      if !Doomed(w1.db, a, t) {
        OthersTerminateIff(w1, s.beforePrompt, a);
        var w2 := Others(w1, s.beforePrompt);
        OthersTerminateIff(w2.(prompts := w2.prompts + [a]), s.afterPrompt, a);
      }
    }
  }

  // The state right after the agent's row is recorded.
  function RecordedIn(w: World, a: AgentId, cli: Tool, t: TaskId, s: Attempt): World {
    match Prepare(w, a, s)
    case Going(w1) => Launch(w1, a, cli, t, s).w
    case p => p.w
  }

  lemma RecordedActive(w: World, a: AgentId, cli: Tool, t: TaskId, s: Attempt)
    requires Held(w, a, t) && a in w.db.agents && s.prepared && s.launch.Recorded?
    ensures var r := RecordedIn(w, a, cli, t, s);
            && Held(r, a, t) && a in r.db.agents && Active(r.db, a, t) && r.prompts == w.prompts
            && r.mem == w.mem.(status := InProgress, owner := Some(a)) && Session(a, false) in r.sessions
            && RunAttempt(w, a, cli, t, s) == AfterLaunch(r, a, t, s)
  {
    HeldStable(a, t);
    HeldByRecord(a, cli, t, w.nextId);
    PreparePreserves(HeldOn(a, t), w, a, s);
    OthersFrame(w, s.duringPrep);
    var p := Prepare(w, a, s);
    LaunchPreserves(HeldOn(a, t), p.w, a, cli, t, s);
    OthersFrame(p.w, s.duringLaunch);
  }

  // Somebody terminates the agent at some wait, and it is prompted all the same.
  predicate Missed(w: World, r: World, s: Attempt, a: AgentId) {
    (TooEarly(s, a) || InTime(s, a) || TooLate(s, a)) && r.prompts != w.prompts
  }

  // Main result: over a whole attempt, with any commits by others at any of its waits, the
  // prompt goes out exactly when the script gets there and no termination and no other
  // owner is seen by a check. So a termination of the agent is missed exactly when it
  // commits before the record or after the last check: an early one is undone by the record,
  // a late one stands, but the agent has its prompt.
  lemma TerminationMissedIff(w: World, a: AgentId, cli: Tool, t: TaskId, s: Attempt)
    requires Held(w, a, t) && a in w.db.agents
    ensures var p := RunAttempt(w, a, cli, t, s);
            && (p.w.prompts == w.prompts || p.w.prompts == w.prompts + [a])
            && (p.w.prompts != w.prompts <==>
                 GetsToPrompt(s) && !InTime(s, a) && !SeenTaken(RecordedIn(w, a, cli, t, s), a, t, s))
            && (p.w.prompts != w.prompts ==>
                 && (AgentTerminated(p.w.db, a) <==> TooLate(s, a))
                 && (Active(p.w.db, a, t) <==> !TooLate(s, a)))
    ensures Missed(w, RunAttempt(w, a, cli, t, s).w, s, a) <==>
            && GetsToPrompt(s) && !SeenTaken(RecordedIn(w, a, cli, t, s), a, t, s)
            && !InTime(s, a) && (TooEarly(s, a) || TooLate(s, a))
  {
    if s.prepared && s.launch.Recorded? {
      RecordedActive(w, a, cli, t, s);
      var r := RecordedIn(w, a, cli, t, s);
      PromptedAfterRecord(r, a, t, s);
      ActiveStable(a, t);
      AfterLaunchPreserves(ActiveOn(a, t), r, a, t, s);
      assert AgentTerminated(RunAttempt(w, a, cli, t, s).w.db, a) ==> !Active(RunAttempt(w, a, cli, t, s).w.db, a, t);
    } else {
      OthersFrame(w, s.duringPrep);
      var p := Prepare(w, a, s);
      if p.Going? { OthersFrame(p.w, s.duringLaunch); }
    }
  }

  // ------------------------------------------------------------- active or terminated

  predicate ActiveUnlessTerminated(db: Db, a: AgentId, t: TaskId) {
    AgentTerminated(db, a) || Active(db, a, t)
  }

  ghost function ActiveOn(a: AgentId, t: TaskId): World -> bool {
    (w: World) => ActiveUnlessTerminated(w.db, a, t)
  }

  lemma ActiveStable(a: AgentId, t: TaskId)
    ensures Stable(ActiveOn(a, t))
  {}

  lemma ActiveStableFor(a: AgentId, t: TaskId, first: AgentId)
    ensures StableFor(ActiveOn(a, t), t, first)
  {}

  // ------------------------------------------------------------- a previous owner

  // Other code that leaves the agent, the previous owner and the task alone.
  predicate Unrelated(acts: seq<EnvAction>, a: AgentId, b: AgentId, t: TaskId) {
    forall e :: e in acts ==> if e.EnvTerminate? then e.agent != a && e.agent != b else e.task != t
  }

  predicate SameFor(db: Db, db': Db, a: AgentId, b: AgentId, t: TaskId) {
    && (t in db'.tasks <==> t in db.tasks) && (t in db.tasks ==> db'.tasks[t] == db.tasks[t])
    && (Alive(db', b) <==> Alive(db, b)) && (AgentTerminated(db', a) <==> AgentTerminated(db, a))
  }

  lemma {:induction false} UnrelatedKeeps(w: World, acts: seq<EnvAction>, a: AgentId, b: AgentId, t: TaskId)
    requires Unrelated(acts, a, b, t) && (t in w.db.tasks ==> w.db.tasks[t].owner == Some(b))
    ensures SameFor(w.db, Others(w, acts).db, a, b, t)
    decreases |acts|
  {
    if acts != [] {
      var e := acts[0];
      assert e in acts;
      UnrelatedKeeps(CommitOther(w, e), acts[1..], a, b, t);
    }
  }

  lemma UnrelatedAfterRecord(w: World, a: AgentId, b: AgentId, t: TaskId, s: Attempt)
    requires t in w.db.tasks && w.db.tasks[t].owner == Some(b)
    requires Unrelated(s.afterRecord, a, b, t) && Unrelated(s.duringScan, a, b, t) && Unrelated(s.duringReady, a, b, t)
    ensures SameFor(w.db, FirstSeen(w, s).db, a, b, t) && SameFor(w.db, LastSeen(w, s).db, a, b, t)
  {
    var w1 := FirstSeen(w, s);
    UnrelatedKeeps(w, s.afterRecord, a, b, t);
    var c := Commit(w1, w1.db);
    UnrelatedKeeps(c, s.duringScan, a, b, t);
    UnrelatedKeeps(if s.blockingStep then Others(c, s.duringScan) else w1, s.duringReady, a, b, t);
  }

  // A launch on a task that still names another owner goes through exactly when that owner
  // is not alive; a dead or vanished one never aborts it, and a live one always does.
  lemma PreviousOwnerIff(w: World, a: AgentId, cli: Tool, t: TaskId, s: Attempt, b: AgentId)
    requires Held(w, a, t) && a in w.db.agents && a != b
    requires t in w.db.tasks && !Terminal(w.db.tasks[t].status) && w.db.tasks[t].owner == Some(b)
    requires GetsToPrompt(s) && s.delivery.Delivered?
    requires Unrelated(s.duringPrep, a, b, t) && Unrelated(s.duringLaunch, a, b, t)
    requires Unrelated(s.afterRecord, a, b, t) && Unrelated(s.duringScan, a, b, t) && Unrelated(s.duringReady, a, b, t)
    ensures var p := RunAttempt(w, a, cli, t, s);
            p.Over? && p.outcome == if Alive(w.db, b) then Aborted(a) else Launched(a)
  {
    RecordedActive(w, a, cli, t, s);
    var w1 := Others(w, s.duringPrep);
    UnrelatedKeeps(w, s.duringPrep, a, b, t);
    var w2 := Prepare(w, a, s).w;
    UnrelatedKeeps(w2, s.duringLaunch, a, b, t);
    var r := RecordedIn(w, a, cli, t, s);
    assert r.db.tasks[t] == w.db.tasks[t] && (Alive(r.db, b) <==> Alive(w.db, b));
    UnrelatedAfterRecord(r, a, b, t, s);
    VerdictAfterLaunch(r, a, t, s);
    assert Doomed(FirstSeen(r, s).db, a, t) <==> Alive(w.db, b);
    assert Doomed(LastSeen(r, s).db, a, t) <==> Alive(w.db, b);
    var k := BlockingStep(r, a, t, s);
    if k.Going? {
      assert LastCheck(r, a, t, s) == LastSeen(r, s);
      DeliverVerdict(k.w, a, t, s);
    }
  }

  lemma LaunchedAgent(w: World, b: AgentId, cli: Tool, t: TaskId, s: Attempt)
    ensures var p := RunAttempt(w, b, cli, t, s);
            p.Over? ==> p.outcome == Aborted(b) || p.outcome == Launched(b)
  {
    var p := Prepare(w, b, s);
    if p.Going? {
      var l := Launch(p.w, b, cli, t, s);
      if l.Going? { VerdictAfterLaunch(l.w, b, t, s); }
    }
  }
}
