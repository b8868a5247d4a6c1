/**
 Several dispatchers that are not serialised: the duplicate check, the stub insert and the
 later merge of the agent's row are separate transactions, and the steps of different
 dispatchers and of everyone else may come in any order.
 */
module LaunchDispatch {
  import opened Wrappers
  import opened LaunchConfig
  import opened LaunchState

  type Dispatcher = nat

  // Outside steps terminate agents and rewrite tasks.
  datatype Step = Check(who: Dispatcher) | Insert(who: Dispatcher) | Merge(who: Dispatcher) | Outside(act: EnvAction)

  // What each dispatcher is about to launch.
  datatype Job = Job(task: TaskId, cli: Tool, assign: bool)

  type Jobs = Dispatcher -> Job

  // `passed` holds the dispatchers whose last check found nothing, `own` the agents that
  // were inserted and not merged yet.
  datatype State = State(db: Db, passed: set<Dispatcher>, own: map<Dispatcher, AgentId>, nextId: AgentId)

  function Do(jobs: Jobs, s: State, x: Step): State {
    match x
    case Check(d) =>
      if FirstActive(s.db, jobs(d).task, 0, s.nextId).None? then s.(passed := s.passed + {d})
      else s.(passed := s.passed - {d})
    case Insert(d) =>
      if d in s.passed then
        State(InsertStub(s.db, s.nextId, jobs(d).cli, jobs(d).task, jobs(d).assign), s.passed - {d},
              s.own[d := s.nextId], s.nextId + 1)
      else s
    case Merge(d) =>
      if d in s.own then s.(db := Record(s.db, s.own[d], jobs(d).cli, jobs(d).task), own := s.own - {d}) else s
    case Outside(e) => s.(db := Apply(s.db, e))
  }

  function DoAll(jobs: Jobs, s: State, xs: seq<Step>): State
    decreases |xs|
  {
    if xs == [] then s else DoAll(jobs, Do(jobs, s, xs[0]), xs[1..])
  }

  // Every state the steps pass through has at most one active agent per task.
  ghost predicate StaysUnique(jobs: Jobs, s: State, xs: seq<Step>)
    decreases |xs|
  {
    Unique(s.db) && (xs == [] || StaysUnique(jobs, Do(jobs, s, xs[0]), xs[1..]))
  }

  ghost predicate HasActive(db: Db, t: TaskId) { exists a :: Active(db, a, t) }

  // A single insert: unique afterwards exactly when the task had no active agent.
  lemma InsertUniqueIff(db: Db, a: AgentId, cli: Tool, t: TaskId, assign: bool)
    requires Unique(db) && IdsBelow(db, a)
    ensures Unique(InsertStub(db, a, cli, t, assign)) <==> !HasActive(db, t)
  {
    var r := InsertStub(db, a, cli, t, assign);
    assert Active(r, a, t);
    assert forall b, u :: b != a ==> (Active(r, b, u) <==> Active(db, b, u));
    if HasActive(db, t) {
      var b :| Active(db, b, t);
      assert b != a && Active(r, b, t);
    }
  }

  // A single merge of an agent that can be active on its own task only: unique afterwards
  // exactly when no other agent is active on the task. A terminated agent is no exception;
  // the merge makes it active again.
  lemma MergeUniqueIff(db: Db, a: AgentId, cli: Tool, t: TaskId)
    requires Unique(db) && forall u :: Active(db, a, u) ==> u == t
    ensures Unique(Record(db, a, cli, t)) <==> forall b :: Active(db, b, t) ==> b == a
  {
    var r := Record(db, a, cli, t);
    assert Active(r, a, t);
    assert forall b, u :: b != a ==> (Active(r, b, u) <==> Active(db, b, u));
    assert forall b :: b != a && Active(db, b, t) ==> Active(r, b, t);
  }

  // ------------------------------------------------------------- the interleavings

  // Who holds each task, told from the order of the steps alone: the agent last inserted or
  // merged for it that was not terminated since.
  datatype Standing = Standing(holder: map<TaskId, AgentId>, passed: set<Dispatcher>, own: map<Dispatcher, AgentId>,
                               nextId: AgentId)

  function Without(holder: map<TaskId, AgentId>, a: AgentId): map<TaskId, AgentId> {
    map t | t in holder && holder[t] != a :: holder[t]
  }

  function Move(jobs: Jobs, g: Standing, x: Step): Standing {
    match x
    case Check(d) =>
      if jobs(d).task in g.holder then g.(passed := g.passed - {d}) else g.(passed := g.passed + {d})
    case Insert(d) =>
      if d in g.passed then
        Standing(g.holder[jobs(d).task := g.nextId], g.passed - {d}, g.own[d := g.nextId], g.nextId + 1)
      else g
    case Merge(d) =>
      if d in g.own then g.(holder := g.holder[jobs(d).task := g.own[d]], own := g.own - {d}) else g
    case Outside(EnvTerminate(a)) => g.(holder := Without(g.holder, a))
    case Outside(EnvTask(_, _, _)) => g
  }

  // A dispatcher inserts after somebody else took the task since its check, or merges an
  // agent that was terminated and whose task another agent has taken since.
  predicate Displaces(jobs: Jobs, g: Standing, x: Step) {
    match x
    case Insert(d) => d in g.passed && jobs(d).task in g.holder
    case Merge(d) => d in g.own && jobs(d).task in g.holder && g.holder[jobs(d).task] != g.own[d]
    case _ => false
  }

  predicate NoneDisplaces(jobs: Jobs, g: Standing, xs: seq<Step>)
    decreases |xs|
  {
    xs == [] || (!Displaces(jobs, g, xs[0]) && NoneDisplaces(jobs, Move(jobs, g, xs[0]), xs[1..]))
  }

  ghost predicate Holds(db: Db, holder: map<TaskId, AgentId>) {
    forall a, t :: Active(db, a, t) <==> t in holder && holder[t] == a
  }

  // An agent that was not merged yet points at its dispatcher's task or at none.
  ghost predicate OwnOk(jobs: Jobs, s: State) {
    && (forall d :: d in s.own ==>
          s.own[d] in s.db.agents &&
          (s.db.agents[s.own[d]].task.None? || s.db.agents[s.own[d]].task == Some(jobs(d).task)))
    && (forall d, e :: d in s.own && e in s.own && d != e ==> s.own[d] != s.own[e])
  }

  ghost predicate Matches(jobs: Jobs, s: State, g: Standing) {
    && Holds(s.db, g.holder) && IdsBelow(s.db, s.nextId) && OwnOk(jobs, s)
    && s.passed == g.passed && s.own == g.own && s.nextId == g.nextId
  }

  lemma HoldsUnique(db: Db, holder: map<TaskId, AgentId>)
    requires Holds(db, holder)
    ensures Unique(db)
    ensures forall t :: t in holder <==> HasActive(db, t)
  {
    forall t ensures t in holder <==> HasActive(db, t) {
      if t in holder { assert Active(db, holder[t], t); }
    }
  }

  lemma CheckMoves(jobs: Jobs, s: State, g: Standing, d: Dispatcher)
    requires Matches(jobs, s, g)
    ensures Matches(jobs, Do(jobs, s, Check(d)), Move(jobs, g, Check(d)))
  {
    HoldsUnique(s.db, g.holder);
    var found := FirstActive(s.db, jobs(d).task, 0, s.nextId);
    if found.Some? {
      assert Active(s.db, found.value, jobs(d).task);
    } else {
      assert forall a: AgentId :: Active(s.db, a, jobs(d).task) ==> a < s.nextId;
      assert !HasActive(s.db, jobs(d).task);
    }
  }

  lemma InsertMoves(jobs: Jobs, s: State, g: Standing, d: Dispatcher)
    requires Matches(jobs, s, g)
    ensures if Displaces(jobs, g, Insert(d)) then !Unique(Do(jobs, s, Insert(d)).db)
            else Matches(jobs, Do(jobs, s, Insert(d)), Move(jobs, g, Insert(d)))
  {
    HoldsUnique(s.db, g.holder);
    InsertUniqueIff(s.db, s.nextId, jobs(d).cli, jobs(d).task, jobs(d).assign);
    var r := InsertStub(s.db, s.nextId, jobs(d).cli, jobs(d).task, jobs(d).assign);
    assert forall b, u :: b != s.nextId ==> (Active(r, b, u) <==> Active(s.db, b, u));
  }

  lemma MergeMoves(jobs: Jobs, s: State, g: Standing, d: Dispatcher)
    requires Matches(jobs, s, g)
    ensures if Displaces(jobs, g, Merge(d)) then !Unique(Do(jobs, s, Merge(d)).db)
            else Matches(jobs, Do(jobs, s, Merge(d)), Move(jobs, g, Merge(d)))
  {
    if d in s.own {
      var a, t := s.own[d], jobs(d).task;
      HoldsUnique(s.db, g.holder);
      MergeUniqueIff(s.db, a, jobs(d).cli, t);
      var r := Record(s.db, a, jobs(d).cli, t);
      assert forall b, u :: b != a ==> (Active(r, b, u) <==> Active(s.db, b, u));
      if Displaces(jobs, g, Merge(d)) { assert Active(s.db, g.holder[t], t); }
    }
  }

  lemma OutsideMoves(jobs: Jobs, s: State, g: Standing, e: EnvAction)
    requires Matches(jobs, s, g)
    ensures Matches(jobs, Do(jobs, s, Outside(e)), Move(jobs, g, Outside(e)))
  {
    var r := Apply(s.db, e);
    match e
    case EnvTerminate(a) =>
      forall b, t ensures Active(r, b, t) <==> b != a && Active(s.db, b, t) {}
    case EnvTask(_, _, _) =>
      forall b, t ensures Active(r, b, t) <==> Active(s.db, b, t) {}
  }

  lemma {:induction false} StaysUniqueFrom(jobs: Jobs, s: State, g: Standing, xs: seq<Step>)
    requires Matches(jobs, s, g)
    ensures StaysUnique(jobs, s, xs) <==> NoneDisplaces(jobs, g, xs)
    decreases |xs|
  {
    HoldsUnique(s.db, g.holder);
    if xs != [] {
      match xs[0] {
        case Check(d) => CheckMoves(jobs, s, g, d);
        case Insert(d) => InsertMoves(jobs, s, g, d);
        case Merge(d) => MergeMoves(jobs, s, g, d);
        case Outside(e) => OutsideMoves(jobs, s, g, e);
      }
      if !Displaces(jobs, g, xs[0]) { StaysUniqueFrom(jobs, Do(jobs, s, xs[0]), Move(jobs, g, xs[0]), xs[1..]); }
    }
  }

  function MoveAll(jobs: Jobs, g: Standing, xs: seq<Step>): Standing
    decreases |xs|
  {
    if xs == [] then g else MoveAll(jobs, Move(jobs, g, xs[0]), xs[1..])
  }

  lemma {:induction false} MatchesAll(jobs: Jobs, s: State, g: Standing, xs: seq<Step>)
    requires Matches(jobs, s, g) && NoneDisplaces(jobs, g, xs)
    ensures Matches(jobs, DoAll(jobs, s, xs), MoveAll(jobs, g, xs))
    decreases |xs|
  {
    if xs != [] {
      match xs[0] {
        case Check(d) => CheckMoves(jobs, s, g, d);
        case Insert(d) => InsertMoves(jobs, s, g, d);
        case Merge(d) => MergeMoves(jobs, s, g, d);
        case Outside(e) => OutsideMoves(jobs, s, g, e);
      }
      MatchesAll(jobs, Do(jobs, s, xs[0]), Move(jobs, g, xs[0]), xs[1..]);
    }
  }

  // The active agent of each task, where there is one.
  ghost function HolderOf(db: Db): (holder: map<TaskId, AgentId>)
    requires Unique(db)
    ensures Holds(db, holder)
  {
    map a | a in db.agents && db.agents[a].task.Some? && Active(db, a, db.agents[a].task.value) ::
      db.agents[a].task.value := a
  }

  // Main result: of all the ways the checks, inserts and merges of several dispatchers can
  // interleave with each other and with outside terminations, exactly those keep one active
  // agent per task in which no step displaces the agent that holds the task: no insert after
  // somebody else took the task, and no merge of a terminated agent whose task another one
  // has taken.
  lemma UniqueUnlessDisplaced(jobs: Jobs, db: Db, nextId: AgentId, xs: seq<Step>)
    requires Unique(db) && IdsBelow(db, nextId)
    ensures StaysUnique(jobs, State(db, {}, map[], nextId), xs) <==>
            NoneDisplaces(jobs, Standing(HolderOf(db), {}, map[], nextId), xs)
  {
    StaysUniqueFrom(jobs, State(db, {}, map[], nextId), Standing(HolderOf(db), {}, map[], nextId), xs);
  }

  // ------------------------------------------------------------- two ways to lose it

  // Two dispatchers of one idle task check before either inserts.
  lemma BothCheckFirst(jobs: Jobs, db: Db, nextId: AgentId, d: Dispatcher, e: Dispatcher)
    requires Unique(db) && IdsBelow(db, nextId) && d != e && jobs(d).task == jobs(e).task
    requires !HasActive(db, jobs(d).task)
    ensures !StaysUnique(jobs, State(db, {}, map[], nextId), [Check(d), Check(e), Insert(d), Insert(e)])
    ensures StaysUnique(jobs, State(db, {}, map[], nextId), [Check(d), Insert(d), Check(e), Insert(e)])
  {
    var g := Standing(HolderOf(db), {}, map[], nextId);
    HoldsUnique(db, g.holder);
    UniqueUnlessDisplaced(jobs, db, nextId, [Check(d), Check(e), Insert(d), Insert(e)]);
    UniqueUnlessDisplaced(jobs, db, nextId, [Check(d), Insert(d), Check(e), Insert(e)]);
    var g1 := Move(jobs, g, Check(d));
    Four(Check(d), Check(e), Insert(d), Insert(e));
    var g2 := Move(jobs, g1, Check(e));
    var g3 := Move(jobs, g2, Insert(d));
    assert Displaces(jobs, g3, Insert(e));
    assert !NoneDisplaces(jobs, g3, [Insert(e)]);
    assert !NoneDisplaces(jobs, g2, [Insert(d), Insert(e)]);
    assert !NoneDisplaces(jobs, g1, [Check(e), Insert(d), Insert(e)]);
    Four(Check(d), Insert(d), Check(e), Insert(e));
    var h2 := Move(jobs, g1, Insert(d));
    var h3 := Move(jobs, h2, Check(e));
    assert NoneDisplaces(jobs, h3, [Insert(e)]);
    assert NoneDisplaces(jobs, h2, [Check(e), Insert(e)]);
    assert NoneDisplaces(jobs, g1, [Insert(d), Check(e), Insert(e)]);
  }

  lemma Four(x1: Step, x2: Step, x3: Step, x4: Step)
    ensures [x1, x2, x3, x4][1..] == [x2, x3, x4] && [x2, x3, x4][1..] == [x3, x4]
    ensures [x3, x4][1..] == [x4] && [x4][1..] == []
  {}

  // The first dispatcher's agent is terminated while it is being prepared, the second one
  // launches for the released task, and then the first one's merge makes its agent active
  // again. Every insert follows its own passed check with nothing in between.
  lemma RevivedBesideAnother(jobs: Jobs, db: Db, n: AgentId, d: Dispatcher, e: Dispatcher)
    requires Unique(db) && IdsBelow(db, n) && d != e && jobs(d).task == jobs(e).task
    requires !HasActive(db, jobs(d).task)
    ensures var before := [Check(d), Insert(d), Outside(EnvTerminate(n)), Check(e), Insert(e)];
            var start, t := State(db, {}, map[], n), jobs(d).task;
            var s := DoAll(jobs, start, before);
            && StaysUnique(jobs, start, before) && !Active(s.db, n, t) && Active(s.db, n + 1, t)
            && Active(Do(jobs, s, Merge(d)).db, n, t) && Active(Do(jobs, s, Merge(d)).db, n + 1, t)
  {
    var before := [Check(d), Insert(d), Outside(EnvTerminate(n)), Check(e), Insert(e)];
    var start, g, t := State(db, {}, map[], n), Standing(HolderOf(db), {}, map[], n), jobs(d).task;
    HoldsUnique(db, g.holder);
    assert forall u :: u in g.holder ==> g.holder[u] < n by {
      assert forall u :: u in g.holder ==> Active(db, g.holder[u], u);
    }
    SecondHolds(jobs, g, n, d, e);
    UniqueUnlessDisplaced(jobs, db, n, before);
    MatchesAll(jobs, start, g, before);
    var s := DoAll(jobs, start, before);
    assert Active(s.db, n + 1, t) && !Active(s.db, n, t);
  }

  lemma SecondHolds(jobs: Jobs, g: Standing, n: AgentId, d: Dispatcher, e: Dispatcher)
    requires d != e && jobs(d).task == jobs(e).task && jobs(d).task !in g.holder
    requires g.passed == {} && g.own == map[] && g.nextId == n
    ensures var before := [Check(d), Insert(d), Outside(EnvTerminate(n)), Check(e), Insert(e)];
            var r, t := MoveAll(jobs, g, before), jobs(d).task;
            && NoneDisplaces(jobs, g, before)
            && t in r.holder && r.holder[t] == n + 1 && d in r.own && r.own[d] == n
  {
    var x2, x3, x4, x5 := Insert(d), Outside(EnvTerminate(n)), Check(e), Insert(e);
    var g1 := Move(jobs, g, Check(d));
    var g2 := Move(jobs, g1, x2);
    var g3 := Move(jobs, g2, x3);
    var g4 := Move(jobs, g3, x4);
    var g5 := Move(jobs, g4, x5);
    assert [Check(d), x2, x3, x4, x5][1..] == [x2, x3, x4, x5];
    Four(x2, x3, x4, x5);
    assert jobs(e).task !in g3.holder && e in g4.passed;
    assert MoveAll(jobs, g5, []) == g5 && NoneDisplaces(jobs, g5, []);
    assert NoneDisplaces(jobs, g4, [x5]) && MoveAll(jobs, g4, [x5]) == g5;
    assert NoneDisplaces(jobs, g3, [x4, x5]) && MoveAll(jobs, g3, [x4, x5]) == g5;
    assert NoneDisplaces(jobs, g2, [x3, x4, x5]) && MoveAll(jobs, g2, [x3, x4, x5]) == g5;
    assert NoneDisplaces(jobs, g1, [x2, x3, x4, x5]) && MoveAll(jobs, g1, [x2, x3, x4, x5]) == g5;
  }
}
