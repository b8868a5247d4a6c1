/**
 What a run of restarts, among any other calls, can and cannot do.
 */
module LaunchRestart {
  import opened LaunchConfig
  import opened LaunchState
  import opened LaunchSpec
  import opened LaunchSteps
  import opened LaunchProofs
  import opened LaunchRace
  import opened LaunchCleanup

  function Count(s: seq<AgentId>, a: AgentId): nat {
    if s == [] then 0 else (if s[|s| - 1] == a then 1 else 0) + Count(s[..|s| - 1], a)
  }

  function RestartsOf(db: Db, a: AgentId): nat {
    if a in db.agents then db.agents[a].restarts else 0
  }

  // Every relaunch was paid for by a restart counted before it, and the count is capped.
  ghost predicate Budget(w: World) {
    forall a :: Count(w.relaunches, a) <= RestartsOf(w.db, a) <= MAX_RESTARTS
  }

  // Rows stay and keep their counts.
  ghost predicate KeepsCounts(w: World, r: World) {
    && r.relaunches == w.relaunches
    && forall a :: RestartsOf(r.db, a) == RestartsOf(w.db, a)
  }

  ghost function CountsOf(w: World): World -> bool {
    (r: World) => KeepsCounts(w, r) && IdsBelow(r.db, r.nextId)
  }

  // Outside commits and whole create calls spend no restart.
  lemma CountsStable(w: World, t: TaskId)
    ensures Stable(CountsOf(w)) && StableFor(CountsOf(w), t, 0)
  {}

  lemma OthersKeepCounts(w: World, acts: seq<EnvAction>)
    requires IdsBelow(w.db, w.nextId)
    ensures KeepsCounts(w, Others(w, acts)) && IdsBelow(Others(w, acts).db, Others(w, acts).nextId)
  {
    CountsStable(w, 0);
    OthersPreserve(CountsOf(w), w, acts);
  }

  lemma CountAppend(s: seq<AgentId>, a: AgentId, b: AgentId)
    ensures Count(s + [b], a) == Count(s, a) + if a == b then 1 else 0
  {
    assert (s + [b])[..|s|] == s;
  }

  lemma AfterRelaunchKeepsCounts(w: World, a: AgentId, t: TaskId, s: RestartScript)
    requires IdsBelow(w.db, w.nextId)
    ensures KeepsCounts(w, AfterRelaunch(w, a, t, s))
  {
    var w1 := Others(w, s.duringReady);
    OthersKeepCounts(w, s.duringReady);
    var w2 := Others(w1, s.beforePrompt);
    OthersKeepCounts(w1, s.beforePrompt);
    OthersKeepCounts(w2.(prompts := w2.prompts + [a]), s.afterPrompt);
  }

  lemma RelaunchCounts(w: World, a: AgentId, t: TaskId, s: RestartScript)
    requires a in w.db.agents && IdsBelow(w.db, w.nextId)
    ensures var r := Relaunch(w, a, t, s);
            && (r.relaunches == w.relaunches || r.relaunches == w.relaunches + [a])
            && forall b :: RestartsOf(r.db, b) == RestartsOf(w.db, b)
  {
    var w0 := KillNamed(w, w.db.agents[a].session, s.killOk);
    var w1 := Others(w0, s.duringPrep);
    OthersKeepCounts(w0, s.duringPrep);
    var w3 := w1.(sessions := w1.sessions + {Session(a, true)}, relaunches := w1.relaunches + [a]);
    var row := Rework(w3.db.agents[a], a, w.db.agents[a].status);
    AfterRelaunchKeepsCounts(Commit(w3, w3.db.(agents := w3.db.agents[a := row])), a, t, s);
  }

  lemma ExceedRestartsCounts(w: World, a: AgentId, s: RestartScript)
    requires a in w.db.agents && IdsBelow(w.db, w.nextId)
    ensures KeepsCounts(w, ExceedRestarts(w, a, s))
  {
    var w0 := KillNamed(Commit(w, Terminate(w.db, a)), w.db.agents[a].session, s.killOk);
    assert KeepsCounts(w, w0);
    OthersKeepCounts(w0, s.duringKill);
  }

  lemma RestartCounts(cfg: Config, w: World, a: AgentId, s: RestartScript)
    requires IdsBelow(w.db, w.nextId)
    ensures var r := Restart(cfg, w, a, s);
            && (forall b :: b != a ==> RestartsOf(r.db, b) == RestartsOf(w.db, b))
            && (KeepsCounts(w, r)
                || (RestartsOf(w.db, a) < MAX_RESTARTS && RestartsOf(r.db, a) == RestartsOf(w.db, a) + 1
                    && (r.relaunches == w.relaunches || r.relaunches == w.relaunches + [a])))
  {
    if a in w.db.agents {
      if w.db.agents[a].restarts >= MAX_RESTARTS {
        ExceedRestartsCounts(w, a, s);
      } else {
        var row := w.db.agents[a].(restarts := w.db.agents[a].restarts + 1);
        var w1 := Commit(w, w.db.(agents := w.db.agents[a := row]));
        if row.task.Some? && row.task.value in w1.db.tasks {
          var tool := RestartTool(cfg, row.cli);
          if tool.Some? {
            var w2 := if tool.value == row.cli then w1
                      else Commit(w1, w1.db.(agents := w1.db.agents[a := row.(cli := tool.value)]));
            RelaunchCounts(w2, a, row.task.value, s);
          }
        }
      }
    }
  }

  lemma ExecBudget(cfg: Config, w: World, c: Call)
    requires Ok(w) && Budget(w) && CallOk(cfg, c)
    ensures Budget(Exec(cfg, w, c))
  {
    var r := Exec(cfg, w, c);
    match c {
      case CreateCall(t, phase, assign, q, plan, acts) =>
        CountsStable(w, t);
        CreatePreserves(CountsOf(w), cfg, Load(w, t), t, phase, assign, q, plan, 0);
        OthersKeepCounts(Create(cfg, Load(w, t), t, phase, assign, q, plan).0, acts);
        assert KeepsCounts(w, r);
      case RestartCall(a, s) =>
        RestartCounts(cfg, w, a, s);
        forall b ensures Count(r.relaunches, b) <= RestartsOf(r.db, b) <= MAX_RESTARTS {
          assert Count(w.relaunches, b) <= RestartsOf(w.db, b) <= MAX_RESTARTS;
          CountAppend(w.relaunches, b, a);
        }
      case EnvCall(e) =>
        assert KeepsCounts(w, r);
    }
    if KeepsCounts(w, r) {
      forall b ensures Count(r.relaunches, b) <= RestartsOf(r.db, b) <= MAX_RESTARTS {
        assert Count(w.relaunches, b) <= RestartsOf(w.db, b) <= MAX_RESTARTS;
      }
    }
  }

  // Main result: in every run an agent is relaunched at most three times, its count never
  // exceeds three, and no relaunch goes uncounted, wherever a restart fails.
  lemma {:induction false} RestartsBounded(cfg: Config, w: World, calls: seq<Call>)
    requires Ok(w) && Budget(w) && forall c :: c in calls ==> CallOk(cfg, c)
    ensures Budget(Run(cfg, w, calls))
    decreases |calls|
  {
    if calls != [] {
      ExecOk(cfg, w, calls[0]);
      ExecBudget(cfg, w, calls[0]);
      RestartsBounded(cfg, Exec(cfg, w, calls[0]), calls[1..]);
    }
  }

  // A restart at the limit, whatever others commit while the session is being killed: once
  // its terminate commits, the agent is terminated, its session gone, its task done or
  // failed, and nothing is relaunched. If the terminate raises, nothing has changed.
  lemma RestartAtLimit(cfg: Config, w: World, a: AgentId, s: RestartScript)
    requires Ok(w) && a in w.db.agents && w.db.agents[a].restarts >= MAX_RESTARTS
    ensures var r, row := Restart(cfg, w, a, s), w.db.agents[a];
            && r.relaunches == w.relaunches && r.prompts == w.prompts
            && (!s.terminateOk ==> r == w)
            && (s.terminateOk ==> AgentTerminated(r.db, a))
            && (s.terminateOk && s.killOk && row.session.Some? ==> row.session.value !in r.sessions)
            && (s.terminateOk && row.task.Some? && row.task.value in w.db.tasks ==>
                 row.task.value in r.db.tasks
                 && (r.db.tasks[row.task.value].status.Done? || r.db.tasks[row.task.value].status.Failed?))
  {
    TerminateSound(w.db, a, w.nextId);
    var w0 := KillNamed(Commit(w, Terminate(w.db, a)), w.db.agents[a].session, s.killOk);
    OthersFrame(w0, s.duringKill);
  }

  // ------------------------------------------------- terminated is for good

  lemma AfterRelaunchTerminatedIff(w: World, a: AgentId, t: TaskId, s: RestartScript, b: AgentId)
    requires Ok(w) && b in w.db.agents
    ensures AgentTerminated(w.db, b) ==> AgentTerminated(AfterRelaunch(w, a, t, s).db, b)
    ensures AgentTerminated(AfterRelaunch(w, a, t, s).db, b) <==>
            AgentTerminated(w.db, b) || SeenByRestart(w, a, t, s, b)
  {
    var w1 := Others(w, s.duringReady);
    OthersTerminateIff(w, s.duringReady, b);
    var w2 := Others(w1, s.beforePrompt);
    OthersTerminateIff(w1, s.beforePrompt, b);
    OthersTerminateIff(w2.(prompts := w2.prompts + [a]), s.afterPrompt, b);
  }

  // Somebody terminates b at a wait that the rest of the restart still goes through.
  predicate SeenByRestart(w: World, a: AgentId, t: TaskId, s: RestartScript, b: AgentId) {
    || Ends(s.duringReady, b)
    || (!Doomed(Others(w, s.duringReady).db, a, t)
        && (Ends(s.beforePrompt, b) || (s.delivered && Ends(s.afterPrompt, b))))
  }

  lemma ExceedKeepsTerminated(w: World, b: AgentId, s: RestartScript, a: AgentId)
    requires Ok(w) && b in w.db.agents && AgentTerminated(w.db, a)
    ensures AgentTerminated(ExceedRestarts(w, b, s).db, a)
  {
    TerminateSound(w.db, b, w.nextId);
    var w0 := KillNamed(Commit(w, Terminate(w.db, b)), w.db.agents[b].session, s.killOk);
    TerminatedStable(a);
    OthersPreserve(TerminatedIn(a), w0, s.duringKill);
  }

  lemma RelaunchKeepsTerminated(w: World, b: AgentId, t: TaskId, s: RestartScript, a: AgentId)
    requires Ok(w) && b in w.db.agents && a != b && AgentTerminated(w.db, a)
    ensures AgentTerminated(Relaunch(w, b, t, s).db, a)
  {
    var w0 := KillNamed(w, w.db.agents[b].session, s.killOk);
    var w1 := Others(w0, s.duringPrep);
    TerminatedStable(a);
    OthersPreserve(TerminatedIn(a), w0, s.duringPrep);
    OthersFrame(w0, s.duringPrep);
    var w3 := w1.(sessions := w1.sessions + {Session(b, true)}, relaunches := w1.relaunches + [b]);
    var read := w.db.agents[b].status;
    ReworkSound(w3, b, read);
    var row := Rework(w3.db.agents[b], b, read);
    AfterRelaunchTerminatedIff(Commit(w3, w3.db.(agents := w3.db.agents[b := row])), b, t, s, a);
  }

  // The state right after the final write of a restart.
  function Reworked(w: World, a: AgentId, s: RestartScript): World
    requires a in w.db.agents
  {
    var w1 := Others(KillNamed(w, w.db.agents[a].session, s.killOk), s.duringPrep);
    var w3 := w1.(sessions := w1.sessions + {Session(a, true)}, relaunches := w1.relaunches + [a]);
    Commit(w3, w3.db.(agents := w3.db.agents[a := Rework(w3.db.agents[a], a, w.db.agents[a].status)]))
  }

  lemma RelaunchTerminatedIff(w: World, a: AgentId, t: TaskId, s: RestartScript)
    requires Ok(w) && a in w.db.agents && !AgentTerminated(w.db, a)
    ensures var r := Relaunch(w, a, t, s);
            AgentTerminated(r.db, a) <==>
            if !(s.prepared && s.sent && s.recorded) then Ends(s.duringPrep, a)
            else (Ends(s.duringPrep, a) && w.db.agents[a].status.Working?)
                 || SeenByRestart(Reworked(w, a, s), a, t, s, a)
  {
    var w0 := KillNamed(w, w.db.agents[a].session, s.killOk);
    OthersTerminateIff(w0, s.duringPrep, a);
    OthersFrame(w0, s.duringPrep);
    var w1 := Others(w0, s.duringPrep);
    var w3 := w1.(sessions := w1.sessions + {Session(a, true)}, relaunches := w1.relaunches + [a]);
    ReworkSound(w3, a, w.db.agents[a].status);
    if s.prepared && s.sent && s.recorded {
      AfterRelaunchTerminatedIff(Reworked(w, a, s), a, t, s, a);
    }
  }

  // A restart that gets as far as its preparation.
  predicate Relaunches(cfg: Config, w: World, a: AgentId) {
    && a in w.db.agents && w.db.agents[a].restarts < MAX_RESTARTS
    && w.db.agents[a].task.Some? && w.db.agents[a].task.value in w.db.tasks
    && RestartTool(cfg, w.db.agents[a].cli).Some?
  }

  // The state its preparation starts in: counted, and moved to another tool if need be.
  function Counted(cfg: Config, w: World, a: AgentId): (r: World)
    requires Relaunches(cfg, w, a)
    ensures a in r.db.agents && r.db.agents[a].status == w.db.agents[a].status
  {
    var row := w.db.agents[a].(restarts := w.db.agents[a].restarts + 1);
    var w1 := Commit(w, w.db.(agents := w.db.agents[a := row]));
    var tool := RestartTool(cfg, row.cli).value;
    if tool == row.cli then w1 else Commit(w1, w1.db.(agents := w1.db.agents[a := row.(cli := tool)]))
  }

  lemma CountedOk(cfg: Config, w: World, a: AgentId)
    requires Ok(w) && Relaunches(cfg, w, a)
    ensures var r := Counted(cfg, w, a);
            Ok(r) && !AgentTerminated(r.db, a)
  {
    assert RowOk(w.db.agents[a]);
    var row := w.db.agents[a].(restarts := w.db.agents[a].restarts + 1);
    RowWriteSound(w.db, a, row, w.nextId);
    var w1 := Commit(w, w.db.(agents := w.db.agents[a := row]));
    RowWriteSound(w1.db, a, row.(cli := RestartTool(cfg, row.cli).value), w.nextId);
  }

  lemma RestartRelaunches(cfg: Config, w: World, a: AgentId, s: RestartScript)
    requires Relaunches(cfg, w, a)
    ensures Restart(cfg, w, a, s) == Relaunch(Counted(cfg, w, a), a, w.db.agents[a].task.value, s)
  {}

  lemma RestartKeepsTerminated(cfg: Config, w: World, b: AgentId, s: RestartScript, a: AgentId)
    requires Ok(w) && AgentTerminated(w.db, a)
    ensures AgentTerminated(Restart(cfg, w, b, s).db, a)
  {
    assert RowOk(w.db.agents[a]);
    if Relaunches(cfg, w, b) {
      CountedOk(cfg, w, b);
      RestartRelaunches(cfg, w, b, s);
      assert AgentTerminated(Counted(cfg, w, b).db, a);
      RelaunchKeepsTerminated(Counted(cfg, w, b), b, w.db.agents[b].task.value, s, a);
    } else if b in w.db.agents && w.db.agents[b].restarts >= MAX_RESTARTS {
      ExceedKeepsTerminated(w, b, s, a);
    }
  }

  // Main result: exactly when a restart loses a termination of its own agent. One that
  // commits during the preparation is overwritten by a completed restart if and only if the
  // status read at the start was not already working; one that commits later stands.
  lemma RestartLosesTerminationIff(cfg: Config, w: World, a: AgentId, s: RestartScript)
    requires Ok(w) && Relaunches(cfg, w, a)
    ensures var r, from := Restart(cfg, w, a, s), Counted(cfg, w, a);
            AgentTerminated(r.db, a) <==>
            if !(s.prepared && s.sent && s.recorded) then Ends(s.duringPrep, a)
            else (Ends(s.duringPrep, a) && w.db.agents[a].status.Working?)
                 || SeenByRestart(Reworked(from, a, s), a, w.db.agents[a].task.value, s, a)
  {
    CountedOk(cfg, w, a);
    RestartRelaunches(cfg, w, a, s);
    RelaunchTerminatedIff(Counted(cfg, w, a), a, w.db.agents[a].task.value, s);
  }

  // Main result: in every run of serialised calls, an agent that is terminated between two
  // calls stays terminated; no restart and no create brings it back. TerminationMissedIff
  // and RestartLosesTerminationIff say which terminations inside a call are lost.
  lemma {:induction false} TerminatedForGood(cfg: Config, w: World, calls: seq<Call>, a: AgentId)
    requires Ok(w) && AgentTerminated(w.db, a) && forall c :: c in calls ==> CallOk(cfg, c)
    ensures AgentTerminated(Run(cfg, w, calls).db, a)
    decreases |calls|
  {
    if calls != [] {
      var c := calls[0];
      ExecOk(cfg, w, c);
      match c {
        case CreateCall(t, phase, assign, q, plan, acts) =>
          TerminatedStable(a);
          TerminatedStableFor(a, t, w.nextId);
          CreatePreserves(TerminatedIn(a), cfg, Load(w, t), t, phase, assign, q, plan, w.nextId);
          OthersPreserve(TerminatedIn(a), Create(cfg, Load(w, t), t, phase, assign, q, plan).0, acts);
        case RestartCall(b, s) => RestartKeepsTerminated(cfg, w, b, s, a);
        case EnvCall(e) => ApplySound(w.db, e, w.nextId);
      }
      TerminatedForGood(cfg, Exec(cfg, w, c), calls[1..], a);
    }
  }
}
