/**
 Which CLI tool a launch uses, and which one it falls back to: `_resolve_phase_config`
 and the recursive fallback of `create_agent_for_task` (src/agents/launch_pipeline.py).

 Strings that may be absent are options; Python's truth test treats an empty string as
 absent, its `is None` test does not, and both occur.
 */
module LaunchConfig {
  import opened Wrappers

  type Tool = string

  datatype Config = Config(defaultTool: Tool, fallbackTool: Option<Tool>, fallbackModel: Option<string>,
                           available: Tool -> bool)

  datatype PhaseRow = PhaseRow(tool: Option<Tool>, model: Option<string>, token: Option<string>,
                               thinking: Option<string>,
                               fallbackTool: Option<Tool>, fallbackModel: Option<string>)

  // The tool-related arguments of one call; phase is the row found for the task's phase.
  datatype Request = Request(cliType: Option<Tool>, tool: Option<Tool>, model: Option<string>,
                             token: Option<string>, thinking: Option<string>, phase: Option<PhaseRow>)

  datatype PhaseConfig = PhaseConfig(cli: Tool, tool: Option<Tool>, model: Option<string>, token: Option<string>,
                                     thinking: Option<string>, fallbackTool: Option<Tool>,
                                     fallbackModel: Option<string>)

  predicate Truthy(s: Option<string>) { s.Some? && s.value != "" }

  function OrElse(s: Option<string>, d: string): string {
    if Truthy(s) then s.value else d
  }

  // The phase row is consulted only when no phase argument was passed at all.
  predicate ReadsPhase(q: Request) {
    q.tool.None? && q.model.None? && q.token.None? && q.thinking.None? && q.phase.Some?
  }

  function Resolve(cfg: Config, q: Request): PhaseConfig {
    var row := ReadsPhase(q);
    var tool := if row then q.phase.value.tool else q.tool;
    var model := if row then q.phase.value.model else q.model;
    var token := if row then q.phase.value.token else q.token;
    var thinking := if row then q.phase.value.thinking else q.thinking;
    var fb := if row then q.phase.value.fallbackTool else None;
    var fbModel := if row then q.phase.value.fallbackModel else None;
    var cli := OrElse(tool, OrElse(q.cliType, cfg.defaultTool));
    var (fb1, fbModel1) :=
      if !Truthy(cfg.fallbackTool) then (None, None)
      else if !Truthy(fb) && cfg.fallbackTool.value != cli then (cfg.fallbackTool, cfg.fallbackModel)
      else (fb, fbModel);
    var (fb2, fbModel2) :=
      if Truthy(fb1) && !cfg.available(fb1.value) then (None, None) else (fb1, fbModel1);
    PhaseConfig(cli, tool, model, token, thinking, fb2, fbModel2)
  }

  // The guard of the failure handler.
  predicate FallsBack(pc: PhaseConfig) {
    Truthy(pc.fallbackTool) && pc.fallbackTool.value != pc.cli
  }

  // Where each setting comes from: from the call's arguments if any one of them was passed or
  // there is no phase row, and otherwise all of them from the row. The tool falls through to
  // the call's own type and then the default, empty names counting as absent.
  lemma ResolveMeans(cfg: Config, q: Request)
    ensures var pc := Resolve(cfg, q);
            && (q.tool != None || q.model != None || q.token != None || q.thinking != None || q.phase == None ==>
                 pc.tool == q.tool && pc.model == q.model && pc.token == q.token && pc.thinking == q.thinking)
            && (q.(cliType := None, phase := None) == Request(None, None, None, None, None, None) ==>
                 forall row :: q.phase == Some(row) ==>
                   pc.tool == row.tool && pc.model == row.model && pc.token == row.token && pc.thinking == row.thinking)
            && pc.cli == if pc.tool !in {None, Some("")} then pc.tool.value
                         else if q.cliType !in {None, Some("")} then q.cliType.value
                         else cfg.defaultTool
  {
    var pc := Resolve(cfg, q);
    assert Truthy(pc.tool) <==> pc.tool !in {None, Some("")};
    assert Truthy(q.cliType) <==> q.cliType !in {None, Some("")};
  }

  // The fallback: the row's own one where the row was read and names one, else the global
  // one; without a global one, or with a tool that is not installed, there is none. The model
  // comes from where the tool does.
  lemma FallbackMeans(cfg: Config, q: Request, own: Option<Tool>, ownModel: Option<string>)
    requires if q.(cliType := None, phase := None) == Request(None, None, None, None, None, None) && q.phase != None
             then own == q.phase.value.fallbackTool && ownModel == q.phase.value.fallbackModel
             else own == None && ownModel == None
    ensures var pc := Resolve(cfg, q);
            if cfg.fallbackTool in {None, Some("")} then pc.fallbackTool == None
            else if own !in {None, Some("")} then
              if cfg.available(own.value) then pc.fallbackTool == own && pc.fallbackModel == ownModel
              else pc.fallbackTool == None && pc.fallbackModel == None
            else if cfg.fallbackTool.value == pc.cli then pc.fallbackTool == own
            else if cfg.available(cfg.fallbackTool.value) then
              pc.fallbackTool == cfg.fallbackTool && pc.fallbackModel == cfg.fallbackModel
            else pc.fallbackTool == None && pc.fallbackModel == None
  {}

  // The arguments of the recursive call.
  function FallbackRequest(pc: PhaseConfig, q: Request): Request
    requires FallsBack(pc)
  {
    Request(pc.fallbackTool, pc.fallbackTool, pc.fallbackModel, pc.token, pc.thinking, q.phase)
  }

  // What a fallback launches under: the fallback tool and its model, with the token and the
  // thinking level of the attempt that failed. The phase row is not read a second time, so
  // any further fallback is the global one.
  lemma FallbackArguments(cfg: Config, q: Request)
    requires var pc := Resolve(cfg, q); pc.fallbackTool !in {None, Some(""), Some(pc.cli)}
    ensures var pc := Resolve(cfg, q);
            FallsBack(pc) &&
            var next := Resolve(cfg, FallbackRequest(pc, q));
            && next.cli == pc.fallbackTool.value && next.tool == pc.fallbackTool && next.model == pc.fallbackModel
            && next.token == pc.token && next.thinking == pc.thinking
            && next.fallbackTool in {None, cfg.fallbackTool}
  {}

  // How many more fallbacks a request can still lead to.
  function Rank(cfg: Config, q: Request): nat {
    if !Truthy(q.tool) then 2
    else if Some(q.tool.value) == cfg.fallbackTool then 0
    else 1
  }

  lemma FallbackLowersRank(cfg: Config, q: Request)
    requires FallsBack(Resolve(cfg, q))
    ensures Rank(cfg, FallbackRequest(Resolve(cfg, q), q)) < Rank(cfg, q)
  {}

  // The tools tried one after the other when every attempt fails.
  function Chain(cfg: Config, q: Request): seq<Tool>
    decreases Rank(cfg, q)
  {
    var pc := Resolve(cfg, q);
    [pc.cli] +
    if FallsBack(pc) then
      FallbackLowersRank(cfg, q);
      Chain(cfg, FallbackRequest(pc, q))
    else []
  }

  predicate ConsecutiveDiffer(ts: seq<Tool>) {
    |ts| < 2 || (ts[0] != ts[1] && ConsecutiveDiffer(ts[1..]))
  }

  // A fallback is only ever returned if the global configuration has one at all, and only
  // if the returned tool is installed.
  lemma FallbackAllowed(cfg: Config, q: Request)
    requires FallsBack(Resolve(cfg, q))
    ensures Truthy(cfg.fallbackTool) && cfg.available(Resolve(cfg, q).fallbackTool.value)
  {}

  // Main result: the recursion ends after at most three attempts, never retries the tool
  // that just failed, and every tool after the first is installed. Without a global
  // fallback there is one attempt.
  lemma {:induction false} ChainBounded(cfg: Config, q: Request)
    ensures 1 <= |Chain(cfg, q)| <= Rank(cfg, q) + 1 <= 3
    ensures Chain(cfg, q)[0] == Resolve(cfg, q).cli
    ensures ConsecutiveDiffer(Chain(cfg, q))
    ensures forall i :: 1 <= i < |Chain(cfg, q)| ==> cfg.available(Chain(cfg, q)[i])
    ensures !Truthy(cfg.fallbackTool) ==> |Chain(cfg, q)| == 1
    decreases Rank(cfg, q)
  {
    var pc := Resolve(cfg, q);
    if FallsBack(pc) {
      FallbackLowersRank(cfg, q);
      FallbackAllowed(cfg, q);
      var q' := FallbackRequest(pc, q);
      ChainBounded(cfg, q');
      assert Resolve(cfg, q').cli == pc.fallbackTool.value;
      assert Chain(cfg, q)[1..] == Chain(cfg, q');
    }
  }

  // Three attempts happen exactly when the phase names its own installed fallback, and the
  // global fallback is a different, installed tool.
  lemma ThreeAttemptsIff(cfg: Config, q: Request)
    ensures |Chain(cfg, q)| == 3 <==>
            && ReadsPhase(q) && Truthy(q.phase.value.fallbackTool)
            && Truthy(cfg.fallbackTool)
            && var own, glob := q.phase.value.fallbackTool.value, cfg.fallbackTool.value;
               own != Resolve(cfg, q).cli && cfg.available(own) && own != glob && cfg.available(glob)
  {
    var pc := Resolve(cfg, q);
    if FallsBack(pc) {
      FallbackLowersRank(cfg, q);
      var q' := FallbackRequest(pc, q);
      var pc' := Resolve(cfg, q');
      assert |Chain(cfg, q)| == 1 + |Chain(cfg, q')|;
      assert pc'.cli == pc.fallbackTool.value;
      ChainBounded(cfg, q');
      if FallsBack(pc') {
        FallbackLowersRank(cfg, q');
        ChainBounded(cfg, FallbackRequest(pc', q'));
        assert |Chain(cfg, q')| == 1 + |Chain(cfg, FallbackRequest(pc', q'))|;
      }
    }
  }
}
