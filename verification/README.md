# Hephaestus: a verified model of its terminal filter, launch pipeline, cooldowns, splitters and delivery loops

Hephaestus runs coding agents in tmux sessions. This project models five of its parts that
hold real logic and proves what they promise, or exactly when they keep it. Code that changes
state step by step is a class or a method with a loop, proved equal to a function of its
inputs or its old state; the theorems are about those functions.

**The terminal byte filter** (`Regex`, `PtyFilter`, `PtyEscRuns`, `PtyTokens`, `PtyCuts`,
`PtyBytes`, `PtyStream`). A pipe process deletes control sequences from each chunk it reads, in five regular-expression passes. The
patterns are data for a small backtracking matcher whose meaning is given by a relation
(`InLang`), and a pass is the leftmost, non-overlapping deletion `sub(b'')`. The token names
follow ECMA-48, sections 5.4 (control sequences) and 5.6 (control strings); an OSC ended by
BEL is the xterm extension. Passes interfere: the first one looks arbitrarily far ahead for
its BEL, and a deletion can put an ESC next to a new byte.

**The agent launch state machine** (`LaunchConfig`, `LaunchState`, `LaunchSpec`,
`LaunchSteps`, `LaunchPipeline`, `LaunchProofs`, `LaunchDispatch`, `LaunchRace`,
`LaunchClaim`, `LaunchCaller`, `LaunchRuns`, `LaunchCleanup`, `LaunchAttempts`, `LaunchRestart`,
`LaunchAccount`, `LaunchRelaunch`). The world
is the agent and task rows, the caller's in-memory task object, the live tmux sessions,
traces of prompts, launch commands and relaunches, and the list of all commits. A script says
which step raises and what other code commits at every point where a call waits: during
preparation, before the launch command, after the record, during a blocking step, until the
tool is ready, between the last check and the prompt, after the prompt, while a session is
killed, during a restart's preparation, and before the caller commits. Every theorem holds
for every script. `Pipeline` is the object whose methods change these fields; each method is
proved to do what `LaunchSpec` says. `LaunchAccount` and `LaunchRelaunch` tell what a call
does to every row and trace from the rows it starts with and the script alone. Dispatchers that are not serialised are the subject of
`LaunchDispatch`.

**The launch cooldown** (`Backoff`). Two maps and a monotone clock as a class, the whole-run
spacing of failures as legal event sequences, and concurrent reports as interleaved lock
sections.

**The lossless source splitters** (`LineBlocks`, `SplitVerify`, `SplitEmit`, `CursorCut`).
Line blocks are claimed, checked, sorted into modules and written out, or cut out of a class
by a moving cursor.

**Two bounded delivery loops** (`StatusPost`, `Messenger`). The status report's retry loop,
and the escaping and submit loop of messages typed into a terminal.

## Where the code and its own words differ

The model follows the code.

- `src/agents/pty_filter.py:30-33` says a sequence split across two reads survives unstripped.
  That depends on the sequence and the cut: a private sequence cut behind its `?`, a charset
  selection cut behind its paren, an ST-terminated OSC cut anywhere but inside its terminator,
  and a BEL-terminated OSC cut so that a sequence in its body is complete, all lose bytes
  (`PtyCuts.CutSurvivesIff`).
- An ST-terminated OSC followed by a BEL in the same chunk is deleted up to that BEL. The
  filter keeps exactly the visible tokens if and only if nothing visible lies in between
  (`PtyTokens.FilterOfTokens`).
- Filtering is not idempotent on a doubled ESC (`PtyFilter.DoubledEscNotIdempotent`). It is
  on every chunk without two adjacent ESC bytes; on chunks without brackets and parentheses
  exactly when no ESC is left in front of an ordinary byte
  (`PtyEscRuns.EscRunsIdempotentIff`); and a chunk is a fixed point exactly when it is in
  normal form, so filtering twice equals filtering once exactly when the first output is.
- `mcp/mcp_client.py:364-369` counts five delays and about 50 seconds. Five attempts have four
  delays, 30 seconds in all, and the cap of 20 is never reached (`StatusPost.WaitAtDefaults`).
- A termination that commits before the agent is recorded is overwritten by the
  `session.merge`, and one that commits after the last check comes too late to hold back the
  prompt; both are missed, and no others (`LaunchRace.TerminationMissedIff`).
- A restart reads its agent once, so a termination during its preparation is overwritten,
  but only if the status it had read was not already working: setting a column to the value
  it was loaded with writes nothing (`LaunchRestart.RestartLosesTerminationIff`).
- The duplicate check, the stub insert and the later merge of the agent's row are separate
  transactions. Two dispatchers can both pass the check, and a merge can bring a terminated
  agent back beside the one that took its task meanwhile; exactly which interleavings do that
  is `LaunchDispatch.UniqueUnlessDisplaced`, the second run is
  `LaunchDispatch.RevivedBesideAnother`.
- The caller's commit can write in_progress and a terminated owner over a released task: after
  a skipped fallback, after a fallback that found another agent, after a launch whose agent
  was terminated late, and after an abort in favour of an owner that is terminated before the
  commit (`LaunchCaller.CallerLeavesDeadOwnerIff`, with runs in `LaunchRuns`).
- A tmux session created inside a preparation that then raises is never killed, and a bound
  one survives if all attempts to kill it fail: a call that raises leaves exactly those
  sessions, whichever of its kills and cleanups succeed (`LaunchCleanup.CleanupComplete`).
- The accounting check of the splitter fails exactly when an extra block is anchored back to
  front, and `SplitVerify.BackToFrontPlan` is a plan that gets there; without extra blocks it
  cannot fail (`SplitVerify.AccountingExactly`).
- The "lossless reassembly" check of the method splitters can never fail, although lines are
  copied twice exactly when the cut methods do not follow one another after `__init__`
  (`CursorCut.WeakCheckNeverFails`, `CursorCut.WeakCheckMissesIff`).

## Model

| member | source | states |
|---|---|---|
| Regex.MatchSound | src/agents/pty_filter.py:75-76 | a match returned by the backtracking matcher is in the pattern's language |
| Regex.MatchComplete | src/agents/pty_filter.py:75-76 | whenever some prefix is in the pattern's language, the matcher finds a match |
| Regex.SubOnlyDeletes | src/agents/pty_filter.py:75-76 | one pass leaves a subsequence, and the same length only if nothing changed |
| Regex.SubIdentityIff | src/agents/pty_filter.py:75-76 | a pass is the identity exactly when its pattern matches at no position |
| PtyFilter.OtherCsiAt | src/agents/pty_filter.py:62 | where the CSI pattern matches: the optional `?` backtracks, so `ESC [ ?` always matches |
| PtyFilter.OscBelAt | src/agents/pty_filter.py:60 | an `ESC ]` matches through the first BEL behind it, however far |
| PtyFilter.FixedPointIff | src/agents/pty_filter.py:59-76 | the filter leaves a chunk alone if and only if every ESC in it is settled |
| PtyFilter.FilterNormalises | src/agents/pty_filter.py:59-76 | without two adjacent ESC bytes the output is in normal form and a second run changes nothing |
| PtyFilter.NormalForm | src/agents/pty_filter.py:59-76 | a surviving ESC is at the chunk end, opens an OSC without BEL, or opens parameters followed by a kept final byte or the chunk end |
| PtyFilter.DoubledEscNotIdempotent | src/agents/pty_filter.py:64 | a doubled ESC before ordinary bytes leaves one ESC, and a second run takes a byte of text |
| PtyFilter.DoubledEscIdempotentIff | src/agents/pty_filter.py:59-76 | for one doubled ESC before an ordinary byte, a second run changes nothing exactly when the text behind that byte is settled after an ESC |
| PtyEscRuns.EscRunsIdempotentIff | src/agents/pty_filter.py:59-76 | for chunks without brackets and parentheses and any number of ESC runs, a second run changes nothing exactly when no ESC is left in front of an ordinary byte |
| PtyFilter.RepeatSettles | src/agents/pty_filter.py:75-76 | for arbitrary bytes, repeated filtering reaches normal form within as many rounds as the chunk has bytes |
| PtyFilter.FilterOnlyDeletes | src/agents/pty_filter.py:71-78 | for arbitrary bytes the output is a subsequence of the input, and ESC-free chunks are untouched |
| PtyTokens.FirstPassOnTokens | src/agents/pty_filter.py:60 | the first pass on rendered tokens is the token function that drops BEL-terminated OSCs and swallows from an ST-terminated one to the next BEL |
| PtyTokens.PassOnTokens | src/agents/pty_filter.py:61-64 | each later pass takes exactly the tokens it is there for, leaves the parameters and final byte of a private sequence with a kept final, and changes nothing visible |
| PtyTokens.PrivateLosesIntroducer | src/agents/pty_filter.py:62 | `ESC [ ?` before parameters and a kept final is removed alone, whatever follows |
| PtyTokens.FirstPassLoses | src/agents/pty_filter.py:60 | the first pass keeps the visible bytes if nothing visible is swallowed, and strictly fewer otherwise |
| PtyTokens.FilterOfTokens | src/agents/pty_filter.py:59-76 | for every well-formed token list, five byte passes equal one token filter, and keep exactly the text and kept sequences if and only if nothing visible is swallowed |
| PtyTokens.NoBelAfterStSuffices | src/agents/pty_filter.py:60-61 | no BEL anywhere behind an ST-terminated OSC is enough for that |
| PtyTokens.CutPrivateSequence | src/agents/pty_filter.py:30-33 | what the two reads of a cut private sequence leave: its parameters and final byte, as text |
| PtyCuts.CutSurvivesIff | src/agents/pty_filter.py:30-33 | for every kind of control sequence and every cut, the two filtered parts are the whole sequence exactly for the cuts listed |
| PtyCuts.CutInContextIff | src/agents/pty_filter.py:30-33 | the same with any complete output before the first part and after the second |
| PtyBytes.ControlSequence | src/agents/pty_filter.py:62 | `ESC [`, digits and semicolons and one more byte: kept as they are if that byte is one of m A B C D G H J K f or a parameter byte, deleted completely otherwise, whatever the byte |
| PtyBytes.PrivateSequence | src/agents/pty_filter.py:62 | with a `?` behind the bracket everything goes, unless the last byte is one of those, when the rest is left as text |
| PtyBytes.CharsetSelection | src/agents/pty_filter.py:63-64 | `ESC (` and `ESC )` take one letter or digit with them and leave any other byte behind |
| PtyBytes.BareEscape | src/agents/pty_filter.py:64 | of ESC and one byte, only another ESC and the two brackets are left alone |
| PtyBytes.OperatingSystemCommand | src/agents/pty_filter.py:60-61 | an OSC goes with its BEL or `ESC \` terminator and stays without one |
| PtyBytes.PlainText | src/agents/pty_filter.py:71-78 | every byte but ESC is text |
| PtyStream.StripChunk | src/agents/pty_filter.py:75-76 | the inner loop over the patterns computes the five-pass filter |
| PtyStream.FilterStream | src/agents/pty_filter.py:68-78 | the outer loop reads to end of file and its calls are exactly read, write of the filtered chunk, flush, for each chunk |
| PtyStream.SessionWrites | src/agents/pty_filter.py:10-14 | what a session writes is the filtered chunks in order, and at every read all of it has been flushed |
| PtyStream.StreamOnlyDeletes | src/agents/pty_filter.py:68-78 | for any bytes and any cut into reads, the transcript is a subsequence of the stream; an ESC-free stream arrives intact |
| PtyStream.StreamOfTokens | src/agents/pty_filter.py:68-78 | for every grouping of a well-formed token stream into reads, the output is the visible tokens exactly when no read swallows any, and strictly less otherwise |
| PtyStream.CutsDoNotMatter | src/agents/pty_filter.py:71-78 | two cuts of the same token stream give the same transcript |
| LaunchConfig.FallbackAllowed | src/agents/launch_pipeline.py:860-894 | a returned fallback tool is globally allowed and installed |
| LaunchConfig.FallbackLowersRank | src/agents/launch_pipeline.py:2327-2341 | the request of a fallback call can lead to strictly fewer further fallbacks |
| LaunchConfig.ChainBounded | src/agents/launch_pipeline.py:2296-2341 | at most three attempts, consecutive tools differ, every later tool is installed, and exactly one attempt without a global fallback |
| LaunchConfig.ThreeAttemptsIff | src/agents/launch_pipeline.py:838-894 | three attempts happen exactly when the phase names its own installed fallback and the global one is another installed tool |
| LaunchConfig.ResolveMeans | src/agents/launch_pipeline.py:841-858 | tool, model, token and thinking level come from the call if it passed any of them, else all from the phase row; the CLI is the first non-empty one of tool, call type and default |
| LaunchConfig.FallbackMeans | src/agents/launch_pipeline.py:860-894 | the fallback is the row's own one, else the global one, never without a global one or when not installed, and its model comes from where it does |
| LaunchConfig.FallbackArguments | src/agents/launch_pipeline.py:2325-2341 | a fallback launches under the fallback tool and model with the failed attempt's token and thinking level, and reads no phase row |
| LaunchState.TerminateSound | src/autopilot/orchestrator/engine_client.py:227-243 | termination keeps the row invariants, activates nobody and leaves the agent terminated |
| LaunchState.StubSound | src/agents/_create_agent_for_task_steps.py:100-118 | a stub for a task without active agent keeps uniqueness and is the only active agent on it |
| LaunchState.RecordSound | src/agents/_create_agent_for_task_steps.py:466-480 | the merge keeps uniqueness when its agent was the only one on the task |
| LaunchProofs.CreateOk | src/agents/launch_pipeline.py:2147-2389 | a create call, through all its fallbacks, whatever raises and whatever others commit at any of its waits, keeps at most one active agent per task in every committed state |
| LaunchProofs.SwallowedTerminateReturnsStub | src/agents/launch_pipeline.py:2306-2320 | when the terminate before a fallback fails and is swallowed, the fallback stops at its duplicate guard and returns the failed attempt's agent |
| LaunchProofs.RestartOk | src/agents/launch_pipeline.py:2400-2745 | a restart call keeps the same invariant wherever it fails and whatever others commit during its preparation and delivery |
| LaunchProofs.UniqueInEveryRun | src/agents/launch_pipeline.py:803-823 | in every run of serialised create and restart calls and outside commits, every committed state has at most one working or idle agent per task |
| LaunchDispatch.InsertUniqueIff | src/agents/_create_agent_for_task_steps.py:100-118 | an insert keeps uniqueness exactly when the task has no active agent at that moment |
| LaunchDispatch.MergeUniqueIff | src/agents/_create_agent_for_task_steps.py:466-480 | a merge keeps uniqueness exactly when no other agent is active on the task, whether or not its own agent was terminated |
| LaunchDispatch.UniqueUnlessDisplaced | src/agents/launch_pipeline.py:803-823 | of all interleavings of several dispatchers' checks, inserts and merges with outside terminations, exactly those stay unique in which no insert and no merge puts an agent on a task that another one holds |
| LaunchDispatch.RevivedBesideAnother | src/agents/_create_agent_for_task_steps.py:466-480 | a run in which every insert follows its own passed check and the first dispatcher's merge revives its terminated agent beside the second one's |
| LaunchDispatch.BothCheckFirst | src/agents/launch_pipeline.py:803-823 | two dispatchers of one idle task lose uniqueness if both check before either inserts, and keep it if one goes after the other |
| LaunchRace.VerdictAfterLaunch | src/agents/_create_agent_for_task_steps.py:571-577 | a recorded launch is aborted exactly when it is doomed in the state its last check reads, an abort leaves that state, kills the session and copies the task fields, and only a launch not doomed there gets its prompt |
| LaunchRace.TerminationMissedIff | src/agents/launch_pipeline.py:341-403 | over a whole attempt, the prompt goes out exactly when the script gets there and no check sees a termination or another owner; a termination is missed exactly when it commits before the record, which undoes it, or after the last check, when it stands |
| LaunchRace.PreviousOwnerIff | src/agents/launch_pipeline.py:346-364 | an attempt on a task with another recorded owner is launched if that owner is not alive and aborted if it is |
| LaunchCaller.CreateAccounted | src/agents/launch_pipeline.py:2081-2389 | for the whole call: which attempt last wrote the caller's object, that every agent made is active until terminated, that an abort killed its session and copied the task fields, and that a launched agent was prompted last and is terminated exactly when that came after the last check |
| LaunchCaller.CallerLeavesDeadOwnerIff | src/autopilot/orchestrator/engine_client.py:954-968 | for every call that returns: the status and owner the caller's commit writes, and when the owner is terminated. An attempt that wrote the object makes its own agent the owner, terminated exactly when another agent was found, the launch was skipped, or somebody terminated it after the last check or before the commit; an abort writes the fields it copied, where they differ from those loaded; otherwise nothing changes |
| LaunchCaller.LaunchedRowsAgreeIff | src/autopilot/orchestrator/engine_client.py:954-968 | after a successful call and the caller's commit, task row and agent row point at each other exactly when nobody terminated the agent after the last check and no unwritten status column was changed meanwhile |
| LaunchCaller.RunCommits | src/autopilot/orchestrator/engine_client.py:954-968 | a create call of a run works on the columns as loaded and ends with exactly that commit |
| LaunchRuns.SkippedRun | src/agents/launch_pipeline.py:2306-2341 | a run through the call in which the fallback is skipped and the commit makes a terminated agent the owner of a task in progress |
| LaunchRuns.ExistingRun | src/agents/launch_pipeline.py:2306-2341 | a run with three tools in which the call returns the second attempt's agent and the commit makes the first attempt's terminated one the owner |
| LaunchRuns.AbortedRun | src/agents/launch_pipeline.py:367-376 | a run in which the launch is aborted in favour of another agent, that agent is terminated, and the commit takes the task's release back |
| LaunchClaim.AssignedUntilDisturbed | src/agents/_create_agent_for_task_steps.py:84-124 | every commit of a call before somebody terminates the agent or rewrites the task links the first agent and its task if the call was made with `assign_to_task`, and only then; an undisturbed launch wrote to the caller's object what the database says |
| LaunchClaim.LinkedUntil | src/agents/_create_agent_for_task_steps.py:109-115 | the same, read commit by commit |
| LaunchCleanup.CleanupComplete | src/agents/launch_pipeline.py:2294-2389 | whichever kills and cleanups succeed, a raised call leaves exactly the sessions created and never successfully killed; every agent whose attempt fell back or whose cleanup succeeded is terminated, and with the outermost cleanup the task is failed |
| LaunchCleanup.CreateExtends | src/agents/launch_pipeline.py:2081-2389 | a create call touches no session of an earlier agent |
| LaunchCleanup.CreateKeepsRows | src/agents/launch_pipeline.py:2081-2389 | a create call deletes no row |
| LaunchSteps.CreatePreserves | src/agents/launch_pipeline.py:2081-2389 | any property of rows and commits kept by outside commits and by each single commit of a launch is kept by a whole call with its fallbacks |
| LaunchAttempts.AttemptsFollowChain | src/agents/launch_pipeline.py:2296-2341 | a call makes at most one agent and sends at most one launch command per tool of its fallback chain, in that order |
| LaunchAccount.TurnedAwayIff | src/autopilot/orchestrator/engine_client.py:780-787 | a call for a task with a working or idle agent returns that agent; without one it is skipped, with nothing changed, exactly when it names a phase of which another task is pending, assigned, in progress, under review, in validation or needs work |
| LaunchAccount.TerminateMeans | src/autopilot/orchestrator/engine_client.py:225-239 | a termination hands back the agent's tasks in five statuses, leaves every other row alone and takes the agent off its task |
| LaunchAccount.AttemptAccount | src/agents/launch_pipeline.py:2180-2293 | every trace of one attempt from its rows and script: when its command and its prompt go out, how it ends, which session is left, and what the caller's object and the rows are |
| LaunchAccount.CallAccount | src/agents/launch_pipeline.py:2147-2389 | a call is its stub, with the claim if asked for, then its attempt, and if that fails without another tool a cleanup that terminates the agent and fails the task at once |
| LaunchAccount.ReleaseIs | src/agents/launch_pipeline.py:2300-2320 | before a fallback the session is killed if it was bound and the agent terminated, each only if that works |
| LaunchAccount.FallbackAccount | src/agents/launch_pipeline.py:2321-2389 | a failed call with another tool goes on as a call for that tool without the claim, and cleans up only if that raises |
| LaunchRestart.RestartsBounded | src/agents/launch_pipeline.py:2410-2457 | in every run an agent is relaunched at most three times, its count never exceeds three, and no relaunch goes uncounted |
| LaunchRestart.RestartAtLimit | src/agents/launch_pipeline.py:2410-2453 | a call at the limit, whatever others commit while the session is killed, ends with the agent terminated, its session gone, its task done or failed and nothing relaunched, or with nothing changed if the terminate raises |
| LaunchRestart.RestartLosesTerminationIff | src/agents/launch_pipeline.py:2520-2687 | a termination during a restart's preparation is overwritten by a completed restart exactly when the status read at the start was not working; one after the final write stands |
| LaunchRestart.TerminatedForGood | src/agents/launch_pipeline.py:2400-2745 | an agent terminated between two serialised calls is never working or idle again |
| LaunchRelaunch.RestartAccount | src/agents/launch_pipeline.py:2454-2745 | every trace of a restart below the limit: the continue prompt goes out exactly if every step works and the check does not call it off, the relaunch exactly if it was sent, the old session goes if its kill worked, the new one is there if prepared and not called off |
| LaunchRelaunch.RestartedRow | src/agents/launch_pipeline.py:2479-2687 | the row afterwards: one more restart, the stored tool or else the fallback or the default, and the new session once recorded |
| LaunchRelaunch.RestartWithout | src/agents/launch_pipeline.py:2454-2518 | without a task only the count changes, and without an installed tool the task fails |
| LaunchRelaunch.LimitAccount | src/agents/launch_pipeline.py:2410-2453 | once three restarts are counted the agent is terminated instead, and its task failed unless done or failed by then; a done task stays done |
| LaunchRelaunch.EveryStateCommitted | src/agents/launch_pipeline.py:2081-2745 | in every run the database is in the state of its last commit |
| LaunchPipeline.Pipeline.constructor | src/agents/launch_pipeline.py:70-72 | an empty pipeline satisfies the run invariants |
| LaunchPipeline.Pipeline.TerminateAgent | src/autopilot/orchestrator/engine_client.py:154-243 | the loop over stray tasks and the row update are the termination function |
| LaunchPipeline.Pipeline.CheckDuplicateActiveAgent | src/agents/launch_pipeline.py:803-823 | the scan finds the first working or idle agent of the task, or there is none |
| LaunchPipeline.Pipeline.InsertStubAgentRow | src/agents/_create_agent_for_task_steps.py:84-124 | the stub, and with `assign` the claim, in one commit; after a passed check the new agent is the only active one on the task |
| LaunchPipeline.Pipeline.SendLaunchCommandAndRecordAgent | src/agents/_create_agent_for_task_steps.py:397-511 | when it goes on, the agent is active and the caller's object names it, and no other agent is active on the task |
| LaunchPipeline.Pipeline.CheckTerminationRace | src/agents/launch_pipeline.py:341-403 | aborts exactly when doomed, and then the session is gone and the caller's object agrees with the database |
| LaunchPipeline.Pipeline.DeliverInitialPromptFlow | src/agents/_create_agent_for_task_steps.py:514-604 | prompts only a launch that was not doomed when checked; an abort leaves no session and an agreeing object |
| LaunchPipeline.Pipeline.CreateAgentForTask | src/agents/launch_pipeline.py:2081-2389 | the recursive call does what the specification function says and keeps the run invariant |
| LaunchPipeline.Pipeline.RestartAgent | src/agents/launch_pipeline.py:2391-2715 | the restart does what the specification function says and keeps the run invariant |
| LaunchPipeline.Pipeline.CommitCaller | src/autopilot/orchestrator/engine_client.py:954-968 | writes only the columns that differ from what was loaded |
| Backoff.LongestIsUnique | src/agents/cli_launch_backoff.py:242-244 | the longest outstanding wait is determined by its definition as a maximum |
| Backoff.CooldownElapses | src/agents/cli_launch_backoff.py:222-244 | a cooldown, of one CLI or of all, is never negative and shrinks exactly with elapsed time |
| Backoff.CooldownExceedsIff | src/agents/cli_launch_backoff.py:233-244 | a cooldown exceeds the window exactly when a failure it covers was stamped after the clock was read |
| Backoff.LaunchBackoff.NoteLaunchSuccess | src/agents/cli_launch_backoff.py:174-193 | clears the cooldown and stores a real reading once |
| Backoff.LaunchBackoff.NoteLaunchFailure | src/agents/cli_launch_backoff.py:196-219 | starts a full window and diagnoses a swap exactly on a missing binary or a different version, given a baseline |
| Backoff.LaunchBackoff.CooldownRemaining | src/agents/cli_launch_backoff.py:222-244 | with a clock value read before the lock, the loop returns the CLI's remaining wait, or the maximum over all CLIs |
| Backoff.LaunchBackoff.WaitOutCooldown | src/agents/cli_launch_backoff.py:247-279 | waits the cooldown or the cap, and what is left afterwards is exactly the uncovered remainder |
| Backoff.FailuresSpaced | src/agents/cli_launch_backoff.py:196-244 | in every legal run, failures of one CLI without a success between them are at least a window apart |
| Backoff.RetryBudgetSpansWindows | src/agents/cli_launch_backoff.py:12-16 | k consecutive failures span at least k - 1 windows |
| Backoff.ReopensIff | src/agents/cli_launch_backoff.py:222-244 | after a failure the CLI may be launched again exactly once a window has passed, after a success at once |
| Backoff.UninterruptedSuccess | src/agents/cli_launch_backoff.py:182-193 | the two lock sections of a success report, run back to back, do what the method does |
| Backoff.UninterruptedFailure | src/agents/cli_launch_backoff.py:196-219 | a failure report stamps the failure and diagnoses from the baseline it finds |
| Backoff.BaselineWriteOnce | src/agents/cli_launch_backoff.py:182-193 | in every interleaving a baseline never changes once set and is always a real reading |
| Backoff.NoSuccessNoSwap | src/agents/cli_launch_backoff.py:92-108 | a CLI that never reported success is never diagnosed as swapped |
| LineBlocks.DisjointMeans | scripts/split_server.py:233-244 | blocks are disjoint exactly when no two of them share a line |
| LineBlocks.SortDisjoint | scripts/split_server.py:319-320 | sorting by first line keeps blocks disjoint |
| SplitVerify.ClaimLines | scripts/split_server.py:234-244 | the claiming loop succeeds exactly on disjoint blocks and has then claimed their lines; else it names a line two blocks hold |
| SplitVerify.UnclaimedSize | scripts/split_server.py:245 | the remainder has as many lines as the file has unclaimed ones |
| SplitVerify.AccountingExactly | scripts/split_server.py:255-258 | after the earlier checks, the accounting holds exactly when no extra block is anchored back to front |
| SplitVerify.BackToFrontPlan | scripts/split_server.py:221-258 | a plan that passes every earlier check and for which the accounting is the only justified complaint |
| SplitVerify.ClaimedInFile | scripts/split_server.py:221-231 | blocks that abut their anchors claim only lines of the file |
| SplitVerify.CheckAnchors | scripts/split_server.py:222-231 | succeeds exactly when every extra block fills the gap between its anchors, and names the side that does not |
| SplitVerify.AbutsMeans | scripts/split_server.py:222-231 | an extra block that passes is exactly the lines strictly between its anchors |
| SplitVerify.HarmlessMeans | scripts/split_server.py:246-254 | which lines may be left behind: blank, comment, import, docstring quotes, indented, a closing parenthesis, or the first two |
| SplitVerify.Verify | scripts/split_server.py:214-258 | passes exactly on splittable inputs, returns their remainder, and every complaint is justified by the input |
| SplitEmit.UndoIff | scripts/split_server.py:349-353 | the decorator rewrite can be undone exactly on lines that were not router decorators |
| SplitEmit.DecoratorsMoved | scripts/split_server.py:349-353 | a claimed `@app.` decorator stands as `@router.` in a module with a router, and every other claimed line verbatim; without a router all of them do |
| SplitEmit.NoAppLeft | scripts/split_server.py:349-353 | below the header of a module with a router no line starts with `@app.` |
| SplitEmit.Layout | scripts/split_server.py:314-358 | file order, one blank line between blocks, none at the end, and no other module's lines |
| SplitEmit.BuildModule | scripts/split_server.py:314-358 | the loops over items, lines and trailing blanks compute the module's text |
| SplitEmit.OneModule | scripts/split_server.py:314-320 | a claimed line is an item of its owner and of no other module |
| SplitEmit.ModuleHoldsItsLines | scripts/split_server.py:341-358 | below its header a module is the non-blank lines it claimed, rewritten, each once, in file order |
| SplitEmit.SplitRoundTrip | scripts/split_server.py:308-358 | after verification, modules and remainder rebuild the file line by line exactly when no routed module took in a router decorator |
| SplitEmit.Split | scripts/split_autopilot_api.py:351-426 | verification and one text per module; the API splitter is the case without extra blocks and routers |
| CursorCut.RewriteFile | scripts/split_manager.py:164-212 | the cursor loop over the sorted methods computes the reassembly |
| CursorCut.ExtractBodies | scripts/split_manager_full.py:133-136 | the extracted bodies are the methods' lines verbatim |
| CursorCut.CutReplaces | scripts/split_manager_full.py:175-192 | for ordered methods after `__init__`, the new file is the old one with each method replaced by its delegator |
| CursorCut.CutRoundTripIff | scripts/split_manager.py:207-212 | putting the bodies back rebuilds the file if and only if the methods follow one another after `__init__` |
| CursorCut.CutConserves | scripts/split_manager.py:104-107 | kept and extracted lines are, with multiplicity, the whole file |
| CursorCut.WeakCheckNeverFails | scripts/split_manager.py:229-239 | the script's own lost-line check passes on every input |
| CursorCut.WeakCheckMissesIff | scripts/split_manager_full.py:209-219 | for all cuts it passes, while more lines are kept and extracted than the file has exactly when the cuts do not follow one another after `__init__` |
| CursorCut.WeakCheckMissesEarlyMethod | scripts/split_manager_full.py:209-219 | the output when a cut method ends before the end of `__init__`: the method stays and the lines between are copied twice |
| StatusPost.PostTaskStatus | mcp/mcp_client.py:396-483 | the loop agrees with the recursive specification in outcome, attempts and delays; the summary is missing exactly if the status is done and it is white space |
| StatusPost.FirstReplyDecides | mcp/mcp_client.py:416-463 | the first reply that is not retried decides; without one within the budget the last reply is reported |
| StatusPost.CallEnds | mcp/mcp_client.py:434-463 | another attempt exactly after an unreachable server or a code from 500 on, within the budget; a 200 is reported or, malformed, a failure, and any other code is a rejection with that reply |
| StatusPost.ReportedIff | mcp/mcp_client.py:434-452 | success exactly when the first reply that is not retried comes within the budget and is a well-formed 200 |
| StatusPost.DelaysGrow | mcp/mcp_client.py:465-468 | delays never shrink and never exceed the cap |
| StatusPost.DelaySum | mcp/mcp_client.py:465-474 | the total wait of n delays in closed form: base * 2^n - base up to the turn, then the cap each time |
| StatusPost.ShippedDelays | mcp/mcp_client.py:370-372 | five attempts; the first five delays at the shipped settings are 2, 4, 8, 16 and 20 |
| StatusPost.WaitAtDefaults | mcp/mcp_client.py:364-372 | at the shipped settings a call waits at most 30 seconds, and exactly 30 when it gives up |
| Messenger.ChainIsOnePass | src/agents/messenger.py:173-177 | the three chained replacements equal one escape per character |
| Messenger.EscapeAt | src/agents/messenger.py:173-177 | a double quote, a dollar sign and a backtick get a backslash wherever they stand, and no other character does |
| Messenger.EscapeRoundTrip | src/agents/messenger.py:171-177 | dropping a backslash only before a special character recovers the message, also when it holds backslashes |
| Messenger.EscapeInjective | src/agents/messenger.py:173-177 | two messages with the same escaped text are equal |
| Messenger.EscapedIff | src/agents/messenger.py:171-177 | the escaped texts are exactly those in which every special character has its own backslash |
| Messenger.PaneIsWedged | src/agents/messenger.py:47-69 | true exactly when the last non-blank line of the capture is a continuation prompt |
| Messenger.WedgedMeans | src/agents/messenger.py:25-29 | the six prompts, whatever white space is around them and whatever blank lines follow |
| Text.StripOf | src/agents/messenger.py:66 | stripping takes the white space at both ends and nothing else |
| Text.StripEmpty | mcp/mcp_client.py:397 | nothing is left exactly of white space |
| Messenger.ConfirmSubmit | src/agents/messenger.py:207-245 | Enter is repeated only after looks that show the text waiting, at most twice; a look or a press that raises ends without a verdict; undelivered exactly when all three looks show the text |

## Left out

- tmux, pane capture, subprocess and version probes, PATH lookup, sleeping, worktrees and LLM calls: inputs or script entries.
- The ORM: sessions are atomic commits on maps. Objects keep the columns they were loaded with and write only those that differ, which decides the caller's commit and a restart's final write; detachment, identity maps and flush order are not modelled further.
- Other code's commits between two statements where a call does not wait, such as between the guards and the stub; LaunchDispatch covers that gap for dispatchers.
- Termination's cost checkpoint, `pause_workflow` on a session limit, `paused_by`, failure-reason texts, timestamps, log entries and health-check counters.
- The agent statuses `stuck` and `starting`: no code in the repository writes them, and the row invariant excludes them.
- Session names are taken to be unique; their eight-character prefixes can collide.
- LaunchProofs.UniqueInEveryRun: states uniqueness for serialised dispatch only, because for concurrent dispatch it is false; LaunchDispatch.UniqueUnlessDisplaced says for checks, inserts, merges and outside terminations exactly when it holds there.
- LaunchRestart.TerminatedForGood: speaks of terminations between calls; which ones inside a call are lost is LaunchRace.TerminationMissedIff and LaunchRestart.RestartLosesTerminationIff.
- PtyCuts.CutInContextIff: of a BEL-terminated OSC, the second part may hold no complete sequence of its own; CutSurvivesIff covers that case alone.
- PtyFilter.FilterNormalises: one direction for idempotence; EscRunsIdempotentIff gives the exact condition for chunks without brackets and parentheses and FixedPointIff the exact fixed points, but for doubled ESC bytes among OSC and CSI sequences, where passes re-open one another's input, no exact condition on the raw bytes is stated.
- Backoff.LaunchBackoff.WaitOutCooldown: a negative cap, which `time.sleep` rejects, is excluded; the window is read once per call, and a configuration change between two reads is not modelled.
- `reset_for_tests`, `describe` and the configuration lookup of the cooldown.
- Python parsing: spans, names, decorators and header lines are given; so are the territory and dependency checks and the `__init__` files of the splitters.
- StatusPost.PostTaskStatus: message texts and emoji are reduced to the kind of outcome; whether a 200 body parses and carries a message is an input.
- Messenger: what a real shell does with the quoted text, the Ctrl-C recovery and the agent's activity stamps; the outcome of matching a CLI's confirmation pattern is an input.
- The other tools of the MCP client, manager delegators, prompt building, the frontend and the website.
