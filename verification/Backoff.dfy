/**
 Launch cooldowns and the version baseline (src/agents/cli_launch_backoff.py): two maps
 behind a lock, a monotone clock, and version probes that run outside the lock.
 */
module Backoff {
  import opened Wrappers

  type Cli = string
  type Version = string

  // A probe that failed says so in its first word, and is no baseline.
  predicate RealReading(v: Version) { !("unavailable" <= v) && !("unknown" <= v) }

  datatype Facts = Facts(cli: Cli, atFailure: Version, lastGood: Option<Version>, onPath: bool) {
    predicate LooksLikeBinarySwap() {
      var known := lastGood.Some? && lastGood.value != "";
      if !onPath && known then true else known && atFailure != lastGood.value
    }
  }

  // ------------------------------------------------------------- cooldowns

  function Positive(x: real): real { if x > 0.0 then x else 0.0 }

  function RemainingOf(failures: map<Cli, real>, c: Cli, now: real, window: real): real {
    if c in failures then Positive(window - (now - failures[c])) else 0.0
  }

  ghost predicate Past(failures: map<Cli, real>, now: real) {
    forall c :: c in failures ==> failures[c] <= now
  }

  // The longest outstanding wait over all CLIs, stated without computing it.
  ghost predicate IsLongest(failures: map<Cli, real>, now: real, window: real, r: real) {
    && (forall c :: RemainingOf(failures, c, now, window) <= r)
    && (r == 0.0 || exists c :: c in failures && RemainingOf(failures, c, now, window) == r)
    && r >= 0.0
  }

  lemma LongestIsUnique(failures: map<Cli, real>, now: real, window: real, r: real, r': real)
    requires IsLongest(failures, now, window, r) && IsLongest(failures, now, window, r')
    ensures r == r'
  {
    if r != 0.0 {
      var c :| c in failures && RemainingOf(failures, c, now, window) == r;
      assert RemainingOf(failures, c, now, window) <= r';
    }
    if r' != 0.0 {
      var c :| c in failures && RemainingOf(failures, c, now, window) == r';
      assert RemainingOf(failures, c, now, window) <= r;
    }
  }

  // The longest wait runs down second by second to zero.
  lemma LongestElapses(failures: map<Cli, real>, now: real, window: real, r: real, d: real)
    requires IsLongest(failures, now, window, r) && d >= 0.0
    ensures IsLongest(failures, now + d, window, Positive(r - d))
  {
    var later, rest := now + d, Positive(r - d);
    forall c ensures RemainingOf(failures, c, later, window) <= rest {
      RemainingElapses(failures, c, now, window, d);
      assert RemainingOf(failures, c, now, window) <= r;
    }
    if r > 0.0 {
      var c :| c in failures && RemainingOf(failures, c, now, window) == r;
      RemainingElapses(failures, c, now, window, d);
    }
  }

  lemma RemainingElapses(failures: map<Cli, real>, c: Cli, now: real, window: real, d: real)
    requires d >= 0.0
    ensures RemainingOf(failures, c, now + d, window) == Positive(RemainingOf(failures, c, now, window) - d)
  {}

  // What a caller gets for one CLI, or for all of them.
  ghost predicate IsCooldown(failures: map<Cli, real>, cli: Option<Cli>, now: real, window: real, r: real) {
    match cli
    case Some(c) => r == RemainingOf(failures, c, now, window)
    case None => IsLongest(failures, now, window, r)
  }

  function WaitFor(r: real, cap: real): real { if r <= cap then r else cap }

  class LaunchBackoff {
    var lastFailure: map<Cli, real>
    var lastGoodVersion: map<Cli, Version>
    var clock: real

    ghost predicate Valid()
      reads this
    {
      Past(lastFailure, clock) && forall c :: c in lastGoodVersion ==> RealReading(lastGoodVersion[c])
    }

    constructor ()
      ensures Valid() && lastFailure == map[] && lastGoodVersion == map[]
    {
      lastFailure, lastGoodVersion, clock := map[], map[], 0.0;
    }

    // The probe is consulted only when no baseline is known yet.
    method NoteLaunchSuccess(c: Cli, probe: Version)
      requires Valid()
      modifies this`lastFailure, this`lastGoodVersion
      ensures Valid() && lastFailure == old(lastFailure) - {c}
      ensures lastGoodVersion ==
              if c in old(lastGoodVersion) || "unavailable" <= probe || "unknown" <= probe then old(lastGoodVersion)
              else old(lastGoodVersion)[c := probe]
    {
      lastFailure := lastFailure - {c};
      if c in lastGoodVersion { return; }
      if RealReading(probe) && c !in lastGoodVersion {
        lastGoodVersion := lastGoodVersion[c := probe];
      }
    }

    // The cooldown starts whatever the evidence says.
    method NoteLaunchFailure(c: Cli, onPath: bool, probe: Version) returns (facts: Facts)
      requires Valid()
      modifies this`lastFailure
      ensures Valid() && lastFailure == old(lastFailure)[c := clock]
      ensures facts.cli == c && facts.atFailure == probe && facts.onPath == onPath
      ensures facts.LooksLikeBinarySwap() ==> c in lastGoodVersion
      ensures c in lastGoodVersion && lastGoodVersion[c] != "" ==>
              (facts.LooksLikeBinarySwap() <==> !onPath || probe != lastGoodVersion[c])
      ensures forall window :: window >= 0.0 ==> RemainingOf(lastFailure, c, clock, window) == window
    {
      lastFailure := lastFailure[c := clock];
      var lastGood := if c in lastGoodVersion then Some(lastGoodVersion[c]) else None;
      facts := Facts(c, probe, lastGood, onPath);
    }

    // The clock is read before the lock is taken, so the stamps can be newer than `now`.
    method CooldownRemaining(cli: Option<Cli>, window: real, now: real) returns (r: real)
      requires Valid() && window >= 0.0 && now <= clock
      ensures IsCooldown(lastFailure, cli, now, window, r)
      ensures forall c :: cli == Some(c) ==>
        r == if c in lastFailure && now - lastFailure[c] < window then window - (now - lastFailure[c]) else 0.0
      ensures r <= window + (clock - now)
    {
      var left := if cli.None? then lastFailure.Keys
                  else if cli.value in lastFailure then {cli.value} else {};
      ghost var all := left;
      if left == {} { return 0.0; }
      var first :| first in left;
      left := left - {first};
      var best := window - (now - lastFailure[first]);
      while left != {}
        invariant left <= all <= lastFailure.Keys && first in all
        invariant forall c :: c in all - left ==> window - (now - lastFailure[c]) <= best
        invariant exists c :: c in all && window - (now - lastFailure[c]) == best
        decreases |left|
      {
        var c :| c in left;
        left := left - {c};
        var rest := window - (now - lastFailure[c]);
        if rest > best { best := rest; }
      }
      r := if best > 0.0 then best else 0.0;
      ghost var top :| top in all && window - (now - lastFailure[top]) == best;
      assert RemainingOf(lastFailure, top, now, window) == r;
      assert forall c :: c in all ==> RemainingOf(lastFailure, c, now, window) <= r;
    }

    // Blocks for the cooldown or the cap, whichever is shorter; the cap defaults to one
    // window. Sleeping is the clock moving, with nothing reported meanwhile.
    method WaitOutCooldown(cli: Option<Cli>, maxWait: Option<real>, window: real, now: real) returns (waited: real)
      requires Valid() && window >= 0.0 && now <= clock && (maxWait.Some? ==> maxWait.value >= 0.0)
      modifies this`clock
      ensures Valid() && clock == old(clock) + waited
      ensures forall r :: IsCooldown(lastFailure, cli, now, window, r) ==>
        && waited == WaitFor(r, if maxWait.None? then window else maxWait.value)
        && IsCooldown(lastFailure, cli, now + waited, window, r - waited)
    {
      var cap := if maxWait.None? then window else maxWait.value;
      var remaining := CooldownRemaining(cli, window, now);
      forall r | IsCooldown(lastFailure, cli, now, window, r) ensures r == remaining {
        if cli.None? { LongestIsUnique(lastFailure, now, window, r, remaining); }
      }
      if remaining <= 0.0 { return 0.0; }
      waited := if remaining < cap then remaining else cap;
      CooldownElapses(lastFailure, cli, now, window, remaining, waited);
      clock := clock + waited;
    }
  }

  // A cooldown is never negative and runs down second by second to zero.
  lemma CooldownElapses(failures: map<Cli, real>, cli: Option<Cli>, now: real, window: real, r: real, d: real)
    requires IsCooldown(failures, cli, now, window, r) && d >= 0.0
    ensures r >= 0.0
    ensures IsCooldown(failures, cli, now + d, window, Positive(r - d))
  {
    match cli {
      case Some(c) => RemainingElapses(failures, c, now, window, d);
      case None => LongestElapses(failures, now, window, r, d);
    }
  }

  // It exceeds the window exactly when a failure it covers was stamped after the clock was
  // read.
  lemma CooldownExceedsIff(failures: map<Cli, real>, cli: Option<Cli>, now: real, window: real, r: real)
    requires IsCooldown(failures, cli, now, window, r) && window >= 0.0
    ensures r > window <==> exists c :: c in failures && (cli == None || cli == Some(c)) && failures[c] > now
  {
    if cli.None? {
      if r > window {
        var c :| c in failures && RemainingOf(failures, c, now, window) == r;
        assert failures[c] > now;
      }
      forall c | c in failures && failures[c] > now ensures r > window {
        assert RemainingOf(failures, c, now, window) <= r;
      }
    }
  }

  // ------------------------------------------------------------- spacing of failures

  // Launches seen from outside: a dispatcher reads the cooldown, of this CLI or of all of
  // them, with a clock value taken a little earlier, and launches; the launch is later
  // reported as failed or working.
  datatype Event =
    | Dispatch(cli: Cli, asked: Option<Cli>, clockRead: real, at: real)
    | Failed(cli: Cli, at: real)
    | Worked(cli: Cli, at: real)

  datatype Sys = Sys(failures: map<Cli, real>, launching: set<Cli>, now: real)

  // Launch only at a zero reading, and one launch per CLI at a time.
  ghost predicate Legal(s: Sys, e: Event, window: real) {
    && s.now <= e.at
    && match e
       case Dispatch(c, asked, clockRead, at) =>
         && c !in s.launching && (asked == None || asked == Some(c))
         && clockRead <= at && IsCooldown(s.failures, asked, clockRead, window, 0.0)
       case Failed(c, _) => c in s.launching
       case Worked(c, _) => c in s.launching
  }

  function Step(s: Sys, e: Event): Sys {
    match e
    case Dispatch(c, _, _, at) => Sys(s.failures, s.launching + {c}, at)
    case Failed(c, at) => Sys(s.failures[c := at], s.launching - {c}, at)
    case Worked(c, at) => Sys(s.failures - {c}, s.launching - {c}, at)
  }

  // After a failure the CLI may be launched again exactly once a window has passed, after a
  // success at once.
  lemma ReopensIff(s: Sys, c: Cli, at: real, later: real, window: real)
    requires at <= later && window >= 0.0
    ensures var again := Dispatch(c, Some(c), later, later);
            && (Legal(Step(s, Failed(c, at)), again, window) <==> later - at >= window)
            && Legal(Step(s, Worked(c, at)), again, window)
            && !Legal(Step(s, again), again, window)
  {}

  ghost predicate LegalRun(s: Sys, es: seq<Event>, window: real)
    decreases |es|
  {
    es == [] || (Legal(s, es[0], window) && LegalRun(Step(s, es[0]), es[1..], window))
  }

  // Times of c's failures since its last success, on top of those already seen.
  function Streak(seen: seq<real>, es: seq<Event>, c: Cli): seq<real>
    decreases |es|
  {
    if es == [] then seen
    else if es[0].cli != c || es[0].Dispatch? then Streak(seen, es[1..], c)
    else if es[0].Failed? then Streak(seen + [es[0].at], es[1..], c)
    else Streak([], es[1..], c)
  }

  predicate Spaced(ts: seq<real>, window: real) {
    forall i :: 0 < i < |ts| ==> ts[i] - ts[i - 1] >= window
  }

  // While a launch of c is in flight, its last failure is already a window old.
  predicate Tracks(s: Sys, ts: seq<real>, c: Cli, window: real) {
    && (ts != [] ==> c in s.failures && s.failures[c] == ts[|ts| - 1])
    && (ts != [] && c in s.launching ==> s.now - ts[|ts| - 1] >= window)
  }

  // Main result: in every legal run, failures of one CLI with no success between them are
  // at least a window apart, whatever the other CLIs do.
  lemma {:induction false} FailuresSpaced(s: Sys, seen: seq<real>, es: seq<Event>, c: Cli, window: real)
    requires window >= 0.0 && LegalRun(s, es, window) && Tracks(s, seen, c, window) && Spaced(seen, window)
    ensures Spaced(Streak(seen, es, c), window)
    decreases |es|
  {
    if es != [] {
      var e := es[0];
      assert e.Dispatch? ==> RemainingOf(s.failures, e.cli, e.clockRead, window) <= 0.0;
      var next := if e.cli != c || e.Dispatch? then seen else if e.Failed? then seen + [e.at] else [];
      FailuresSpaced(Step(s, e), next, es[1..], c, window);
    }
  }

  lemma {:induction false} SpanOfStreak(ts: seq<real>, window: real)
    requires Spaced(ts, window) && ts != []
    ensures ts[|ts| - 1] - ts[0] >= (|ts| - 1) as real * window
  {
    if |ts| > 1 {
      var front := ts[..|ts| - 1];
      SpanOfStreak(front, window);
      assert ts[|ts| - 1] - ts[|ts| - 2] >= window;
      assert (|ts| - 1) as real * window == (|ts| - 2) as real * window + window;
    }
  }

  // k failures in a row cost at least k - 1 windows.
  lemma RetryBudgetSpansWindows(start: real, es: seq<Event>, c: Cli, window: real)
    requires window >= 0.0 && LegalRun(Sys(map[], {}, start), es, window)
    requires Streak([], es, c) != []
    ensures var ts := Streak([], es, c); ts[|ts| - 1] - ts[0] >= (|ts| - 1) as real * window
  {
    FailuresSpaced(Sys(map[], {}, start), [], es, c, window);
    SpanOfStreak(Streak([], es, c), window);
  }

  // ------------------------------------------------------------- interleaved reports

  // The lock sections of concurrent reports. A success report clears the cooldown in one
  // section and, if it saw no baseline, stores its probe in a second one; a failure report
  // probes first and has a single section.
  datatype Section =
    | ClearSection(thread: nat, cli: Cli)
    | BaselineSection(thread: nat, probe: Version)
    | FailureSection(cli: Cli, at: real, probe: Version, onPath: bool)

  datatype Shared = Shared(failures: map<Cli, real>, good: map<Cli, Version>, waiting: map<nat, Cli>,
                           reports: seq<Facts>)

  predicate Enabled(s: Shared, x: Section) {
    match x
    case ClearSection(th, _) => th !in s.waiting
    case BaselineSection(th, _) => th in s.waiting
    case FailureSection(_, _, _, _) => true
  }

  function Enter(s: Shared, x: Section): Shared {
    match x
    case ClearSection(th, c) =>
      var s1 := s.(failures := s.failures - {c});
      if c in s.good then s1 else s1.(waiting := s.waiting[th := c])
    case BaselineSection(th, probe) =>
      if th !in s.waiting then s
      else
        var c := s.waiting[th];
        var s1 := s.(waiting := s.waiting - {th});
        if RealReading(probe) && c !in s.good then s1.(good := s.good[c := probe]) else s1
    case FailureSection(c, at, probe, onPath) =>
      var lastGood := if c in s.good then Some(s.good[c]) else None;
      s.(failures := s.failures[c := at], reports := s.reports + [Facts(c, probe, lastGood, onPath)])
  }

  predicate AllEnabled(s: Shared, xs: seq<Section>)
    decreases |xs|
  {
    xs == [] || (Enabled(s, xs[0]) && AllEnabled(Enter(s, xs[0]), xs[1..]))
  }

  function EnterAll(s: Shared, xs: seq<Section>): Shared
    decreases |xs|
  {
    if xs == [] then s else EnterAll(Enter(s, xs[0]), xs[1..])
  }

  // A success report that nobody interrupts does what NoteLaunchSuccess does.
  lemma UninterruptedSuccess(s: Shared, th: nat, c: Cli, probe: Version)
    requires th !in s.waiting
    ensures var clear := ClearSection(th, c);
            var xs := if c in s.good then [clear] else [clear, BaselineSection(th, probe)];
            AllEnabled(s, xs) &&
            EnterAll(s, xs) == s.(failures := s.failures - {c},
                                  good := if c in s.good || "unavailable" <= probe || "unknown" <= probe then s.good
                                          else s.good[c := probe])
  {
    var clear, store := ClearSection(th, c), BaselineSection(th, probe);
    assert [clear][1..] == [] && [clear, store][1..] == [store] && [store][1..] == [];
    var s1 := Enter(s, clear);
    assert EnterAll(s, [clear]) == s1;
    if c !in s.good {
      assert s1.waiting - {th} == s.waiting;
      assert EnterAll(s1, [store]) == Enter(s1, store);
      assert EnterAll(s, [clear, store]) == Enter(s1, store);
    }
  }

  // A failure report has one section, which stamps the failure and diagnoses from the
  // baseline it finds.
  lemma UninterruptedFailure(s: Shared, c: Cli, at: real, probe: Version, onPath: bool)
    ensures var xs := [FailureSection(c, at, probe, onPath)];
            AllEnabled(s, xs) &&
            EnterAll(s, xs) == s.(failures := s.failures[c := at],
                                  reports := s.reports +
                                    [Facts(c, probe, if c in s.good then Some(s.good[c]) else None, onPath)])
  {
    var x := FailureSection(c, at, probe, onPath);
    assert [x][1..] == [];
    assert EnterAll(s, [x]) == EnterAll(Enter(s, x), []);
  }

  ghost predicate GoodIsReal(s: Shared) {
    forall c :: c in s.good ==> RealReading(s.good[c])
  }

  // Main result: in every interleaving a baseline, once set, is never changed, and only
  // real readings are ever stored.
  lemma {:induction false} BaselineWriteOnce(s: Shared, xs: seq<Section>)
    requires AllEnabled(s, xs) && GoodIsReal(s)
    ensures GoodIsReal(EnterAll(s, xs))
    ensures forall c :: c in s.good ==> c in EnterAll(s, xs).good && EnterAll(s, xs).good[c] == s.good[c]
    decreases |xs|
  {
    if xs != [] { BaselineWriteOnce(Enter(s, xs[0]), xs[1..]); }
  }

  predicate ReportsSuccess(xs: seq<Section>, c: Cli) {
    xs != [] && ((xs[0].ClearSection? && xs[0].cli == c) || ReportsSuccess(xs[1..], c))
  }

  // No trace of c among the baselines, the reports about to store one, or the diagnoses.
  ghost predicate NeverWorked(s: Shared, c: Cli) {
    && c !in s.good && (forall th :: th in s.waiting ==> s.waiting[th] != c)
    && forall f :: f in s.reports && f.cli == c ==> !f.LooksLikeBinarySwap()
  }

  // A CLI that never reported a working launch is never diagnosed as swapped.
  lemma {:induction false} NoSuccessNoSwap(s: Shared, xs: seq<Section>, c: Cli)
    requires AllEnabled(s, xs) && NeverWorked(s, c) && !ReportsSuccess(xs, c)
    ensures NeverWorked(EnterAll(s, xs), c)
    decreases |xs|
  {
    if xs != [] {
      NoSuccessNoSwap(Enter(s, xs[0]), xs[1..], c);
    }
  }
}
