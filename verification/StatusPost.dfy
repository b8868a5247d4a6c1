/**
 Reporting a task's status to the server, with bounded retries and capped exponential
 delays (mcp/mcp_client.py, _post_task_status).
 */
module StatusPost {
  import opened Wrappers
  import Text

  // What one attempt meets. `valid` says whether a body parses and carries a message.
  datatype Reply =
    | Response(code: int, valid: bool)
    | Unreachable   // refused, reset or timed out
    | Broken        // any other exception

  datatype Outcome =
    | MissingSummary
    | Reported(reply: Reply)
    | Rejected(reply: Reply)
    | Failed(reply: Reply)
    | GaveUp(last: Option<Reply>)

  type Server = nat -> Reply

  const MAX_ATTEMPTS: nat := 5
  const BASE_DELAY: real := 2.0
  const MAX_DELAY: real := 20.0

  predicate Retryable(r: Reply) {
    r.Unreachable? || (r.Response? && r.code != 200 && r.code >= 500)
  }

  // What a reply that is not retried is answered with.
  function Verdict(r: Reply): Outcome
    requires !Retryable(r)
  {
    if r.Broken? then Failed(r)
    else if r.code == 200 then (if r.valid then Reported(r) else Failed(r))
    else Rejected(r)
  }

  predicate NeedsSummary(status: string, summary: string) {
    status == "done" && Text.Strip(summary) == ""
  }

  // ------------------------------------------------------------- delays

  function Power(n: nat): real { if n == 0 then 1.0 else 2.0 * Power(n - 1) }

  function Min(a: real, b: real): real { if a <= b then a else b }

  // The wait after attempt k, counted from 1.
  function Delay(k: nat, base: real, cap: real): real
    requires k >= 1
  {
    Min(base * Power(k - 1), cap)
  }

  function Sum(ds: seq<real>): real {
    if ds == [] then 0.0 else Sum(ds[..|ds| - 1]) + ds[|ds| - 1]
  }

  function Delays(n: nat, base: real, cap: real): (r: seq<real>)
    ensures |r| == n
  {
    if n == 0 then [] else Delays(n - 1, base, cap) + [Delay(n, base, cap)]
  }

  // ------------------------------------------------------------- specification

  // Attempt k onwards, of at most `max`.
  function Post(server: Server, k: nat, max: nat): Outcome
    requires 1 <= k <= max
    decreases max - k
  {
    var r := server(k);
    if !Retryable(r) then Verdict(r)
    else if k < max then Post(server, k + 1, max)
    else GaveUp(Some(r))
  }

  function Attempts(server: Server, k: nat, max: nat): (n: nat)
    requires 1 <= k <= max
    ensures k <= n <= max
    decreases max - k
  {
    if Retryable(server(k)) && k < max then Attempts(server, k + 1, max) else k
  }

  // Attempt n settles the matter: the earlier ones were all to be retried.
  ghost predicate SettledBy(server: Server, from: nat, n: nat) {
    && from <= n && !Retryable(server(n))
    && forall j :: from <= j < n ==> Retryable(server(j))
  }

  // The recursion is the plain statement: the first reply not to be retried decides, and
  // without one within the budget the last reply is what is reported.
  lemma {:induction false} FirstReplyDecides(server: Server, k: nat, max: nat)
    requires 1 <= k <= max
    ensures forall n: nat :: SettledBy(server, k, n) && n <= max ==>
              Post(server, k, max) == Verdict(server(n)) && Attempts(server, k, max) == n
    ensures (forall j :: k <= j <= max ==> Retryable(server(j))) <==> Post(server, k, max).GaveUp?
    ensures Post(server, k, max).GaveUp? ==>
              Post(server, k, max) == GaveUp(Some(server(max))) && Attempts(server, k, max) == max
    ensures !Post(server, k, max).GaveUp? ==> SettledBy(server, k, Attempts(server, k, max))
    decreases max - k
  {
    if Retryable(server(k)) && k < max {
      FirstReplyDecides(server, k + 1, max);
      forall n: nat | SettledBy(server, k, n) && n <= max
        ensures Post(server, k, max) == Verdict(server(n)) && Attempts(server, k, max) == n
      {
        assert n != k;
        assert SettledBy(server, k + 1, n);
      }
    }
  }

  // Main result: a report counts as made exactly when the first reply that is not retried
  // comes within the budget and is a well-formed 200.
  lemma ReportedIff(server: Server, max: nat)
    requires max >= 1
    ensures Post(server, 1, max).Reported? <==>
            exists n: nat :: n <= max && SettledBy(server, 1, n) && server(n) == Response(200, true)
  {
    FirstReplyDecides(server, 1, max);
    var post := Post(server, 1, max);
    if post.Reported? {
      var n := Attempts(server, 1, max);
      assert SettledBy(server, 1, n) && post == Verdict(server(n));
    }
  }

  // Main result: by codes and kinds of reply, when a call goes on and how it ends. It makes
  // another attempt exactly after an unreachable server or a code from 500 on, within the
  // budget; a 200 is reported if its body is well formed, any other code below 500 is a
  // rejection with that very reply, and whatever else raises is a failure.
  lemma {:induction false} CallEnds(server: Server, max: nat)
    requires max >= 1
    ensures var n := Attempts(server, 1, max);
            forall k :: 1 <= k <= n ==>
              (k < n <==> k < max && (server(k).Unreachable? || (server(k).Response? && server(k).code >= 500)))
    ensures var n, outcome := Attempts(server, 1, max), Post(server, 1, max);
            match server(n)
            case Broken => outcome == Failed(Broken)
            case Unreachable => n == max && outcome == GaveUp(Some(Unreachable))
            case Response(code, valid) =>
              if code >= 500 then n == max && outcome == GaveUp(Some(Response(code, valid)))
              else if code != 200 then outcome == Rejected(Response(code, valid))
              else if valid then outcome == Reported(Response(200, true))
              else outcome == Failed(Response(200, false))
  {
    var n := Attempts(server, 1, max);
    FirstReplyDecides(server, 1, max);
    if Post(server, 1, max).GaveUp? {
      assert Retryable(server(n));
    } else {
      assert SettledBy(server, 1, n) && Post(server, 1, max) == Verdict(server(n));
    }
  }

  lemma SummaryNeeded(status: string, summary: string)
    ensures NeedsSummary(status, summary) <==>
            status == "done" && forall k :: 0 <= k < |summary| ==> Text.IsSpace(summary[k])
  {
    Text.StripEmpty(summary);
    Text.BlankMeans(summary);
  }

  // ------------------------------------------------------------- the loop

  method PostTaskStatus(status: string, summary: string, server: Server, base: real, cap: real, max: nat)
    returns (outcome: Outcome, attempts: nat, delays: seq<real>)
    ensures outcome == if NeedsSummary(status, summary) then MissingSummary
                       else if max == 0 then GaveUp(None) else Post(server, 1, max)
    ensures attempts == if NeedsSummary(status, summary) || max == 0 then 0 else Attempts(server, 1, max)
    ensures delays == Delays(if attempts == 0 then 0 else attempts - 1, base, cap)
    ensures outcome == MissingSummary <==>
            status == "done" && forall k :: 0 <= k < |summary| ==> Text.IsSpace(summary[k])
  {
    attempts, delays := 0, [];
    SummaryNeeded(status, summary);
    if status == "done" && Text.Strip(summary) == "" { return MissingSummary, 0, []; }
    var last := None;
    while attempts < max
      invariant attempts <= max && (attempts == 0 ==> last == None)
      invariant attempts < max ==> Post(server, 1, max) == Post(server, attempts + 1, max)
      invariant attempts < max ==> Attempts(server, 1, max) == Attempts(server, attempts + 1, max)
      invariant attempts == max > 0 ==> Post(server, 1, max) == GaveUp(last) && Attempts(server, 1, max) == max
      invariant delays == Delays(if attempts < max || max == 0 then attempts else max - 1, base, cap)
    {
      attempts := attempts + 1;
      var reply := server(attempts);
      if !Retryable(reply) { return Verdict(reply), attempts, delays; }
      last := Some(reply);
      if attempts < max {
        assert Delays(attempts, base, cap) == Delays(attempts - 1, base, cap) + [Delay(attempts, base, cap)];
        delays := delays + [Min(base * Power(attempts - 1), cap)];
      }
    }
    outcome := GaveUp(last);
  }

  // ------------------------------------------------------------- how long it can take

  // The same delays by repeated doubling, which needs no multiplication.
  function Doubled(base: real, n: nat): real {
    if n == 0 then base else Doubled(base, n - 1) + Doubled(base, n - 1)
  }

  lemma {:induction false} DoubledIs(base: real, n: nat)
    ensures base * Power(n) == Doubled(base, n)
  {
    if n > 0 {
      DoubledIs(base, n - 1);
      assert base * (2.0 * Power(n - 1)) == base * Power(n - 1) + base * Power(n - 1);
    }
  }

  lemma {:induction false} DoubledGrows(base: real, m: nat, n: nat)
    requires base >= 0.0 && m <= n
    ensures 0.0 <= Doubled(base, m) <= Doubled(base, n)
    decreases n
  {
    if m < n { DoubledGrows(base, m, n - 1); } else if m > 0 { DoubledGrows(base, m - 1, m - 1); }
  }

  lemma DelayIs(k: nat, base: real, cap: real)
    ensures Delay(k + 1, base, cap) == Min(Doubled(base, k), cap)
  {
    DoubledIs(base, k);
  }

  lemma {:induction false} DelayAt(n: nat, base: real, cap: real, k: nat)
    requires k < n
    ensures Delays(n, base, cap)[k] == Delay(k + 1, base, cap)
  {
    if k < n - 1 { DelayAt(n - 1, base, cap, k); }
  }

  // Delays never shrink and never exceed the cap.
  lemma DelaysGrow(n: nat, base: real, cap: real)
    requires base >= 0.0
    ensures forall j, k :: 0 <= j <= k < n ==> Delays(n, base, cap)[j] <= Delays(n, base, cap)[k] <= cap
  {
    forall j, k | 0 <= j <= k < n ensures Delays(n, base, cap)[j] <= Delays(n, base, cap)[k] <= cap {
      DelayAt(n, base, cap, j);
      DelayAt(n, base, cap, k);
      DelayIs(j, base, cap);
      DelayIs(k, base, cap);
      DoubledGrows(base, j, k);
    }
  }

  // Doubling stops after `turn` delays; from there each one is the cap.
  ghost predicate CapsAt(turn: nat, base: real, cap: real) {
    base * Power(turn) >= cap && (turn > 0 ==> base * Power(turn - 1) <= cap)
  }

  function Repeated(cap: real, n: nat): real { if n == 0 then 0.0 else Repeated(cap, n - 1) + cap }

  lemma {:induction false} RepeatedIs(cap: real, n: nat, r: real)
    requires r == n as real
    ensures Repeated(cap, n) == cap * r
  {
    if n > 0 {
      RepeatedIs(cap, n - 1, r - 1.0);
      assert cap * (r - 1.0) == cap * r - cap;
    }
  }

  function Total(n: nat, base: real, cap: real): real {
    if n == 0 then 0.0 else Total(n - 1, base, cap) + Min(Doubled(base, n - 1), cap)
  }

  lemma {:induction false} TotalIs(n: nat, base: real, cap: real)
    ensures Sum(Delays(n, base, cap)) == Total(n, base, cap)
  {
    if n > 0 {
      TotalIs(n - 1, base, cap);
      var ds := Delays(n, base, cap);
      assert ds[..n - 1] == Delays(n - 1, base, cap);
      DelayIs(n - 1, base, cap);
    }
  }

  lemma {:induction false} TotalDoubled(n: nat, turn: nat, base: real, cap: real)
    requires base >= 0.0 && Doubled(base, turn) >= cap && (turn > 0 ==> Doubled(base, turn - 1) <= cap)
    ensures Total(n, base, cap) ==
            if n <= turn then Doubled(base, n) - base
            else Doubled(base, turn) - base + Repeated(cap, n - turn)
  {
    if n > 0 {
      TotalDoubled(n - 1, turn, base, cap);
      if n <= turn {
        DoubledGrows(base, n - 1, turn - 1);
      } else {
        DoubledGrows(base, turn, n - 1);
      }
    }
  }

  lemma CapsDoubled(turn: nat, base: real, cap: real)
    requires CapsAt(turn, base, cap)
    ensures Doubled(base, turn) >= cap && (turn > 0 ==> Doubled(base, turn - 1) <= cap)
  {
    DoubledIs(base, turn);
    if turn > 0 { DoubledIs(base, turn - 1); }
  }

  lemma WaitDoubled(n: nat, turn: nat, base: real, cap: real)
    requires base >= 0.0 && CapsAt(turn, base, cap)
    ensures Sum(Delays(n, base, cap)) ==
            if n <= turn then Doubled(base, n) - base else Doubled(base, turn) - base + Repeated(cap, n - turn)
  {
    TotalIs(n, base, cap);
    CapsDoubled(turn, base, cap);
    TotalDoubled(n, turn, base, cap);
  }

  // The whole wait of n delays in closed form: a geometric sum, then the cap each time; r is
  // how often.
  lemma DelaySum(n: nat, turn: nat, base: real, cap: real, r: real)
    requires base >= 0.0 && CapsAt(turn, base, cap) && r == (n - turn) as real
    ensures n <= turn ==> Sum(Delays(n, base, cap)) == base * Power(n) - base
    ensures n > turn ==> Sum(Delays(n, base, cap)) == base * Power(turn) - base + cap * r
  {
    WaitDoubled(n, turn, base, cap);
    if n <= turn {
      DoubledIs(base, n);
    } else {
      DoubledIs(base, turn);
      RepeatedIs(cap, n - turn, r);
    }
  }

  // At the shipped settings the whole wait is 2 + 4 + 8 + 16 seconds.
  lemma WaitAtDefaults(server: Server)
    ensures Sum(Delays(Attempts(server, 1, MAX_ATTEMPTS) - 1, BASE_DELAY, MAX_DELAY)) <= 30.0
    ensures Post(server, 1, MAX_ATTEMPTS).GaveUp? ==>
            Sum(Delays(Attempts(server, 1, MAX_ATTEMPTS) - 1, BASE_DELAY, MAX_DELAY)) == 30.0
  {
    var n := Attempts(server, 1, MAX_ATTEMPTS) - 1;
    FirstReplyDecides(server, 1, MAX_ATTEMPTS);
    assert Doubled(BASE_DELAY, 4) == 32.0 && Doubled(BASE_DELAY, 3) == 16.0;
    TotalIs(n, BASE_DELAY, MAX_DELAY);
    TotalDoubled(n, 4, BASE_DELAY, MAX_DELAY);
    DoubledGrows(BASE_DELAY, n, 4);
  }

  // The first five delays at the shipped settings; with five attempts the last is not used.
  lemma ShippedDelays()
    ensures MAX_ATTEMPTS == 5 && Delays(5, BASE_DELAY, MAX_DELAY) == [2.0, 4.0, 8.0, 16.0, 20.0]
  {
    var ds := Delays(5, BASE_DELAY, MAX_DELAY);
    forall k: nat | k < 5 ensures ds[k] == Min(Doubled(BASE_DELAY, k), MAX_DELAY) {
      DelayAt(5, BASE_DELAY, MAX_DELAY, k);
      DelayIs(k, BASE_DELAY, MAX_DELAY);
    }
    assert Doubled(BASE_DELAY, 3) == 16.0 && Doubled(BASE_DELAY, 4) == 32.0;
    assert ds[0] == 2.0 && ds[1] == 4.0 && ds[2] == 8.0 && ds[3] == 16.0 && ds[4] == 20.0;
  }
}
