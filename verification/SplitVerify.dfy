/**
 What the splitters check before writing anything (scripts/split_server.py, steps 1 to 3;
 scripts/split_autopilot_api.py, step 5): names, anchors of the extra blocks, no line
 claimed twice, a remainder without code, and the line accounting.
 */
module SplitVerify {
  import opened LineBlocks
  import opened Wrappers
  import Text

  // A top-level definition as the parser reports it.
  datatype Span = Span(name: string, first: int, last: int)

  // A fixed range of bootstrap statements between two named definitions.
  datatype Extra = Extra(owner: string, after: string, before: string, first: int, last: int)

  // The tables written into the script. The API splitter has no extras and does not let a
  // docstring line through.
  datatype Plan = Plan(
    expected: nat,
    owners: map<string, string>,
    extras: seq<Extra>,
    docstrings: bool,
    modules: seq<string>,
    routed: set<string>,
    header: string -> seq<Line>)

  datatype Failure =
    | NameCount | NameMismatch
    | ExtraStart(extra: nat) | ExtraEnd(extra: nat)
    | ClaimedTwice(line: int) | CodeInRemainder(line: int) | Accounting

  datatype Verdict = Passed(remainder: seq<int>) | Failed(why: Failure)

  // What the parser guarantees: one entry per name, at least one line each, inside the file.
  ghost predicate Parsed(spans: seq<Span>, n: nat) {
    && (forall j, k :: 0 <= j < k < |spans| ==> spans[j].name != spans[k].name)
    && (forall k :: 0 <= k < |spans| ==> 1 <= spans[k].first <= spans[k].last <= n)
  }

  // What the tables must satisfy for the script's own lookups to succeed.
  ghost predicate Tabled(plan: Plan) {
    && (forall k :: 0 <= k < |plan.extras| ==>
          plan.extras[k].after in plan.owners && plan.extras[k].before in plan.owners)
    && (forall x :: x in plan.owners ==> Listed(plan.modules, plan.owners[x]))
    && (forall k :: 0 <= k < |plan.extras| ==> Listed(plan.modules, plan.extras[k].owner))
  }

  predicate Listed(names: seq<string>, name: string) {
    names != [] && (names[|names| - 1] == name || Listed(names[..|names| - 1], name))
  }

  function Names(spans: seq<Span>): set<string> {
    set k | 0 <= k < |spans| :: spans[k].name
  }

  // ------------------------------------------------------------- blocks

  function SpanBlocks(spans: seq<Span>, owners: map<string, string>): (r: seq<Block>)
    requires Names(spans) <= owners.Keys
    ensures |r| == |spans|
    ensures forall k :: 0 <= k < |r| ==> r[k] == Block(spans[k].first, spans[k].last, owners[spans[k].name])
  {
    assert forall k :: 0 <= k < |spans| ==> spans[k].name in Names(spans);
    seq(|spans|, k requires 0 <= k < |spans| => Block(spans[k].first, spans[k].last, owners[spans[k].name]))
  }

  function ExtraBlocks(extras: seq<Extra>): (r: seq<Block>)
    ensures |r| == |extras|
    ensures forall k :: 0 <= k < |r| ==> r[k] == Block(extras[k].first, extras[k].last, extras[k].owner)
  {
    seq(|extras|, k requires 0 <= k < |extras| => Block(extras[k].first, extras[k].last, extras[k].owner))
  }

  function Blocks(spans: seq<Span>, plan: Plan): seq<Block>
    requires Names(spans) <= plan.owners.Keys
  {
    SpanBlocks(spans, plan.owners) + ExtraBlocks(plan.extras)
  }

  // ------------------------------------------------------------- claimed lines

  function Range(a: int, b: int): (r: set<int>)
    ensures forall i :: i in r <==> a <= i <= b
    ensures |r| == if a <= b then b - a + 1 else 0
    decreases b - a
  {
    if a > b then {} else Range(a, b - 1) + {b}
  }

  function LinesOf(b: Block): set<int> { Range(b.first, b.last) }

  function AllLines(bs: seq<Block>): set<int> {
    if bs == [] then {} else AllLines(bs[..|bs| - 1]) + LinesOf(bs[|bs| - 1])
  }

  lemma {:induction false} AllLinesAreCovered(bs: seq<Block>, i: int)
    ensures i in AllLines(bs) <==> Covered(bs, i)
  {
    if bs != [] { AllLinesAreCovered(bs[..|bs| - 1], i); }
  }

  function Size(b: Block): nat { if b.first <= b.last then b.last - b.first + 1 else 0 }

  function Sizes(bs: seq<Block>): nat {
    if bs == [] then 0 else Sizes(bs[..|bs| - 1]) + Size(bs[|bs| - 1])
  }

  // The script's own sum, which a reversed range makes smaller.
  function Extent(bs: seq<Block>): int {
    if bs == [] then 0 else Extent(bs[..|bs| - 1]) + (bs[|bs| - 1].last - bs[|bs| - 1].first + 1)
  }

  lemma {:induction false} DisjointSize(bs: seq<Block>)
    requires Disjoint(bs)
    ensures |AllLines(bs)| == Sizes(bs)
  {
    if bs != [] {
      var front, b := bs[..|bs| - 1], bs[|bs| - 1];
      DisjointSize(front);
      forall i | i in LinesOf(b) ensures i !in AllLines(front) {
        ApartMeans(front, b, i);
        AllLinesAreCovered(front, i);
      }
    }
  }

  // ------------------------------------------------------------- the remainder

  function Unclaimed(claimed: set<int>, n: nat): (r: seq<int>)
    ensures forall k :: 0 <= k < |r| ==> 1 <= r[k] <= n && r[k] !in claimed
  {
    if n == 0 then [] else Unclaimed(claimed, n - 1) + (if n in claimed then [] else [n])
  }

  lemma {:induction false} UnclaimedSize(claimed: set<int>, n: nat)
    ensures |Unclaimed(claimed, n)| == n - |claimed * Range(1, n)|
  {
    if n == 0 {
      assert claimed * Range(1, 0) == {};
    } else {
      UnclaimedSize(claimed, n - 1);
      if n in claimed {
        assert claimed * Range(1, n) == claimed * Range(1, n - 1) + {n};
      } else {
        assert claimed * Range(1, n) == claimed * Range(1, n - 1);
      }
    }
  }

  // A line the split may leave behind.
  predicate Harmless(l: Line, i: int, docstrings: bool) {
    var t := Text.LStrip(l);
    || t == ""
    || "#" <= t || "import " <= t || "from " <= t || (docstrings && "\"\"\"" <= t)
    || " " <= l
    || l == ")"
    || i <= 2
  }

  // The same with the indentation split off: what a line left behind may look like.
  lemma HarmlessMeans(indent: string, rest: string, i: int, docstrings: bool)
    requires Text.Blank(indent) && (rest == "" || !Text.IsSpace(rest[0]))
    ensures Harmless(indent + rest, i, docstrings) <==>
            || i == 1 || i == 2 || i <= 0
            || rest == "" || rest[..1] == "#" || "import " <= rest || "from " <= rest
            || (docstrings && |rest| >= 3 && rest[..3] == ['"', '"', '"'])
            || (indent != "" && indent[0] == ' ')
            || (indent == "" && rest == ")")
  {
    Text.LStripOf(indent, rest);
    if rest != "" {
      assert (indent + rest)[0] == if indent == "" then rest[0] else indent[0];
      assert Text.IsSpace(' ');
      assert !Text.IsSpace(')');
      assert indent == "" ==> indent + rest == rest;
    }
  }

  ghost predicate NoCodeLeft(lines: seq<Line>, claimed: set<int>, docstrings: bool) {
    forall i :: 1 <= i <= |lines| && i !in claimed ==> Harmless(lines[i - 1], i, docstrings)
  }

  // ------------------------------------------------------------- anchors

  function SpanNamed(spans: seq<Span>, name: string): (r: Span)
    requires name in Names(spans)
    ensures r.name == name && exists k :: 0 <= k < |spans| && r == spans[k]
  {
    if spans[0].name == name then spans[0]
    else
      assert name in Names(spans[1..]) by {
        var k :| 0 <= k < |spans| && spans[k].name == name;
        assert spans[1..][k - 1].name == name;
      }
      SpanNamed(spans[1..], name)
  }

  // The block fills the gap between its two anchors exactly.
  predicate Abuts(spans: seq<Span>, x: Extra)
    requires x.after in Names(spans) && x.before in Names(spans)
  {
    x.first == SpanNamed(spans, x.after).last + 1 && x.last == SpanNamed(spans, x.before).first - 1
  }

  // ------------------------------------------------------------- verification

  // Read line by line: a block that abuts its anchors, unless they are back to front, is
  // exactly what lies strictly between them.
  lemma AbutsMeans(spans: seq<Span>, x: Extra, i: int)
    requires x.after in Names(spans) && x.before in Names(spans) && Abuts(spans, x)
    ensures x.first <= i <= x.last <==> SpanNamed(spans, x.after).last < i < SpanNamed(spans, x.before).first
  {}

  ghost predicate Twice(blocks: seq<Block>, i: int) {
    exists k :: 0 <= k < |blocks| && Within(i, blocks[k]) && Covered(blocks[..k], i)
  }

  method ClaimLines(blocks: seq<Block>) returns (claimed: set<int>, twice: Option<int>)
    ensures twice.None? <==> Disjoint(blocks)
    ensures twice.None? ==> claimed == AllLines(blocks)
    ensures twice.Some? ==> Twice(blocks, twice.value)
  {
    claimed := {};
    for k := 0 to |blocks|
      invariant claimed == AllLines(blocks[..k]) && Disjoint(blocks[..k])
    {
      ClaimNext(blocks, k);
      claimed, twice := ClaimBlock(blocks[k], claimed);
      if twice.Some? {
        DoubleClaim(blocks, k, twice.value);
        return;
      }
    }
    assert blocks[..|blocks|] == blocks;
    twice := None;
  }

  method ClaimBlock(b: Block, already: set<int>) returns (claimed: set<int>, twice: Option<int>)
    ensures twice.None? ==> claimed == already + LinesOf(b) && already !! LinesOf(b)
    ensures twice.Some? ==> Within(twice.value, b) && twice.value in already
  {
    claimed := already;
    var i := b.first;
    while i <= b.last
      invariant b.first <= i && (i > b.first ==> i <= b.last + 1)
      invariant forall j :: j in claimed <==> j in already || b.first <= j < i
      invariant forall j :: b.first <= j < i ==> j !in already
    {
      if i in claimed { return claimed, Some(i); }
      claimed := claimed + {i};
      i := i + 1;
    }
    twice := None;
  }

  lemma ClaimNext(blocks: seq<Block>, k: nat)
    requires k < |blocks|
    ensures AllLines(blocks[..k + 1]) == AllLines(blocks[..k]) + LinesOf(blocks[k])
    ensures Disjoint(blocks[..k]) && AllLines(blocks[..k]) !! LinesOf(blocks[k]) ==> Disjoint(blocks[..k + 1])
  {
    var upTo := blocks[..k + 1];
    assert upTo[..|upTo| - 1] == blocks[..k] && upTo[|upTo| - 1] == blocks[k];
    if AllLines(blocks[..k]) !! LinesOf(blocks[k]) { NoClash(blocks[..k], blocks[k]); }
  }

  lemma NoClash(bs: seq<Block>, b: Block)
    requires AllLines(bs) !! LinesOf(b)
    ensures AllApart(bs, b)
  {
    AllApartMeans(bs, b);
    forall j | 0 <= j < |bs| ensures Apart(bs[j], b) {
      var i := if bs[j].first <= b.first then b.first else bs[j].first;
      CoveredAt(bs, i);
      AllLinesAreCovered(bs, i);
    }
  }

  lemma DoubleClaim(blocks: seq<Block>, k: nat, i: int)
    requires k < |blocks| && Within(i, blocks[k]) && i in AllLines(blocks[..k])
    ensures !Disjoint(blocks) && Twice(blocks, i)
  {
    AllLinesAreCovered(blocks[..k], i);
    CoveredAt(blocks[..k], i);
    DisjointMeans(blocks);
  }

  predicate InLines(remainder: seq<int>, n: nat) {
    forall k :: 0 <= k < |remainder| ==> 1 <= remainder[k] <= n
  }

  predicate AllHarmless(lines: seq<Line>, remainder: seq<int>, docstrings: bool)
    requires InLines(remainder, |lines|)
  {
    forall k :: 0 <= k < |remainder| ==> Harmless(lines[remainder[k] - 1], remainder[k], docstrings)
  }

  method FirstCode(lines: seq<Line>, remainder: seq<int>, docstrings: bool) returns (bad: Option<int>)
    requires InLines(remainder, |lines|)
    ensures bad.None? <==> AllHarmless(lines, remainder, docstrings)
    ensures bad.Some? ==> bad.value in remainder && !Harmless(lines[bad.value - 1], bad.value, docstrings)
  {
    for k := 0 to |remainder|
      invariant forall j :: 0 <= j < k ==> Harmless(lines[remainder[j] - 1], remainder[j], docstrings)
    {
      if !Harmless(lines[remainder[k] - 1], remainder[k], docstrings) { return Some(remainder[k]); }
    }
    return None;
  }

  // ------------------------------------------------------------- the line accounting

  ghost predicate NamesMatch(spans: seq<Span>, plan: Plan) {
    |spans| == plan.expected && Names(spans) == plan.owners.Keys
  }

  ghost predicate AllAbut(spans: seq<Span>, plan: Plan)
    requires Tabled(plan) && Names(spans) == plan.owners.Keys
  {
    forall k :: 0 <= k < |plan.extras| ==> Abuts(spans, plan.extras[k])
  }

  // No extra block is anchored back to front.
  predicate AnchorsInOrder(extras: seq<Extra>) {
    forall k :: 0 <= k < |extras| ==> extras[k].first <= extras[k].last + 1
  }

  // Lines left over are all the lines but the extracted ones, by the script's own sums.
  predicate Accounts(blocks: seq<Block>, remainder: seq<int>, n: nat) {
    |remainder| == n - Extent(blocks)
  }

  predicate Forward(bs: seq<Block>) {
    forall k :: 0 <= k < |bs| ==> bs[k].first <= bs[k].last + 1
  }

  lemma {:induction false} SizesAndExtent(bs: seq<Block>)
    ensures Sizes(bs) >= Extent(bs)
    ensures Sizes(bs) == Extent(bs) <==> Forward(bs)
  {
    if bs != [] {
      var front := bs[..|bs| - 1];
      SizesAndExtent(front);
      assert forall k :: 0 <= k < |front| ==> front[k] == bs[k];
    }
  }

  // Once the anchors check out, a claimed line is a line of the file.
  lemma ClaimedInFile(spans: seq<Span>, plan: Plan, n: nat)
    requires Parsed(spans, n) && Tabled(plan) && Names(spans) == plan.owners.Keys && AllAbut(spans, plan)
    ensures AllLines(Blocks(spans, plan)) <= Range(1, n)
    ensures AnchorsInOrder(plan.extras) ==> AllInFile(Blocks(spans, plan), n)
  {
    var bs := Blocks(spans, plan);
    forall k | 0 <= k < |bs| ensures 1 <= bs[k].first <= n + 1 && bs[k].last <= n
                             ensures AnchorsInOrder(plan.extras) ==> InFile(bs[k], n) {
      if k >= |spans| {
        var x := plan.extras[k - |spans|];
        assert Abuts(spans, x);
      }
    }
    forall i | i in AllLines(bs) ensures i in Range(1, n) {
      AllLinesAreCovered(bs, i);
      CoveredAt(bs, i);
    }
  }

  lemma AccountingOf(bs: seq<Block>, n: nat)
    requires Disjoint(bs) && AllLines(bs) <= Range(1, n)
    ensures Accounts(bs, Unclaimed(AllLines(bs), n), n) <==> Forward(bs)
  {
    UnclaimedSize(AllLines(bs), n);
    assert AllLines(bs) * Range(1, n) == AllLines(bs);
    DisjointSize(bs);
    SizesAndExtent(bs);
  }

  lemma ForwardMeans(spans: seq<Span>, plan: Plan, n: nat)
    requires Parsed(spans, n) && Names(spans) <= plan.owners.Keys
    ensures Forward(Blocks(spans, plan)) <==> AnchorsInOrder(plan.extras)
  {
    var bs := Blocks(spans, plan);
    forall k | 0 <= k < |plan.extras|
      ensures bs[|spans| + k] == Block(plan.extras[k].first, plan.extras[k].last, plan.extras[k].owner) {}
  }

  // Main result: after the earlier checks, the accounting check fails exactly when an extra
  // block is anchored back to front; a splitter without extra blocks never sees it fail.
  lemma AccountingExactly(spans: seq<Span>, plan: Plan, n: nat)
    requires Parsed(spans, n) && Tabled(plan) && Names(spans) == plan.owners.Keys && AllAbut(spans, plan)
    requires Disjoint(Blocks(spans, plan))
    ensures var bs := Blocks(spans, plan);
            Accounts(bs, Unclaimed(AllLines(bs), n), n) <==> AnchorsInOrder(plan.extras)
  {
    ClaimedInFile(spans, plan, n);
    AccountingOf(Blocks(spans, plan), n);
    ForwardMeans(spans, plan, n);
  }

  // ------------------------------------------------------------- the whole check

  // The split goes ahead exactly when this holds.
  ghost predicate Splittable(lines: seq<Line>, spans: seq<Span>, plan: Plan)
    requires Tabled(plan)
  {
    && NamesMatch(spans, plan) && AllAbut(spans, plan)
    && Disjoint(Blocks(spans, plan))
    && NoCodeLeft(lines, AllLines(Blocks(spans, plan)), plan.docstrings)
    && AnchorsInOrder(plan.extras)
  }

  // What each complaint says about the input.
  ghost predicate Justified(lines: seq<Line>, spans: seq<Span>, plan: Plan, why: Failure)
    requires Tabled(plan)
  {
    match why
    case NameCount => |spans| != plan.expected
    case NameMismatch => Names(spans) != plan.owners.Keys
    case ExtraStart(k) =>
      && k < |plan.extras| && Names(spans) == plan.owners.Keys
      && plan.extras[k].first != SpanNamed(spans, plan.extras[k].after).last + 1
    case ExtraEnd(k) =>
      && k < |plan.extras| && Names(spans) == plan.owners.Keys
      && plan.extras[k].last != SpanNamed(spans, plan.extras[k].before).first - 1
    case ClaimedTwice(i) =>
      Names(spans) == plan.owners.Keys && Twice(Blocks(spans, plan), i)
    case CodeInRemainder(i) =>
      && Names(spans) == plan.owners.Keys
      && 1 <= i <= |lines| && i !in AllLines(Blocks(spans, plan)) && !Harmless(lines[i - 1], i, plan.docstrings)
    case Accounting => !AnchorsInOrder(plan.extras)
  }

  method CheckAnchors(spans: seq<Span>, plan: Plan) returns (bad: Option<Failure>)
    requires Tabled(plan) && Names(spans) == plan.owners.Keys
    ensures bad.None? <==> AllAbut(spans, plan)
    ensures bad.Some? ==> (bad.value.ExtraStart? || bad.value.ExtraEnd?) && Justified([], spans, plan, bad.value)
  {
    for k := 0 to |plan.extras|
      invariant forall j :: 0 <= j < k ==> Abuts(spans, plan.extras[j])
    {
      var x := plan.extras[k];
      if x.first != SpanNamed(spans, x.after).last + 1 { return Some(ExtraStart(k)); }
      if x.last != SpanNamed(spans, x.before).first - 1 { return Some(ExtraEnd(k)); }
    }
    return None;
  }

  lemma {:induction false} UnclaimedHolds(claimed: set<int>, n: nat, i: int)
    requires 1 <= i <= n && i !in claimed
    ensures exists k :: 0 <= k < |Unclaimed(claimed, n)| && Unclaimed(claimed, n)[k] == i
  {
    var r := Unclaimed(claimed, n);
    if i == n {
      assert r[|r| - 1] == i;
    } else {
      UnclaimedHolds(claimed, n - 1, i);
      var k :| 0 <= k < |Unclaimed(claimed, n - 1)| && Unclaimed(claimed, n - 1)[k] == i;
      assert r[k] == i;
    }
  }

  lemma RemainderCode(lines: seq<Line>, claimed: set<int>, docstrings: bool)
    ensures NoCodeLeft(lines, claimed, docstrings) <==>
            AllHarmless(lines, Unclaimed(claimed, |lines|), docstrings)
  {
    if AllHarmless(lines, Unclaimed(claimed, |lines|), docstrings) {
      forall i | 1 <= i <= |lines| && i !in claimed ensures Harmless(lines[i - 1], i, docstrings) {
        UnclaimedHolds(claimed, |lines|, i);
      }
    }
  }

  // Step 3, over the named blocks followed by the extra ones.
  method VerifyBlocks(lines: seq<Line>, blocks: seq<Block>, docstrings: bool) returns (v: Verdict)
    ensures v.Passed? <==>
      Disjoint(blocks) && NoCodeLeft(lines, AllLines(blocks), docstrings) &&
      Accounts(blocks, Unclaimed(AllLines(blocks), |lines|), |lines|)
    ensures v.Passed? ==> v.remainder == Unclaimed(AllLines(blocks), |lines|)
    ensures v.Failed? ==> v.why.ClaimedTwice? || v.why.CodeInRemainder? || v.why.Accounting?
    ensures v.Failed? && v.why.ClaimedTwice? ==> Twice(blocks, v.why.line)
    ensures v.Failed? && v.why.CodeInRemainder? ==>
      var i := v.why.line;
      1 <= i <= |lines| && i !in AllLines(blocks) && !Harmless(lines[i - 1], i, docstrings)
    ensures v == Failed(Accounting) ==>
      Disjoint(blocks) && !Accounts(blocks, Unclaimed(AllLines(blocks), |lines|), |lines|)
  {
    var claimed, twice := ClaimLines(blocks);
    if twice.Some? { return Failed(ClaimedTwice(twice.value)); }
    var remainder := Unclaimed(claimed, |lines|);
    RemainderCode(lines, claimed, docstrings);
    var code := FirstCode(lines, remainder, docstrings);
    if code.Some? { return Failed(CodeInRemainder(code.value)); }
    if !Accounts(blocks, remainder, |lines|) { return Failed(Accounting); }
    return Passed(remainder);
  }

  lemma SplittableMeans(lines: seq<Line>, spans: seq<Span>, plan: Plan)
    requires Parsed(spans, |lines|) && Tabled(plan) && NamesMatch(spans, plan) && AllAbut(spans, plan)
    ensures var bs := Blocks(spans, plan);
            Splittable(lines, spans, plan) <==>
            Disjoint(bs) && NoCodeLeft(lines, AllLines(bs), plan.docstrings) &&
            Accounts(bs, Unclaimed(AllLines(bs), |lines|), |lines|)
    ensures var bs := Blocks(spans, plan);
            Disjoint(bs) && !Accounts(bs, Unclaimed(AllLines(bs), |lines|), |lines|) ==> !AnchorsInOrder(plan.extras)
  {
    var bs := Blocks(spans, plan);
    if Disjoint(bs) { AccountingExactly(spans, plan, |lines|); }
  }

  method Verify(lines: seq<Line>, spans: seq<Span>, plan: Plan) returns (v: Verdict)
    requires Parsed(spans, |lines|) && Tabled(plan)
    ensures v.Passed? <==> Splittable(lines, spans, plan)
    ensures v.Passed? ==> v.remainder == Unclaimed(AllLines(Blocks(spans, plan)), |lines|)
    ensures v.Failed? ==> Justified(lines, spans, plan, v.why)
  {
    if |spans| != plan.expected { return Failed(NameCount); }
    if Names(spans) != plan.owners.Keys { return Failed(NameMismatch); }
    var anchors := CheckAnchors(spans, plan);
    if anchors.Some? { return Failed(anchors.value); }
    SplittableMeans(lines, spans, plan);
    v := VerifyBlocks(lines, Blocks(spans, plan), plan.docstrings);
  }

  // ------------------------------------------------------------- a plan that fails there

  // The extra block is anchored behind the second span and before the first one.
  const TWO_LINES: seq<Line> := ["x = 1", "y = 2"]
  const TWO_SPANS: seq<Span> := [Span("x", 1, 1), Span("y", 2, 2)]
  const REVERSED: Plan :=
    Plan(2, map["x" := "m", "y" := "m"], [Extra("m", "y", "x", 3, 0)], true, ["m"], {}, (_: string) => [])

  lemma ReversedAnchors()
    ensures Parsed(TWO_SPANS, 2) && Tabled(REVERSED) && NamesMatch(TWO_SPANS, REVERSED)
    ensures AllAbut(TWO_SPANS, REVERSED)
    ensures Blocks(TWO_SPANS, REVERSED) == [Block(1, 1, "m"), Block(2, 2, "m"), Block(3, 0, "m")]
  {
    assert Names(TWO_SPANS) == {"x", "y"} by {
      assert TWO_SPANS[0].name == "x" && TWO_SPANS[1].name == "y";
    }
    assert TWO_SPANS[1..][0] == TWO_SPANS[1];
    assert SpanNamed(TWO_SPANS, "x") == TWO_SPANS[0] && SpanNamed(TWO_SPANS, "y") == TWO_SPANS[1];
  }

  lemma ReversedClaims()
    ensures var bs := [Block(1, 1, "m"), Block(2, 2, "m"), Block(3, 0, "m")];
            Disjoint(bs) && forall i :: 1 <= i <= 2 ==> i in AllLines(bs)
  {
    var bs := [Block(1, 1, "m"), Block(2, 2, "m"), Block(3, 0, "m")];
    DisjointMeans(bs);
    forall i | 1 <= i <= 2 ensures i in AllLines(bs) {
      CoveredAt(bs, i);
      assert Within(i, bs[i - 1]);
      AllLinesAreCovered(bs, i);
    }
  }

  // The accounting check is not idle: this plan passes everything before it and fails there,
  // and no other complaint would be justified.
  lemma BackToFrontPlan(why: Failure)
    ensures Parsed(TWO_SPANS, |TWO_LINES|) && Tabled(REVERSED) && !Splittable(TWO_LINES, TWO_SPANS, REVERSED)
    ensures NamesMatch(TWO_SPANS, REVERSED) && AllAbut(TWO_SPANS, REVERSED) && Disjoint(Blocks(TWO_SPANS, REVERSED))
    ensures NoCodeLeft(TWO_LINES, AllLines(Blocks(TWO_SPANS, REVERSED)), REVERSED.docstrings)
    ensures Justified(TWO_LINES, TWO_SPANS, REVERSED, why) <==> why == Accounting
  {
    ReversedAnchors();
    ReversedClaims();
    if why.ClaimedTwice? { NeverTwice(Blocks(TWO_SPANS, REVERSED), why.line); }
    assert !AnchorsInOrder(REVERSED.extras) by { assert REVERSED.extras[0].first == 3; }
    if why.ExtraStart? || why.ExtraEnd? {
      assert why.extra < 1 ==> Abuts(TWO_SPANS, REVERSED.extras[why.extra]);
    }
  }

  lemma NeverTwice(bs: seq<Block>, i: int)
    requires Disjoint(bs)
    ensures !Twice(bs, i)
  {
    DisjointMeans(bs);
    forall k | 0 <= k < |bs| && Within(i, bs[k]) ensures !Covered(bs[..k], i) {
      CoveredAt(bs[..k], i);
    }
  }
}
