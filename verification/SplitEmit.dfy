/**
 Writing the modules (scripts/split_server.py, step 5; scripts/split_autopilot_api.py,
 step 4) and reading them back: each module gets its own lines in file order, and the
 modules with the remainder give the original file again.
 */
module SplitEmit {
  import opened LineBlocks
  import opened Wrappers
  import opened SplitVerify

  // ------------------------------------------------------------- the decorator rewrite

  // A route decorator at column 0 moves from the application to the module's router.
  function Rewrite(l: Line, routed: bool): Line {
    if routed && "@app." <= l then "@router." + l[5..] else l
  }

  function Undo(l: Line, routed: bool): Line {
    if routed && "@router." <= l then "@app." + l[8..] else l
  }

  // The rewrite can be undone exactly on lines that were not router decorators already.
  lemma UndoIff(l: Line, routed: bool)
    ensures Undo(Rewrite(l, routed), routed) == l <==> !(routed && "@router." <= l)
  {
    if routed && "@app." <= l {
      var r := Rewrite(l, routed);
      assert r[..8] == "@router." && r[8..] == l[5..];
      assert l == "@app." + l[5..];
      assert l[1] == 'a';
    } else if routed && "@router." <= l {
      assert Undo(l, routed)[1] == 'a';
      assert l[1] == 'r';
    }
  }

  // ------------------------------------------------------------- emission

  function Mapped(ls: seq<Line>, routed: bool): (r: seq<Line>)
    ensures |r| == |ls| && forall k :: 0 <= k < |r| ==> r[k] == Rewrite(ls[k], routed)
  {
    seq(|ls|, k requires 0 <= k < |ls| => Rewrite(ls[k], routed))
  }

  function Text(lines: seq<Line>, b: Block, routed: bool): seq<Line>
    requires InFile(b, |lines|)
  {
    Mapped(lines[b.first - 1..b.last], routed)
  }

  // Every block, with a blank line after it.
  function Emit(lines: seq<Line>, bs: seq<Block>, routed: bool): seq<Line>
    requires AllInFile(bs, |lines|)
  {
    if bs == [] then []
    else Emit(lines, bs[..|bs| - 1], routed) + Text(lines, bs[|bs| - 1], routed) + [""]
  }

  function Trim(ls: seq<Line>): seq<Line> {
    if ls != [] && ls[|ls| - 1] == "" then Trim(ls[..|ls| - 1]) else ls
  }

  function OwnedBy(bs: seq<Block>, mod: string): seq<Block> {
    if bs == [] then []
    else if bs[|bs| - 1].owner == mod then OwnedBy(bs[..|bs| - 1], mod) + [bs[|bs| - 1]]
    else OwnedBy(bs[..|bs| - 1], mod)
  }

  function ItemsOf(bs: seq<Block>, mod: string): seq<Block> { SortByFirst(OwnedBy(bs, mod)) }

  function ModuleText(lines: seq<Line>, bs: seq<Block>, mod: string, header: seq<Line>, routed: bool): seq<Line>
    requires AllInFile(ItemsOf(bs, mod), |lines|)
  {
    Trim(header + Emit(lines, ItemsOf(bs, mod), routed))
  }

  method BuildModule(lines: seq<Line>, bs: seq<Block>, mod: string, header: seq<Line>, routed: bool)
    returns (out: seq<Line>)
    requires AllInFile(bs, |lines|)
    ensures AllInFile(ItemsOf(bs, mod), |lines|) && out == ModuleText(lines, bs, mod, header, routed)
  {
    ItemsInFile(bs, mod, |lines|);
    var items := [];
    for k := 0 to |bs|
      invariant items == OwnedBy(bs[..k], mod)
    {
      assert bs[..k + 1][..k] == bs[..k];
      if bs[k].owner == mod { items := items + [bs[k]]; }
    }
    assert bs[..|bs|] == bs;
    items := SortByFirst(items);
    out := WriteItems(lines, items, header, routed);
    out := PopBlanks(out);
  }

  method WriteItems(lines: seq<Line>, items: seq<Block>, header: seq<Line>, routed: bool) returns (out: seq<Line>)
    requires AllInFile(items, |lines|)
    ensures out == header + Emit(lines, items, routed)
  {
    out := header;
    for k := 0 to |items|
      invariant out == header + Emit(lines, items[..k], routed)
    {
      assert items[..k + 1][..k] == items[..k];
      ghost var before, t := Emit(lines, items[..k], routed), Text(lines, items[k], routed);
      assert header + before + t + [""] == header + (before + t + [""]);
      out := out + Text(lines, items[k], routed) + [""];
    }
    assert items[..|items|] == items;
  }

  method PopBlanks(ls: seq<Line>) returns (out: seq<Line>)
    ensures out == Trim(ls)
  {
    out := ls;
    while out != [] && out[|out| - 1] == ""
      invariant Trim(out) == Trim(ls)
      decreases |out|
    {
      out := out[..|out| - 1];
    }
  }

  lemma {:induction false} OwnedInFile(bs: seq<Block>, mod: string, n: nat)
    requires AllInFile(bs, n)
    ensures AllInFile(OwnedBy(bs, mod), n)
  {
    if bs != [] { OwnedInFile(bs[..|bs| - 1], mod, n); }
  }

  lemma ItemsInFile(bs: seq<Block>, mod: string, n: nat)
    requires AllInFile(bs, n)
    ensures AllInFile(ItemsOf(bs, mod), n)
  {
    OwnedInFile(bs, mod, n);
    SortInFile(OwnedBy(bs, mod), n);
  }

  // ------------------------------------------------------------- one module per line

  function OwnerOf(bs: seq<Block>, i: int): string
    requires Covered(bs, i)
  {
    if Within(i, bs[|bs| - 1]) then bs[|bs| - 1].owner else OwnerOf(bs[..|bs| - 1], i)
  }

  lemma {:induction false} OwnedApart(bs: seq<Block>, mod: string, b: Block)
    requires AllApart(bs, b)
    ensures AllApart(OwnedBy(bs, mod), b)
  {
    if bs != [] {
      OwnedApart(bs[..|bs| - 1], mod, b);
      Snoc(OwnedBy(bs[..|bs| - 1], mod), bs[|bs| - 1], 0, b);
    }
  }

  lemma {:induction false} OwnedDisjoint(bs: seq<Block>, mod: string)
    requires Disjoint(bs)
    ensures Disjoint(OwnedBy(bs, mod))
  {
    if bs != [] {
      var front, b := bs[..|bs| - 1], bs[|bs| - 1];
      OwnedDisjoint(front, mod);
      OwnedApart(front, mod, b);
      Snoc(OwnedBy(front, mod), b, 0, b);
    }
  }

  lemma {:induction false} OwnedCovers(bs: seq<Block>, mod: string, i: int)
    requires Disjoint(bs)
    ensures Covered(OwnedBy(bs, mod), i) <==> Covered(bs, i) && OwnerOf(bs, i) == mod
  {
    if bs != [] {
      var front, b := bs[..|bs| - 1], bs[|bs| - 1];
      OwnedCovers(front, mod, i);
      Snoc(OwnedBy(front, mod), b, i, b);
      if Within(i, b) { ApartMeans(front, b, i); }
    }
  }

  // A claimed line is written by its owner and by no other module.
  lemma OneModule(bs: seq<Block>, mod: string, i: int)
    requires Disjoint(bs)
    ensures Covered(ItemsOf(bs, mod), i) <==> Covered(bs, i) && OwnerOf(bs, i) == mod
  {
    OwnedCovers(bs, mod, i);
    SortKeeps(OwnedBy(bs, mod), i, Block(0, 0, ""));
  }

  lemma ItemsDisjoint(bs: seq<Block>, mod: string)
    requires Disjoint(bs)
    ensures Disjoint(ItemsOf(bs, mod)) && Ascending(ItemsOf(bs, mod))
  {
    OwnedDisjoint(bs, mod);
    SortDisjoint(OwnedBy(bs, mod));
  }

  // ------------------------------------------------------------- original order

  function NonBlank(ls: seq<Line>): seq<Line> {
    if ls == [] then []
    else if ls[|ls| - 1] == "" then NonBlank(ls[..|ls| - 1])
    else NonBlank(ls[..|ls| - 1]) + [ls[|ls| - 1]]
  }

  // The first n lines of the file that these blocks cover, rewritten, in file order.
  function Select(lines: seq<Line>, bs: seq<Block>, routed: bool, n: nat): seq<Line>
    requires n <= |lines|
  {
    if n == 0 then []
    else if Covered(bs, n) then Select(lines, bs, routed, n - 1) + [Rewrite(lines[n - 1], routed)]
    else Select(lines, bs, routed, n - 1)
  }

  lemma {:induction false} NonBlankConcat(a: seq<Line>, b: seq<Line>)
    ensures NonBlank(a + b) == NonBlank(a) + NonBlank(b)
  {
    if b == [] {
      assert a + b == a;
    } else {
      var front, x := b[..|b| - 1], b[|b| - 1];
      NonBlankConcat(a, front);
      assert (a + b)[..|a + b| - 1] == a + front && (a + b)[|a + b| - 1] == x;
      assert NonBlank(a) + (NonBlank(front) + [x]) == NonBlank(a) + NonBlank(front) + [x];
    }
  }

  lemma {:induction false} NonBlankTrim(ls: seq<Line>)
    ensures NonBlank(Trim(ls)) == NonBlank(ls)
  {
    if ls != [] && ls[|ls| - 1] == "" { NonBlankTrim(ls[..|ls| - 1]); }
  }

  lemma {:induction false} SelectSame(lines: seq<Line>, a: seq<Block>, b: seq<Block>, routed: bool, n: nat)
    requires n <= |lines|
    requires forall i :: 1 <= i <= n ==> (Covered(a, i) <==> Covered(b, i))
    ensures Select(lines, a, routed, n) == Select(lines, b, routed, n)
  {
    if n > 0 { SelectSame(lines, a, b, routed, n - 1); }
  }

  lemma {:induction false} SelectNothing(lines: seq<Line>, bs: seq<Block>, routed: bool, m: nat, n: nat)
    requires m <= n <= |lines|
    requires forall i :: m < i <= n ==> !Covered(bs, i)
    ensures Select(lines, bs, routed, n) == Select(lines, bs, routed, m)
    decreases n
  {
    if m < n { SelectNothing(lines, bs, routed, m, n - 1); }
  }

  lemma {:induction false} SelectThrough(lines: seq<Line>, bs: seq<Block>, b: Block, routed: bool, n: nat)
    requires InFile(b, |lines|) && b.first - 1 <= n <= b.last
    requires forall i :: Within(i, b) ==> Covered(bs, i)
    ensures Select(lines, bs, routed, n) ==
            Select(lines, bs, routed, b.first - 1) + Text(lines, b, routed)[..n - b.first + 1]
    decreases n
  {
    var t := Text(lines, b, routed);
    if n == b.first - 1 {
      assert t[..0] == [];
    } else {
      SelectThrough(lines, bs, b, routed, n - 1);
      assert Within(n, b);
      assert t[..n - b.first + 1] == t[..n - b.first] + [Rewrite(lines[n - 1], routed)];
    }
  }

  // Adding a block after all the others adds its lines at the end of the selection.
  lemma SelectSnoc(lines: seq<Line>, bs: seq<Block>, b: Block, routed: bool)
    requires InFile(b, |lines|) && AllApart(bs, b)
    requires forall k :: 0 <= k < |bs| ==> bs[k].first <= b.first
    ensures Select(lines, bs + [b], routed, |lines|) == Select(lines, bs, routed, |lines|) + Text(lines, b, routed)
  {
    forall i ensures Covered(bs + [b], i) <==> Covered(bs, i) || Within(i, b) { Snoc(bs, b, i, b); }
    if b.first > b.last {
      SelectSame(lines, bs, bs + [b], routed, |lines|);
    } else {
      forall i | Covered(bs, i) ensures i < b.first { CoveredBeforeLast(bs, b, i); }
      SelectLast(lines, bs, bs + [b], b, routed);
    }
  }

  lemma SelectLast(lines: seq<Line>, bs: seq<Block>, all: seq<Block>, b: Block, routed: bool)
    requires InFile(b, |lines|) && b.first <= b.last
    requires forall i :: Covered(all, i) <==> Covered(bs, i) || Within(i, b)
    requires forall i :: Covered(bs, i) ==> i < b.first
    ensures Select(lines, all, routed, |lines|) == Select(lines, bs, routed, |lines|) + Text(lines, b, routed)
  {
    SelectNothing(lines, bs, routed, b.first - 1, |lines|);
    SelectNothing(lines, all, routed, b.last, |lines|);
    SelectSame(lines, bs, all, routed, b.first - 1);
    SelectThrough(lines, all, b, routed, b.last);
    var t := Text(lines, b, routed);
    assert t[..b.last - b.first + 1] == t;
  }

  lemma {:induction false} EmitInOrder(lines: seq<Line>, bs: seq<Block>, routed: bool)
    requires AllInFile(bs, |lines|) && Ascending(bs) && Disjoint(bs)
    ensures NonBlank(Emit(lines, bs, routed)) == NonBlank(Select(lines, bs, routed, |lines|))
  {
    if bs == [] {
      SelectNothing(lines, bs, routed, 0, |lines|);
    } else {
      var front, b := bs[..|bs| - 1], bs[|bs| - 1];
      EmitInOrder(lines, front, routed);
      SelectSnoc(lines, front, b, routed);
      assert front + [b] == bs;
      NonBlankConcat(Select(lines, front, routed, |lines|), Text(lines, b, routed));
      EmitSnoc(lines, front, b, routed);
    }
  }

  lemma EmitSnoc(lines: seq<Line>, front: seq<Block>, b: Block, routed: bool)
    requires AllInFile(front + [b], |lines|) && AllInFile(front, |lines|) && InFile(b, |lines|)
    ensures NonBlank(Emit(lines, front + [b], routed)) ==
            NonBlank(Emit(lines, front, routed)) + NonBlank(Text(lines, b, routed))
  {
    var bs := front + [b];
    assert bs[..|bs| - 1] == front;
    var all := Emit(lines, bs, routed);
    assert all[..|all| - 1] == Emit(lines, front, routed) + Text(lines, b, routed);
    NonBlankConcat(Emit(lines, front, routed), Text(lines, b, routed));
  }

  // Main result: below its header a module holds exactly the non-blank lines it claimed,
  // rewritten, each once and in the order of the original file.
  lemma ModuleHoldsItsLines(lines: seq<Line>, bs: seq<Block>, mod: string, header: seq<Line>, routed: bool)
    requires AllInFile(bs, |lines|) && Disjoint(bs)
    ensures AllInFile(ItemsOf(bs, mod), |lines|)
    ensures NonBlank(ModuleText(lines, bs, mod, header, routed)) ==
            NonBlank(header) + NonBlank(Select(lines, ItemsOf(bs, mod), routed, |lines|))
  {
    var items := ItemsOf(bs, mod);
    ItemsInFile(bs, mod, |lines|);
    ItemsDisjoint(bs, mod);
    EmitInOrder(lines, items, routed);
    NonBlankTrim(header + Emit(lines, items, routed));
    NonBlankConcat(header, Emit(lines, items, routed));
  }

  // ------------------------------------------------------------- reading the modules back

  // Trailing blank lines were popped, so a position past the end reads as blank.
  function At(ls: seq<Line>, p: nat): Line { if p < |ls| then ls[p] else "" }

  function Offset(bs: seq<Block>): nat {
    if bs == [] then 0 else Offset(bs[..|bs| - 1]) + Size(bs[|bs| - 1]) + 1
  }

  // Line i of the original file as found in a module's text, whose blocks start at `skip`.
  function LineIn(text: seq<Line>, skip: nat, bs: seq<Block>, i: int): Option<Line> {
    if bs == [] then None
    else
      var front, b := bs[..|bs| - 1], bs[|bs| - 1];
      if Within(i, b) then Some(At(text, skip + Offset(front) + (i - b.first))) else LineIn(text, skip, front, i)
  }

  lemma {:induction false} TrimReads(ls: seq<Line>, p: nat)
    ensures At(Trim(ls), p) == At(ls, p)
  {
    if ls != [] && ls[|ls| - 1] == "" { TrimReads(ls[..|ls| - 1], p); }
  }

  lemma {:induction false} EmitLength(lines: seq<Line>, bs: seq<Block>, routed: bool)
    requires AllInFile(bs, |lines|)
    ensures |Emit(lines, bs, routed)| == Offset(bs)
  {
    if bs != [] { EmitLength(lines, bs[..|bs| - 1], routed); }
  }

  ghost predicate Reads(text: seq<Line>, skip: nat, body: seq<Line>) {
    forall p :: 0 <= p < |body| ==> At(text, skip + p) == body[p]
  }

  lemma EmitReads(lines: seq<Line>, bs: seq<Block>, routed: bool, text: seq<Line>, skip: nat)
    requires bs != [] && AllInFile(bs, |lines|) && Reads(text, skip, Emit(lines, bs, routed))
    ensures var front, b := bs[..|bs| - 1], bs[|bs| - 1];
            Reads(text, skip, Emit(lines, front, routed)) &&
            Reads(text, skip + Offset(front), Text(lines, b, routed))
  {
    var before, t := Emit(lines, bs[..|bs| - 1], routed), Text(lines, bs[|bs| - 1], routed);
    var body := Emit(lines, bs, routed);
    EmitLength(lines, bs[..|bs| - 1], routed);
    assert body == before + t + [""];
    forall p | 0 <= p < |before| ensures At(text, skip + p) == before[p] {
      assert body[p] == before[p];
    }
    forall p | 0 <= p < |t| ensures At(text, skip + |before| + p) == t[p] {
      assert body[|before| + p] == t[p];
    }
  }

  lemma {:induction false} LineInEmit(lines: seq<Line>, bs: seq<Block>, routed: bool, text: seq<Line>, skip: nat, i: int)
    requires AllInFile(bs, |lines|) && Reads(text, skip, Emit(lines, bs, routed))
    ensures LineIn(text, skip, bs, i) ==
            if Covered(bs, i) && 1 <= i <= |lines| then Some(Rewrite(lines[i - 1], routed)) else None
  {
    if bs != [] {
      var front, b := bs[..|bs| - 1], bs[|bs| - 1];
      EmitReads(lines, bs, routed, text, skip);
      if Within(i, b) {
        assert Text(lines, b, routed)[i - b.first] == Rewrite(lines[i - 1], routed);
      } else {
        LineInEmit(lines, front, routed, text, skip, i);
      }
    }
  }

  lemma TrimmedReads(header: seq<Line>, body: seq<Line>)
    ensures Reads(Trim(header + body), |header|, body)
  {
    forall p | 0 <= p < |body| ensures At(Trim(header + body), |header| + p) == body[p] {
      TrimReads(header + body, |header| + p);
    }
  }

  // ------------------------------------------------------------- rebuilding the file

  // What the split leaves of one module: where its blocks came from, and its text.
  datatype Module = Module(items: seq<Block>, routed: bool, header: seq<Line>, text: seq<Line>)

  function ModuleFor(lines: seq<Line>, bs: seq<Block>, plan: Plan, mod: string): Module
    requires AllInFile(bs, |lines|)
  {
    ItemsInFile(bs, mod, |lines|);
    Module(ItemsOf(bs, mod), mod in plan.routed, plan.header(mod),
           ModuleText(lines, bs, mod, plan.header(mod), mod in plan.routed))
  }

  function ModulesOf(lines: seq<Line>, bs: seq<Block>, plan: Plan, names: seq<string>): seq<Module>
    requires AllInFile(bs, |lines|)
  {
    if names == [] then []
    else ModulesOf(lines, bs, plan, names[..|names| - 1]) + [ModuleFor(lines, bs, plan, names[|names| - 1])]
  }

  // The merge: a line is taken from the module whose blocks hold it, else from the remainder.
  function MergedLine(mods: seq<Module>, rest: map<int, Line>, i: int): Option<Line> {
    if mods == [] then (if i in rest then Some(rest[i]) else None)
    else
      var m := mods[|mods| - 1];
      match LineIn(m.text, |m.header|, m.items, i)
      case Some(l) => Some(Undo(l, m.routed))
      case None => MergedLine(mods[..|mods| - 1], rest, i)
  }

  function RestOf(lines: seq<Line>, remainder: seq<int>): map<int, Line>
    requires InLines(remainder, |lines|)
  {
    map i | i in remainder :: lines[i - 1]
  }

  // A module's text holds, where its blocks say, the lines it owns and nothing else.
  lemma ModuleLine(lines: seq<Line>, bs: seq<Block>, plan: Plan, mod: string, i: int)
    requires AllInFile(bs, |lines|) && Disjoint(bs) && 1 <= i <= |lines|
    ensures var m := ModuleFor(lines, bs, plan, mod);
            LineIn(m.text, |m.header|, m.items, i) ==
            if OwnerAt(bs, i) == Some(mod) then Some(Rewrite(lines[i - 1], m.routed)) else None
  {
    var m := ModuleFor(lines, bs, plan, mod);
    ItemsInFile(bs, mod, |lines|);
    TrimmedReads(m.header, Emit(lines, m.items, m.routed));
    LineInEmit(lines, m.items, m.routed, m.text, |m.header|, i);
    OneModule(bs, mod, i);
  }

  lemma RewriteMeans(l: Line, x: string, routed: bool)
    ensures routed && l == "@app." + x ==> Rewrite(l, routed) == "@router." + x
    ensures routed ==> !("@app." <= Rewrite(l, routed))
    ensures !routed || !("@app." <= l) ==> Rewrite(l, routed) == l
  {
    var r := Rewrite(l, routed);
    if routed && "@app." <= l {
      assert r[1] == 'r';
      if l == "@app." + x { assert l[5..] == x; }
    }
  }

  // Main result: in a module with a router a claimed decorator `@app.` stands as `@router.`
  // and every other claimed line verbatim; in a module without one all of them do.
  lemma DecoratorsMoved(lines: seq<Line>, bs: seq<Block>, plan: Plan, mod: string, i: int, x: string)
    requires AllInFile(bs, |lines|) && Disjoint(bs) && 1 <= i <= |lines| && OwnerAt(bs, i) == Some(mod)
    ensures var m, l := ModuleFor(lines, bs, plan, mod), lines[i - 1];
            var found := LineIn(m.text, |m.header|, m.items, i);
            && (mod in plan.routed && l == "@app." + x ==> found == Some("@router." + x))
            && (mod !in plan.routed || !("@app." <= l) ==> found == Some(l))
  {
    ModuleLine(lines, bs, plan, mod, i);
    RewriteMeans(lines[i - 1], x, mod in plan.routed);
  }

  lemma {:induction false} EmitHasNoApp(lines: seq<Line>, bs: seq<Block>)
    requires AllInFile(bs, |lines|)
    ensures forall p :: 0 <= p < |Emit(lines, bs, true)| ==> !("@app." <= Emit(lines, bs, true)[p])
  {
    if bs != [] {
      EmitHasNoApp(lines, bs[..|bs| - 1]);
      var t := Text(lines, bs[|bs| - 1], true);
      forall p | 0 <= p < |t| ensures !("@app." <= t[p]) {
        var b := bs[|bs| - 1];
        RewriteMeans(lines[b.first - 1..b.last][p], "", true);
      }
    }
  }

  lemma {:induction false} TrimIsPrefix(ls: seq<Line>)
    ensures Trim(ls) <= ls
  {
    if ls != [] { TrimIsPrefix(ls[..|ls| - 1]); }
  }

  // No `@app.` is left at the start of a line below the header of a module with a router.
  lemma NoAppLeft(lines: seq<Line>, bs: seq<Block>, mod: string, header: seq<Line>)
    requires AllInFile(bs, |lines|)
    ensures AllInFile(ItemsOf(bs, mod), |lines|)
    ensures var text := ModuleText(lines, bs, mod, header, true);
            forall p :: |header| <= p < |text| ==> !("@app." <= text[p])
  {
    ItemsInFile(bs, mod, |lines|);
    var body := Emit(lines, ItemsOf(bs, mod), true);
    EmitHasNoApp(lines, ItemsOf(bs, mod));
    TrimIsPrefix(header + body);
    var text := ModuleText(lines, bs, mod, header, true);
    forall p | |header| <= p < |text| ensures !("@app." <= text[p]) {
      assert text[p] == (header + body)[p] == body[p - |header|];
    }
  }

  lemma TextVerbatim(lines: seq<Line>, b: Block)
    requires InFile(b, |lines|)
    ensures Text(lines, b, false) == lines[b.first - 1..b.last]
  {}

  lemma OwnedOfThree(x: Block, y: Block, z: Block, mod: string)
    requires x.owner == y.owner == mod && z.owner != mod
    ensures OwnedBy([y, z, x], mod) == [y, x]
  {
    assert [y, z, x][..2] == [y, z] && [y, z][..1] == [y] && [y][..0] == [];
    assert OwnedBy([y], mod) == [y];
    assert OwnedBy([y, z], mod) == [y];
  }

  lemma InsertedFirst(x: Block, y: Block)
    requires x.first < y.first
    ensures Insert(x, [y]) == [x, y]
  {
    assert [y][..0] == [];
    assert Insert(x, []) == [x];
  }

  lemma TwoSorted(x: Block, y: Block)
    requires x.first < y.first
    ensures SortByFirst([y, x]) == [x, y]
  {
    var bs := [y, x];
    assert bs[..|bs| - 1] == [y];
    SortedAlone(y);
    InsertedFirst(x, y);
    assert SortByFirst(bs) == Insert(x, SortByFirst([y]));
  }

  lemma EmitTwo(lines: seq<Line>, x: Block, y: Block)
    requires InFile(x, |lines|) && InFile(y, |lines|)
    ensures AllInFile([x, y], |lines|)
    ensures Emit(lines, [x, y], false) ==
            (lines[x.first - 1..x.last] + [""] + lines[y.first - 1..y.last]) + [""]
  {
    var tx, ty := lines[x.first - 1..x.last], lines[y.first - 1..y.last];
    TextVerbatim(lines, x);
    TextVerbatim(lines, y);
    assert [x, y][..1] == [x] && [x][..0] == [];
    assert Emit(lines, [x], false) == [] + tx + [""];
    assert Emit(lines, [x, y], false) == Emit(lines, [x], false) + ty + [""];
    assert [] + tx == tx;
  }

  lemma TrimOne(header: seq<Line>, body: seq<Line>)
    requires body != [] && body[|body| - 1] != ""
    ensures Trim(header + (body + [""])) == header + body
  {
    var all := header + (body + [""]);
    assert all[..|all| - 1] == header + body;
    assert (header + body)[|header + body| - 1] == body[|body| - 1];
  }

  lemma LastLine(before: seq<Line>, lines: seq<Line>, y: Block)
    requires InFile(y, |lines|) && y.first <= y.last
    ensures var body := before + lines[y.first - 1..y.last];
            body != [] && body[|body| - 1] == lines[y.last - 1]
  {}

  // The layout, for two blocks found in reverse order with another module's between them:
  // file order, one blank line between blocks, none at the end.
  lemma Layout(lines: seq<Line>, x: Block, y: Block, z: Block, mod: string, header: seq<Line>)
    requires InFile(x, |lines|) && InFile(y, |lines|)
    requires x.first < y.first <= y.last && lines[y.last - 1] != ""
    requires x.owner == y.owner == mod && z.owner != mod
    ensures AllInFile(ItemsOf([y, z, x], mod), |lines|)
    ensures ModuleText(lines, [y, z, x], mod, header, false) ==
            header + (lines[x.first - 1..x.last] + [""] + lines[y.first - 1..y.last])
  {
    assert ItemsOf([y, z, x], mod) == [x, y] by {
      OwnedOfThree(x, y, z, mod);
      TwoSorted(x, y);
    }
    EmitTwo(lines, x, y);
    LastLine(lines[x.first - 1..x.last] + [""], lines, y);
    TrimOne(header, lines[x.first - 1..x.last] + [""] + lines[y.first - 1..y.last]);
  }

  function OwnerAt(bs: seq<Block>, i: int): Option<string> {
    if Covered(bs, i) then Some(OwnerOf(bs, i)) else None
  }

  lemma MergedSnoc(mods: seq<Module>, m: Module, rest: map<int, Line>, i: int)
    ensures MergedLine(mods + [m], rest, i) ==
            match LineIn(m.text, |m.header|, m.items, i)
            case Some(l) => Some(Undo(l, m.routed))
            case None => MergedLine(mods, rest, i)
  {
    assert (mods + [m])[..|mods|] == mods;
  }

  lemma {:induction false} MergedFrom(lines: seq<Line>, bs: seq<Block>, plan: Plan, rest: map<int, Line>,
                                      names: seq<string>, i: int)
    requires AllInFile(bs, |lines|) && Disjoint(bs) && 1 <= i <= |lines|
    ensures MergedLine(ModulesOf(lines, bs, plan, names), rest, i) ==
            match OwnerAt(bs, i)
            case Some(mod) =>
              if Listed(names, mod) then Some(Undo(Rewrite(lines[i - 1], mod in plan.routed), mod in plan.routed))
              else MergedLine([], rest, i)
            case None => MergedLine([], rest, i)
  {
    if names != [] {
      var front, mod := names[..|names| - 1], names[|names| - 1];
      MergedFrom(lines, bs, plan, rest, front, i);
      ModuleLine(lines, bs, plan, mod, i);
      MergedSnoc(ModulesOf(lines, bs, plan, front), ModuleFor(lines, bs, plan, mod), rest, i);
    }
  }

  // A router decorator that was swept into a routed module.
  predicate Lost(lines: seq<Line>, bs: seq<Block>, plan: Plan, i: int)
    requires 1 <= i <= |lines|
  {
    Covered(bs, i) && OwnerOf(bs, i) in plan.routed && "@router." <= lines[i - 1]
  }

  // No line moved into a routed module was a router decorator to begin with.
  ghost predicate NoRouterLines(lines: seq<Line>, bs: seq<Block>, plan: Plan) {
    forall i :: 1 <= i <= |lines| ==> !Lost(lines, bs, plan, i)
  }

  ghost predicate Rebuilds(lines: seq<Line>, mods: seq<Module>, rest: map<int, Line>) {
    forall i :: 1 <= i <= |lines| ==> MergedLine(mods, rest, i) == Some(lines[i - 1])
  }

  lemma {:induction false} BlocksHaveModules(spans: seq<Span>, plan: Plan, i: int)
    requires Tabled(plan) && Names(spans) <= plan.owners.Keys && Covered(Blocks(spans, plan), i)
    ensures Listed(plan.modules, OwnerOf(Blocks(spans, plan), i))
  {
    var bs := Blocks(spans, plan);
    OwnerIsSome(bs, i);
    var k :| 0 <= k < |bs| && bs[k].owner == OwnerOf(bs, i);
    if k < |spans| {
      assert spans[k].name in Names(spans);
    }
  }

  lemma {:induction false} OwnerIsSome(bs: seq<Block>, i: int)
    requires Covered(bs, i)
    ensures exists k :: 0 <= k < |bs| && bs[k].owner == OwnerOf(bs, i)
  {
    if !Within(i, bs[|bs| - 1]) {
      var front := bs[..|bs| - 1];
      OwnerIsSome(front, i);
      var k :| 0 <= k < |front| && front[k].owner == OwnerOf(front, i);
      assert bs[k].owner == OwnerOf(bs, i);
    }
  }

  function Modules(lines: seq<Line>, bs: seq<Block>, plan: Plan): seq<Module>
    requires AllInFile(bs, |lines|)
  {
    ModulesOf(lines, bs, plan, plan.modules)
  }

  function LeftOver(lines: seq<Line>, bs: seq<Block>): map<int, Line> {
    RestOf(lines, Unclaimed(AllLines(bs), |lines|))
  }

  lemma RestHolds(lines: seq<Line>, bs: seq<Block>, i: int)
    requires 1 <= i <= |lines| && !Covered(bs, i)
    ensures MergedLine([], LeftOver(lines, bs), i) == Some(lines[i - 1])
  {
    AllLinesAreCovered(bs, i);
    UnclaimedHolds(AllLines(bs), |lines|, i);
  }

  lemma LineRoundTrip(lines: seq<Line>, bs: seq<Block>, plan: Plan, i: int)
    requires AllInFile(bs, |lines|) && Disjoint(bs) && 1 <= i <= |lines|
    requires Covered(bs, i) ==> Listed(plan.modules, OwnerOf(bs, i))
    ensures MergedLine(Modules(lines, bs, plan), LeftOver(lines, bs), i) == Some(lines[i - 1]) <==>
            !Lost(lines, bs, plan, i)
  {
    MergedFrom(lines, bs, plan, LeftOver(lines, bs), plan.modules, i);
    if Covered(bs, i) {
      UndoIff(lines[i - 1], OwnerOf(bs, i) in plan.routed);
    } else {
      RestHolds(lines, bs, i);
    }
  }

  // Main result: when the verification passes, the modules and the remainder together give
  // the original file back, line by line, exactly when no routed module took in a line that
  // already was a router decorator.
  lemma SplitRoundTrip(lines: seq<Line>, spans: seq<Span>, plan: Plan)
    requires Parsed(spans, |lines|) && Tabled(plan) && Splittable(lines, spans, plan)
    ensures AllInFile(Blocks(spans, plan), |lines|)
    ensures var bs := Blocks(spans, plan);
            Rebuilds(lines, Modules(lines, bs, plan), LeftOver(lines, bs)) <==> NoRouterLines(lines, bs, plan)
  {
    ClaimedInFile(spans, plan, |lines|);
    var bs := Blocks(spans, plan);
    forall i | 1 <= i <= |lines|
      ensures MergedLine(Modules(lines, bs, plan), LeftOver(lines, bs), i) == Some(lines[i - 1]) <==>
              !Lost(lines, bs, plan, i)
    {
      if Covered(bs, i) { BlocksHaveModules(spans, plan, i); }
      LineRoundTrip(lines, bs, plan, i);
    }
  }

  // Verification, then one text per module.
  method Split(lines: seq<Line>, spans: seq<Span>, plan: Plan) returns (v: Verdict, texts: seq<seq<Line>>)
    requires Parsed(spans, |lines|) && Tabled(plan)
    ensures v.Passed? <==> Splittable(lines, spans, plan)
    ensures v.Passed? ==> v.remainder == Unclaimed(AllLines(Blocks(spans, plan)), |lines|)
    ensures v.Failed? ==> Justified(lines, spans, plan, v.why) && texts == []
    ensures v.Passed? ==> AllInFile(Blocks(spans, plan), |lines|) && |texts| == |plan.modules|
    ensures v.Passed? ==>
      forall k :: 0 <= k < |texts| ==> texts[k] == ModuleFor(lines, Blocks(spans, plan), plan, plan.modules[k]).text
  {
    v := Verify(lines, spans, plan);
    texts := [];
    if v.Passed? {
      ClaimedInFile(spans, plan, |lines|);
      texts := BuildAll(lines, Blocks(spans, plan), plan);
    }
  }

  method BuildAll(lines: seq<Line>, bs: seq<Block>, plan: Plan) returns (texts: seq<seq<Line>>)
    requires AllInFile(bs, |lines|)
    ensures |texts| == |plan.modules|
    ensures forall k :: 0 <= k < |texts| ==> texts[k] == ModuleFor(lines, bs, plan, plan.modules[k]).text
  {
    texts := [];
    for k := 0 to |plan.modules|
      invariant |texts| == k
      invariant forall j :: 0 <= j < k ==> texts[j] == ModuleFor(lines, bs, plan, plan.modules[j]).text
    {
      var mod := plan.modules[k];
      var out := BuildModule(lines, bs, mod, plan.header(mod), mod in plan.routed);
      texts := texts + [out];
    }
  }
}
