/**
 Cutting methods out of a class with a moving cursor (scripts/split_manager.py, steps 2, 4
 and 6; scripts/split_manager_full.py): each method's lines go to a collaborator, and the
 rewritten file holds a delegator in their place.
 */
module CursorCut {
  import opened LineBlocks

  // Delegator lines by method; a method may have none.
  type Stubs = Block -> seq<Line>

  // What a well-formed parse gives: every method has at least one line, inside the file.
  predicate Parsed(cuts: seq<Block>, n: nat) {
    forall k :: 0 <= k < |cuts| ==> 1 <= cuts[k].first <= cuts[k].last <= n
  }

  // From the k-th on, each cut starts after the previous one, and after line `from`.
  predicate Ordered(cuts: seq<Block>, k: nat, from: int)
    requires k <= |cuts|
    decreases |cuts| - k
  {
    k == |cuts| || (from < cuts[k].first && Ordered(cuts, k + 1, cuts[k].last))
  }

  // ------------------------------------------------------------- the cursor

  // Python's lines[a:b] for bounds that are not negative.
  function Slice(lines: seq<Line>, a: nat, b: int): seq<Line>
    requires b <= |lines|
  {
    if a < b then lines[a..b] else []
  }

  // One turn of the loop: the lines up to the cut, then its delegator.
  function Piece(lines: seq<Line>, cursor: nat, c: Block, stub: Stubs): seq<Line>
    requires c.first <= |lines|
  {
    Slice(lines, cursor, c.first - 1) + stub(c)
  }

  // What the loop appends from the k-th cut on, with the cursor after line `cursor`.
  function Rest(lines: seq<Line>, cuts: seq<Block>, k: nat, cursor: nat, stub: Stubs): seq<Line>
    requires Parsed(cuts, |lines|) && k <= |cuts| && cursor <= |lines|
    decreases |cuts| - k
  {
    if k == |cuts| then lines[cursor..]
    else Piece(lines, cursor, cuts[k], stub) + Rest(lines, cuts, k + 1, cuts[k].last, stub)
  }

  function Reassembled(lines: seq<Line>, initEnd: nat, inserted: seq<Line>, cuts: seq<Block>, stub: Stubs): seq<Line>
    requires Parsed(cuts, |lines|) && initEnd <= |lines|
  {
    SortParsed(cuts, |lines|);
    lines[..initEnd] + inserted + Rest(lines, SortByFirst(cuts), 0, initEnd, stub)
  }

  function Body(lines: seq<Line>, c: Block): seq<Line>
    requires 1 <= c.first <= c.last <= |lines|
  {
    lines[c.first - 1..c.last]
  }

  // The extracted bodies, copied verbatim in file order.
  method ExtractBodies(lines: seq<Line>, sorted: seq<Block>) returns (bodies: seq<seq<Line>>)
    requires Parsed(sorted, |lines|)
    ensures |bodies| == |sorted|
    ensures forall k :: 0 <= k < |bodies| ==> bodies[k] == Body(lines, sorted[k])
  {
    bodies := [];
    for k := 0 to |sorted|
      invariant |bodies| == k
      invariant forall j :: 0 <= j < k ==> bodies[j] == Body(lines, sorted[j])
    {
      bodies := bodies + [Body(lines, sorted[k])];
    }
  }

  method RewriteFile(lines: seq<Line>, initEnd: nat, inserted: seq<Line>, cuts: seq<Block>, stub: Stubs)
    returns (out: seq<Line>)
    requires Parsed(cuts, |lines|) && initEnd <= |lines|
    ensures out == Reassembled(lines, initEnd, inserted, cuts, stub)
  {
    SortParsed(cuts, |lines|);
    out := CopyAround(lines, lines[..initEnd] + inserted, initEnd, SortByFirst(cuts), stub);
  }

  method CopyAround(lines: seq<Line>, head: seq<Line>, initEnd: nat, sorted: seq<Block>, stub: Stubs)
    returns (out: seq<Line>)
    requires Parsed(sorted, |lines|) && initEnd <= |lines|
    ensures out == head + Rest(lines, sorted, 0, initEnd, stub)
  {
    out := head;
    var cursor := initEnd;
    for k := 0 to |sorted|
      invariant 0 <= cursor <= |lines|
      invariant out + Rest(lines, sorted, k, cursor, stub) == head + Rest(lines, sorted, 0, initEnd, stub)
    {
      RestTurn(lines, sorted, k, cursor, stub, out);
      out := out + Piece(lines, cursor, sorted[k], stub);
      cursor := sorted[k].last;
    }
    out := out + lines[cursor..];
  }

  lemma RestTurn(lines: seq<Line>, cuts: seq<Block>, k: nat, cursor: nat, stub: Stubs, out: seq<Line>)
    requires Parsed(cuts, |lines|) && k < |cuts| && cursor <= |lines|
    ensures out + Rest(lines, cuts, k, cursor, stub) ==
            (out + Piece(lines, cursor, cuts[k], stub)) + Rest(lines, cuts, k + 1, cuts[k].last, stub)
  {
    ConcatIs(out, Piece(lines, cursor, cuts[k], stub), Rest(lines, cuts, k + 1, cuts[k].last, stub));
  }

  lemma ConcatIs(a: seq<Line>, b: seq<Line>, c: seq<Line>)
    ensures a + (b + c) == a + b + c
  {}

  lemma SortParsed(cuts: seq<Block>, n: nat)
    requires Parsed(cuts, n)
    ensures Parsed(SortByFirst(cuts), n) && |SortByFirst(cuts)| == |cuts|
  {
    var r := SortByFirst(cuts);
    assert |multiset(r)| == |multiset(cuts)|;
    forall k | 0 <= k < |r| ensures 1 <= r[k].first <= r[k].last <= n {
      assert r[k] in multiset(r);
      assert r[k] in cuts;
    }
  }

  // ------------------------------------------------------------- each range replaced

  // What line i becomes: the delegator where a cut starts, nothing inside a cut, itself
  // elsewhere. Only the cuts from the k-th on are looked at.
  function LineBecomes(lines: seq<Line>, cuts: seq<Block>, k: nat, i: int, stub: Stubs): seq<Line>
    requires 1 <= i <= |lines| && k <= |cuts|
    decreases |cuts| - k
  {
    if k == |cuts| then [lines[i - 1]]
    else if i == cuts[k].first then stub(cuts[k])
    else if Within(i, cuts[k]) then []
    else LineBecomes(lines, cuts, k + 1, i, stub)
  }

  // The file read line by line after line `cursor`.
  function Replaced(lines: seq<Line>, cuts: seq<Block>, k: nat, cursor: nat, stub: Stubs): seq<Line>
    requires k <= |cuts|
    decreases |lines| - cursor
  {
    if cursor >= |lines| then []
    else LineBecomes(lines, cuts, k, cursor + 1, stub) + Replaced(lines, cuts, k, cursor + 1, stub)
  }

  lemma {:induction false} BecomesItself(lines: seq<Line>, cuts: seq<Block>, k: nat, from: int, i: int, stub: Stubs)
    requires Parsed(cuts, |lines|) && k <= |cuts| && Ordered(cuts, k, from)
    requires 1 <= i <= |lines| && (k < |cuts| ==> i < cuts[k].first)
    ensures LineBecomes(lines, cuts, k, i, stub) == [lines[i - 1]]
    decreases |cuts| - k
  {
    if k < |cuts| { BecomesItself(lines, cuts, k + 1, cuts[k].last, i, stub); }
  }

  // A stretch of lines outside every cut is copied.
  lemma {:induction false} CopiesGap(lines: seq<Line>, cuts: seq<Block>, k: nat, from: int, a: nat, b: nat, stub: Stubs)
    requires Parsed(cuts, |lines|) && k <= |cuts| && Ordered(cuts, k, from)
    requires a <= b <= |lines| && (k < |cuts| ==> b < cuts[k].first)
    ensures Replaced(lines, cuts, k, a, stub) == lines[a..b] + Replaced(lines, cuts, k, b, stub)
    decreases b - a
  {
    if a < b {
      BecomesItself(lines, cuts, k, from, a + 1, stub);
      CopiesGap(lines, cuts, k, from, a + 1, b, stub);
      assert lines[a..b] == [lines[a]] + lines[a + 1..b];
      ConcatIs([lines[a]], lines[a + 1..b], Replaced(lines, cuts, k, b, stub));
    } else {
      assert lines[a..b] == [];
    }
  }

  // Past its last line a cut no longer matters.
  lemma {:induction false} DropsSpent(lines: seq<Line>, cuts: seq<Block>, k: nat, cursor: nat, stub: Stubs)
    requires k < |cuts| && cuts[k].first <= cuts[k].last <= cursor
    ensures Replaced(lines, cuts, k, cursor, stub) == Replaced(lines, cuts, k + 1, cursor, stub)
    decreases |lines| - cursor
  {
    if cursor < |lines| { DropsSpent(lines, cuts, k, cursor + 1, stub); }
  }

  // Inside a cut nothing more is written.
  lemma {:induction false} SkipsCut(lines: seq<Line>, cuts: seq<Block>, k: nat, cursor: nat, stub: Stubs)
    requires Parsed(cuts, |lines|) && k < |cuts| && cuts[k].first <= cursor <= cuts[k].last
    ensures Replaced(lines, cuts, k, cursor, stub) == Replaced(lines, cuts, k + 1, cuts[k].last, stub)
    decreases cuts[k].last - cursor
  {
    if cursor < cuts[k].last {
      assert LineBecomes(lines, cuts, k, cursor + 1, stub) == [];
      SkipsCut(lines, cuts, k, cursor + 1, stub);
    } else {
      DropsSpent(lines, cuts, k, cursor, stub);
    }
  }

  lemma ReplacedStep(lines: seq<Line>, cuts: seq<Block>, k: nat, cursor: nat, stub: Stubs)
    requires Parsed(cuts, |lines|) && k < |cuts| && Ordered(cuts, k, cursor)
    ensures Replaced(lines, cuts, k, cursor, stub) ==
            Piece(lines, cursor, cuts[k], stub) + Replaced(lines, cuts, k + 1, cuts[k].last, stub)
  {
    var b := cuts[k].first - 1;
    CopiesGap(lines, cuts, k, cursor, cursor, b, stub);
    StartsCut(lines, cuts, k, stub);
    ConcatIs(lines[cursor..b], stub(cuts[k]), Replaced(lines, cuts, k + 1, cuts[k].last, stub));
    assert Slice(lines, cursor, b) == lines[cursor..b];
  }

  lemma StartsCut(lines: seq<Line>, cuts: seq<Block>, k: nat, stub: Stubs)
    requires Parsed(cuts, |lines|) && k < |cuts|
    ensures Replaced(lines, cuts, k, cuts[k].first - 1, stub) ==
            stub(cuts[k]) + Replaced(lines, cuts, k + 1, cuts[k].last, stub)
  {
    SkipsCut(lines, cuts, k, cuts[k].first, stub);
    assert LineBecomes(lines, cuts, k, cuts[k].first, stub) == stub(cuts[k]);
  }

  lemma {:induction false} RestReplaces(lines: seq<Line>, cuts: seq<Block>, k: nat, cursor: nat, stub: Stubs)
    requires Parsed(cuts, |lines|) && k <= |cuts| && cursor <= |lines| && Ordered(cuts, k, cursor)
    ensures Rest(lines, cuts, k, cursor, stub) == Replaced(lines, cuts, k, cursor, stub)
    decreases |cuts| - k
  {
    if k == |cuts| {
      CopiesGap(lines, cuts, k, cursor, cursor, |lines|, stub);
      assert lines[cursor..] == lines[cursor..|lines|];
    } else {
      ReplacedStep(lines, cuts, k, cursor, stub);
      RestReplaces(lines, cuts, k + 1, cuts[k].last, stub);
    }
  }

  // Main result: when the cuts, once sorted, follow one another after __init__, the
  // rewritten file is the original with each cut replaced by its delegator.
  lemma CutReplaces(lines: seq<Line>, initEnd: nat, inserted: seq<Line>, cuts: seq<Block>, stub: Stubs)
    requires Parsed(cuts, |lines|) && initEnd <= |lines| && Ordered(SortByFirst(cuts), 0, initEnd)
    ensures Reassembled(lines, initEnd, inserted, cuts, stub) ==
            lines[..initEnd] + inserted + Replaced(lines, SortByFirst(cuts), 0, initEnd, stub)
  {
    SortParsed(cuts, |lines|);
    RestReplaces(lines, SortByFirst(cuts), 0, initEnd, stub);
  }

  // ------------------------------------------------------------- nothing lost, nothing twice

  function NoStub(): Stubs { (_: Block) => [] }

  function BodyOf(lines: seq<Line>): Stubs {
    (c: Block) => if 1 <= c.first <= c.last <= |lines| then lines[c.first - 1..c.last] else []
  }

  lemma SliceJoin(lines: seq<Line>, a: nat, b: nat, c: nat)
    requires a <= b <= c <= |lines|
    ensures lines[a..b] + lines[b..c] + lines[c..] == lines[a..]
  {}

  lemma {:induction false} RestRestores(lines: seq<Line>, cuts: seq<Block>, k: nat, cursor: nat)
    requires Parsed(cuts, |lines|) && k <= |cuts| && cursor <= |lines| && Ordered(cuts, k, cursor)
    ensures Rest(lines, cuts, k, cursor, BodyOf(lines)) == lines[cursor..]
    decreases |cuts| - k
  {
    if k < |cuts| {
      RestRestores(lines, cuts, k + 1, cuts[k].last);
      SliceJoin(lines, cursor, cuts[k].first - 1, cuts[k].last);
    }
  }

  // With the bodies back in place of the delegators, the length tells whether a line was
  // copied twice.
  lemma {:induction false} RestLength(lines: seq<Line>, cuts: seq<Block>, k: nat, cursor: nat)
    requires Parsed(cuts, |lines|) && k <= |cuts| && cursor <= |lines|
    ensures |Rest(lines, cuts, k, cursor, BodyOf(lines))| >= |lines| - cursor
    ensures !Ordered(cuts, k, cursor) ==> |Rest(lines, cuts, k, cursor, BodyOf(lines))| > |lines| - cursor
    decreases |cuts| - k
  {
    if k < |cuts| {
      var c := cuts[k];
      RestLength(lines, cuts, k + 1, c.last);
      assert |BodyOf(lines)(c)| == c.last - c.first + 1;
      assert |Slice(lines, cursor, c.first - 1)| >= c.first - 1 - cursor;
    }
  }

  // Main result: putting the extracted bodies back where the delegators stand rebuilds the
  // original file exactly when the cuts follow one another after __init__.
  lemma CutRoundTripIff(lines: seq<Line>, initEnd: nat, cuts: seq<Block>)
    requires Parsed(cuts, |lines|) && initEnd <= |lines|
    ensures Reassembled(lines, initEnd, [], cuts, BodyOf(lines)) == lines <==> Ordered(SortByFirst(cuts), 0, initEnd)
  {
    var sorted := SortByFirst(cuts);
    SortParsed(cuts, |lines|);
    RestIff(lines, sorted, initEnd);
    HeadAndRest(lines, initEnd, Rest(lines, sorted, 0, initEnd, BodyOf(lines)));
  }

  lemma RestIff(lines: seq<Line>, sorted: seq<Block>, initEnd: nat)
    requires Parsed(sorted, |lines|) && initEnd <= |lines|
    ensures Rest(lines, sorted, 0, initEnd, BodyOf(lines)) == lines[initEnd..] <==> Ordered(sorted, 0, initEnd)
  {
    RestLength(lines, sorted, 0, initEnd);
    if Ordered(sorted, 0, initEnd) { RestRestores(lines, sorted, 0, initEnd); }
  }

  lemma HeadAndRest(lines: seq<Line>, initEnd: nat, rest: seq<Line>)
    requires initEnd <= |lines|
    ensures lines[..initEnd] + [] + rest == lines <==> rest == lines[initEnd..]
  {
    var whole := lines[..initEnd] + [] + rest;
    assert whole[initEnd..] == rest;
    assert lines[..initEnd] + [] + lines[initEnd..] == lines;
  }

  // ------------------------------------------------------------- what the script itself checks

  ghost predicate Occurs(x: Line, s: seq<Line>) { exists k :: 0 <= k < |s| && s[k] == x }

  // Every line after __init__ that no cut covers occurs somewhere in the output.
  ghost predicate WeakCheck(lines: seq<Line>, initEnd: nat, cuts: seq<Block>, out: seq<Line>) {
    forall i :: initEnd < i <= |lines| && !Covered(cuts, i) ==> Occurs(lines[i - 1], out)
  }

  lemma OccursIn(x: Line, a: seq<Line>, b: seq<Line>)
    requires Occurs(x, a) || Occurs(x, b)
    ensures Occurs(x, a + b)
  {
    if Occurs(x, a) {
      var k :| 0 <= k < |a| && a[k] == x;
      assert (a + b)[k] == x;
    } else {
      var k :| 0 <= k < |b| && b[k] == x;
      assert (a + b)[|a| + k] == x;
    }
  }

  // A line past the cursor and outside the remaining cuts is still to come.
  lemma {:induction false} RestKeeps(lines: seq<Line>, cuts: seq<Block>, k: nat, cursor: nat, stub: Stubs, i: nat)
    requires Parsed(cuts, |lines|) && Ascending(cuts) && k <= |cuts| && cursor < i <= |lines|
    requires forall j :: k <= j < |cuts| ==> !Within(i, cuts[j])
    ensures Occurs(lines[i - 1], Rest(lines, cuts, k, cursor, stub))
    decreases |cuts| - k
  {
    var x := lines[i - 1];
    if k == |cuts| {
      assert lines[cursor..][i - 1 - cursor] == x;
    } else {
      var c := cuts[k];
      if i < c.first {
        assert Piece(lines, cursor, c, stub)[i - 1 - cursor] == x;
      } else {
        assert !Within(i, c);
        RestKeeps(lines, cuts, k + 1, c.last, stub, i);
      }
      OccursIn(x, Piece(lines, cursor, c, stub), Rest(lines, cuts, k + 1, c.last, stub));
    }
  }

  // Main result: the script's own check can never fail, whether or not the cuts overlap.
  lemma WeakCheckNeverFails(lines: seq<Line>, initEnd: nat, inserted: seq<Line>, cuts: seq<Block>, stub: Stubs)
    requires Parsed(cuts, |lines|) && initEnd <= |lines|
    ensures WeakCheck(lines, initEnd, cuts, Reassembled(lines, initEnd, inserted, cuts, stub))
  {
    var sorted := SortByFirst(cuts);
    SortParsed(cuts, |lines|);
    forall i | initEnd < i <= |lines| && !Covered(cuts, i)
      ensures Occurs(lines[i - 1], Reassembled(lines, initEnd, inserted, cuts, stub))
    {
      SortKeeps(cuts, i, Block(0, 0, ""));
      CoveredAt(sorted, i);
      RestKeeps(lines, sorted, 0, initEnd, stub, i);
      OccursIn(lines[i - 1], lines[..initEnd] + inserted, Rest(lines, sorted, 0, initEnd, stub));
    }
  }

  // ------------------------------------------------------------- kept and extracted

  function Extracted(lines: seq<Line>, cuts: seq<Block>, k: nat): seq<Line>
    requires Parsed(cuts, |lines|) && k <= |cuts|
    decreases |cuts| - k
  {
    if k == |cuts| then [] else Body(lines, cuts[k]) + Extracted(lines, cuts, k + 1)
  }

  // Whatever the cuts, the bodies in place of the delegators are the extracted lines.
  lemma {:induction false} BodiesAside(lines: seq<Line>, cuts: seq<Block>, k: nat, cursor: nat)
    requires Parsed(cuts, |lines|) && k <= |cuts| && cursor <= |lines|
    ensures multiset(Rest(lines, cuts, k, cursor, BodyOf(lines))) ==
            multiset(Rest(lines, cuts, k, cursor, NoStub())) + multiset(Extracted(lines, cuts, k))
    decreases |cuts| - k
  {
    if k < |cuts| {
      var c := cuts[k];
      BodiesAside(lines, cuts, k + 1, c.last);
      TwoPieces(lines, cursor, c);
      Regroup(Slice(lines, cursor, c.first - 1), Body(lines, c), Rest(lines, cuts, k + 1, c.last, BodyOf(lines)),
              Rest(lines, cuts, k + 1, c.last, NoStub()), Extracted(lines, cuts, k + 1));
    }
  }

  lemma TwoPieces(lines: seq<Line>, cursor: nat, c: Block)
    requires 1 <= c.first <= c.last <= |lines|
    ensures Piece(lines, cursor, c, NoStub()) == Slice(lines, cursor, c.first - 1)
    ensures Piece(lines, cursor, c, BodyOf(lines)) == Slice(lines, cursor, c.first - 1) + Body(lines, c)
  {}

  lemma Regroup(gap: seq<Line>, body: seq<Line>, restored: seq<Line>, kept: seq<Line>, extracted: seq<Line>)
    requires multiset(restored) == multiset(kept) + multiset(extracted)
    ensures multiset(gap + body + restored) == multiset(gap + kept) + multiset(body + extracted)
  {}

  // The kept lines and the extracted ones are, with multiplicity, the whole file.
  lemma CutConserves(lines: seq<Line>, initEnd: nat, cuts: seq<Block>)
    requires Parsed(cuts, |lines|) && initEnd <= |lines| && Ordered(SortByFirst(cuts), 0, initEnd)
    ensures Parsed(SortByFirst(cuts), |lines|)
    ensures multiset(lines) == multiset(Reassembled(lines, initEnd, [], cuts, NoStub())) +
                               multiset(Extracted(lines, SortByFirst(cuts), 0))
  {
    var sorted := SortByFirst(cuts);
    SortParsed(cuts, |lines|);
    CutRoundTripIff(lines, initEnd, cuts);
    BodiesAside(lines, sorted, 0, initEnd);
    HeadAside(lines[..initEnd], Rest(lines, sorted, 0, initEnd, BodyOf(lines)),
              Rest(lines, sorted, 0, initEnd, NoStub()), Extracted(lines, sorted, 0));
  }

  lemma HeadAside(head: seq<Line>, restored: seq<Line>, kept: seq<Line>, extracted: seq<Line>)
    requires multiset(restored) == multiset(kept) + multiset(extracted)
    ensures multiset(head + [] + restored) == multiset(head + [] + kept) + multiset(extracted)
  {}

  // ------------------------------------------------------------- what the check misses

  // The script's check is weaker than what it is named for: it passes for all cuts, while
  // more lines are kept and extracted than the file has, so that some are copied twice,
  // exactly when the cuts do not follow one another after __init__.
  lemma WeakCheckMissesIff(lines: seq<Line>, initEnd: nat, inserted: seq<Line>, cuts: seq<Block>, stub: Stubs)
    requires Parsed(cuts, |lines|) && initEnd <= |lines|
    ensures Parsed(SortByFirst(cuts), |lines|)
    ensures WeakCheck(lines, initEnd, cuts, Reassembled(lines, initEnd, inserted, cuts, stub))
    ensures var kept := Reassembled(lines, initEnd, [], cuts, NoStub());
            var extracted := Extracted(lines, SortByFirst(cuts), 0);
            |kept| + |extracted| > |lines| <==> !Ordered(SortByFirst(cuts), 0, initEnd)
  {
    var sorted := SortByFirst(cuts);
    SortParsed(cuts, |lines|);
    WeakCheckNeverFails(lines, initEnd, inserted, cuts, stub);
    BodiesAside(lines, sorted, 0, initEnd);
    var restored, kept := Rest(lines, sorted, 0, initEnd, BodyOf(lines)), Rest(lines, sorted, 0, initEnd, NoStub());
    SizesAside(restored, kept, Extracted(lines, sorted, 0));
    RestLength(lines, sorted, 0, initEnd);
    if Ordered(sorted, 0, initEnd) { RestRestores(lines, sorted, 0, initEnd); }
  }

  lemma SizesAside(restored: seq<Line>, kept: seq<Line>, extracted: seq<Line>)
    requires multiset(restored) == multiset(kept) + multiset(extracted)
    ensures |restored| == |kept| + |extracted|
  {
    assert |multiset(restored)| == |restored|;
  }

  // For instance, in any file: with a method that ends at or before the end of __init__
  // cut, the method stays where it was and every line between it and the end of __init__ is
  // copied a second time.
  lemma WeakCheckMissesEarlyMethod(lines: seq<Line>, initEnd: nat, inserted: seq<Line>, c: Block, stub: Stubs)
    requires 1 <= c.first <= c.last <= initEnd <= |lines|
    ensures var out := Reassembled(lines, initEnd, inserted, [c], stub);
            && WeakCheck(lines, initEnd, [c], out)
            && out == lines[..initEnd] + inserted + (stub(c) + (lines[c.last..initEnd] + lines[initEnd..]))
  {
    WeakCheckNeverFails(lines, initEnd, inserted, [c], stub);
    SortedAlone(c);
    EarlyRest(lines, c, initEnd, stub);
  }

  lemma EarlyRest(lines: seq<Line>, c: Block, initEnd: nat, stub: Stubs)
    requires 1 <= c.first <= c.last <= initEnd <= |lines|
    ensures Rest(lines, [c], 0, initEnd, stub) == stub(c) + (lines[c.last..initEnd] + lines[initEnd..])
  {
    assert Rest(lines, [c], 1, c.last, stub) == lines[c.last..];
    assert Slice(lines, initEnd, c.first - 1) == [];
    assert Piece(lines, initEnd, c, stub) == stub(c);
    assert lines[c.last..initEnd] + lines[initEnd..] == lines[c.last..];
  }
}
