/**
 Blocks of source lines, as the splitting scripts use them (scripts/split_server.py,
 scripts/split_autopilot_api.py, scripts/split_manager.py, scripts/split_manager_full.py).
 Line numbers are 1-based and both ends are included, as in Python's ast.
 */
module LineBlocks {
  type Line = string

  // `owner` is the module or the method the block belongs to.
  datatype Block = Block(first: int, last: int, owner: string)

  predicate Within(i: int, b: Block) { b.first <= i <= b.last }

  predicate Covered(bs: seq<Block>, i: int) {
    bs != [] && (Within(i, bs[|bs| - 1]) || Covered(bs[..|bs| - 1], i))
  }

  // No line belongs to both.
  predicate Apart(a: Block, b: Block) {
    a.first > a.last || b.first > b.last || a.last < b.first || b.last < a.first
  }

  predicate AllApart(bs: seq<Block>, b: Block) {
    bs == [] || (Apart(bs[|bs| - 1], b) && AllApart(bs[..|bs| - 1], b))
  }

  predicate Disjoint(bs: seq<Block>) {
    bs == [] || (AllApart(bs[..|bs| - 1], bs[|bs| - 1]) && Disjoint(bs[..|bs| - 1]))
  }

  predicate InFile(b: Block, n: nat) { 1 <= b.first <= b.last + 1 <= n + 1 }

  predicate AllInFile(bs: seq<Block>, n: nat) {
    forall k :: 0 <= k < |bs| ==> InFile(bs[k], n)
  }

  predicate Ascending(bs: seq<Block>) {
    forall j, k :: 0 <= j < k < |bs| ==> bs[j].first <= bs[k].first
  }

  lemma {:induction false} CoveredAt(bs: seq<Block>, i: int)
    ensures Covered(bs, i) <==> exists k :: 0 <= k < |bs| && Within(i, bs[k])
  {
    if bs != [] {
      var front := bs[..|bs| - 1];
      CoveredAt(front, i);
      if Covered(bs, i) && !Within(i, bs[|bs| - 1]) {
        var k :| 0 <= k < |front| && Within(i, front[k]);
        assert Within(i, bs[k]);
      }
      forall k | 0 <= k < |bs| && Within(i, bs[k]) ensures Covered(bs, i) {
        if k < |bs| - 1 { assert front[k] == bs[k]; }
      }
    }
  }

  // Disjointness is what it says: no line has two blocks.
  lemma {:induction false} DisjointMeans(bs: seq<Block>)
    ensures Disjoint(bs) <==> forall j, k :: 0 <= j < k < |bs| ==> Apart(bs[j], bs[k])
  {
    if bs != [] {
      var front, b := bs[..|bs| - 1], bs[|bs| - 1];
      DisjointMeans(front);
      AllApartMeans(front, b);
      if Disjoint(bs) {
        forall j, k | 0 <= j < k < |bs| ensures Apart(bs[j], bs[k]) {
          assert front[j] == bs[j];
          if k < |front| { assert front[k] == bs[k]; }
        }
      }
      if forall j, k :: 0 <= j < k < |bs| ==> Apart(bs[j], bs[k]) {
        forall j, k | 0 <= j < k < |front| ensures Apart(front[j], front[k]) {
          assert front[j] == bs[j] && front[k] == bs[k];
        }
        forall j | 0 <= j < |front| ensures Apart(front[j], b) { assert front[j] == bs[j]; }
      }
    }
  }

  lemma {:induction false} AllApartMeans(bs: seq<Block>, b: Block)
    ensures AllApart(bs, b) <==> forall j :: 0 <= j < |bs| ==> Apart(bs[j], b)
  {
    if bs != [] {
      var front := bs[..|bs| - 1];
      AllApartMeans(front, b);
      assert forall j :: 0 <= j < |front| ==> front[j] == bs[j];
      if forall j :: 0 <= j < |bs| ==> Apart(bs[j], b) {
        forall j | 0 <= j < |front| ensures Apart(front[j], b) { assert front[j] == bs[j]; }
      }
    }
  }

  lemma {:induction false} ApartMeans(bs: seq<Block>, b: Block, i: int)
    requires AllApart(bs, b) && Within(i, b)
    ensures !Covered(bs, i)
  {
    if bs != [] { ApartMeans(bs[..|bs| - 1], b, i); }
  }

  // ------------------------------------------------------------- sorting by first line

  function Insert(b: Block, bs: seq<Block>): (r: seq<Block>)
    requires Ascending(bs)
    ensures Ascending(r) && |r| == |bs| + 1 && multiset(r) == multiset(bs) + multiset{b}
    ensures r[|bs|] == if bs == [] || bs[|bs| - 1].first <= b.first then b else bs[|bs| - 1]
  {
    var n := |bs|;
    if n == 0 || bs[n - 1].first <= b.first then bs + [b]
    else
      assert bs == bs[..n - 1] + [bs[n - 1]];
      Insert(b, bs[..n - 1]) + [bs[n - 1]]
  }

  // Stable, like list.sort with the first line as key.
  function SortByFirst(bs: seq<Block>): (r: seq<Block>)
    ensures Ascending(r) && multiset(r) == multiset(bs)
  {
    if bs == [] then []
    else
      assert bs == bs[..|bs| - 1] + [bs[|bs| - 1]];
      Insert(bs[|bs| - 1], SortByFirst(bs[..|bs| - 1]))
  }

  lemma SortedAlone(b: Block)
    ensures SortByFirst([b]) == [b]
  {
    assert [b][..0] == [];
  }

  lemma Snoc(bs: seq<Block>, b: Block, i: int, other: Block)
    ensures Covered(bs + [b], i) <==> Covered(bs, i) || Within(i, b)
    ensures AllApart(bs + [b], other) <==> AllApart(bs, other) && Apart(b, other)
    ensures Disjoint(bs + [b]) <==> Disjoint(bs) && AllApart(bs, b)
  {
    var r := bs + [b];
    assert r[..|r| - 1] == bs && r[|r| - 1] == b;
  }

  lemma {:induction false} InsertKeeps(b: Block, bs: seq<Block>, i: int, other: Block)
    requires Ascending(bs)
    ensures Covered(Insert(b, bs), i) <==> Covered(bs, i) || Within(i, b)
    ensures AllApart(Insert(b, bs), other) <==> AllApart(bs, other) && Apart(b, other)
  {
    var n := |bs|;
    if n > 0 && bs[n - 1].first > b.first {
      var front, tail := bs[..n - 1], bs[n - 1];
      InsertKeeps(b, front, i, other);
      Snoc(Insert(b, front), tail, i, other);
    } else {
      Snoc(bs, b, i, other);
    }
  }

  lemma {:induction false} InsertDisjoint(b: Block, bs: seq<Block>)
    requires Ascending(bs) && Disjoint(bs) && AllApart(bs, b)
    ensures Disjoint(Insert(b, bs))
  {
    var n := |bs|;
    if n > 0 && bs[n - 1].first > b.first {
      var front, tail := bs[..n - 1], bs[n - 1];
      InsertDisjoint(b, front);
      InsertKeeps(b, front, 0, tail);
      Snoc(Insert(b, front), tail, 0, b);
    } else {
      Snoc(bs, b, 0, b);
    }
  }

  lemma {:induction false} SortKeeps(bs: seq<Block>, i: int, other: Block)
    ensures Covered(SortByFirst(bs), i) <==> Covered(bs, i)
    ensures AllApart(SortByFirst(bs), other) <==> AllApart(bs, other)
  {
    if bs != [] {
      SortKeeps(bs[..|bs| - 1], i, other);
      InsertKeeps(bs[|bs| - 1], SortByFirst(bs[..|bs| - 1]), i, other);
    }
  }

  lemma {:induction false} SortDisjoint(bs: seq<Block>)
    requires Disjoint(bs)
    ensures Disjoint(SortByFirst(bs))
  {
    if bs != [] {
      var front, b := bs[..|bs| - 1], bs[|bs| - 1];
      SortDisjoint(front);
      SortKeeps(front, 0, b);
      InsertDisjoint(b, SortByFirst(front));
    }
  }

  lemma SortInFile(bs: seq<Block>, n: nat)
    requires AllInFile(bs, n)
    ensures AllInFile(SortByFirst(bs), n)
  {
    var r := SortByFirst(bs);
    forall k | 0 <= k < |r| ensures InFile(r[k], n) {
      assert r[k] in multiset(r);
      assert r[k] in bs;
    }
  }

  // Once sorted, everything before the last block ends before it starts.
  lemma {:induction false} CoveredBeforeLast(bs: seq<Block>, b: Block, i: int)
    requires AllApart(bs, b) && b.first <= b.last && Covered(bs, i)
    requires forall k :: 0 <= k < |bs| ==> bs[k].first <= b.first
    ensures i < b.first
  {
    var n := |bs|;
    if !Within(i, bs[n - 1]) { CoveredBeforeLast(bs[..n - 1], b, i); }
  }
}
