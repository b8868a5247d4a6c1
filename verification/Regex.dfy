/**
 Byte regular expressions of the one shape the terminal filter uses: a sequence of
 character classes, each taken once, optionally, or any number of times.

 `Match` is the backtracking matcher of Python's `re` (greedy quantifiers, first
 alternative that lets the rest succeed); `InLang` is the language the pattern
 denotes, defined without any search. `Sub` is `pattern.sub(b'', s)`.
 */
module Regex {
  import opened Wrappers

  newtype byte = b: int | 0 <= b < 0x100

  const ESC: byte := 0x1b

  datatype Re =
    | End
    | One(accepts: byte -> bool, rest: Re)
    | Opt(accepts: byte -> bool, rest: Re)
    | Star(accepts: byte -> bool, rest: Re)

  function Shift(k: nat, m: Option<nat>): Option<nat> {
    match m
    case None => None
    case Some(n) => Some(k + n)
  }

  // Length of the match at the start of s, in the matcher's own order of preference.
  function Match(re: Re, s: seq<byte>): (m: Option<nat>)
    ensures m.Some? ==> m.value <= |s|
    decreases |s|, re
  {
    match re
    case End => Some(0)
    case One(p, r) =>
      if s != [] && p(s[0]) then Shift(1, Match(r, s[1..])) else None
    case Opt(p, r) =>
      var taken := if s != [] && p(s[0]) then Shift(1, Match(r, s[1..])) else None;
      if taken.Some? then taken else Match(r, s)
    case Star(p, r) =>
      var taken := if s != [] && p(s[0]) then Shift(1, Match(re, s[1..])) else None;
      if taken.Some? then taken else Match(r, s)
  }

  ghost predicate InLang(re: Re, w: seq<byte>)
    decreases |w|, re
  {
    match re
    case End => w == []
    case One(p, r) => w != [] && p(w[0]) && InLang(r, w[1..])
    case Opt(p, r) => (w != [] && p(w[0]) && InLang(r, w[1..])) || InLang(r, w)
    case Star(p, r) => (w != [] && p(w[0]) && InLang(re, w[1..])) || InLang(r, w)
  }

  // Whatever the matcher consumes is a word of the pattern's language.
  lemma {:induction false} MatchSound(re: Re, s: seq<byte>)
    requires Match(re, s).Some?
    ensures InLang(re, s[..Match(re, s).value])
    decreases |s|, re
  {
    var n := Match(re, s).value;
    if !re.End? {
      if s != [] && re.accepts(s[0]) {
        var again := if re.Star? then re else re.rest;
        if Match(again, s[1..]).Some? {
          MatchSound(again, s[1..]);
          assert s[..n][1..] == s[1..][..n - 1];
          return;
        }
      }
      MatchSound(re.rest, s);
    }
  }

  // The matcher gives up only when no prefix at all is a word of the language.
  lemma {:induction false} MatchComplete(re: Re, s: seq<byte>, n: nat)
    requires n <= |s| && InLang(re, s[..n])
    ensures Match(re, s).Some?
    decreases n, re
  {
    if !re.End? {
      var again := if re.Star? then re else re.rest;
      if n > 0 && re.accepts(s[0]) && InLang(again, s[..n][1..]) {
        assert s[..n][1..] == s[1..][..n - 1];
        MatchComplete(again, s[1..], n - 1);
      } else {
        MatchComplete(re.rest, s, n);
      }
    }
  }

  // One left-to-right pass that deletes every match. Patterns that can match the empty
  // string do not occur here, so each match removes at least one byte.
  function Sub(re: Re, s: seq<byte>): (r: seq<byte>)
    requires re.One?
  {
    if s == [] then []
    else match Match(re, s) {
      case Some(n) => Sub(re, s[n..])
      case None => [s[0]] + Sub(re, s[1..])
    }
  }

  ghost predicate Subseq(a: seq<byte>, b: seq<byte>)
    decreases |b|
  {
    a == [] || (b != [] && ((a[0] == b[0] && Subseq(a[1..], b[1..])) || Subseq(a, b[1..])))
  }

  lemma {:induction false} SubseqSkip(a: seq<byte>, b: seq<byte>, n: nat)
    requires n <= |b| && Subseq(a, b[n..])
    ensures Subseq(a, b)
  {
    if n > 0 {
      assert b[n..] == b[1..][n - 1..];
      SubseqSkip(a, b[1..], n - 1);
    }
  }

  lemma {:induction false} SubseqTransitive(a: seq<byte>, b: seq<byte>, c: seq<byte>)
    requires Subseq(a, b) && Subseq(b, c)
    ensures Subseq(a, c)
    decreases |c|, |b|
  {
    if a != [] {
      if Subseq(b, c[1..]) {
        SubseqTransitive(a, b, c[1..]);
      } else if a[0] == b[0] && Subseq(a[1..], b[1..]) {
        SubseqTransitive(a[1..], b[1..], c[1..]);
      } else {
        SubseqTransitive(a, b[1..], c[1..]);
      }
    }
  }

  lemma {:induction false} SubseqConcat(a: seq<byte>, b: seq<byte>, c: seq<byte>, d: seq<byte>)
    requires Subseq(a, b) && Subseq(c, d)
    ensures Subseq(a + c, b + d)
    decreases |b|
  {
    if a == [] {
      assert a + c == c;
      assert (b + d)[|b|..] == d;
      SubseqSkip(c, b + d, |b|);
    } else {
      assert (b + d)[1..] == b[1..] + d;
      assert (a + c)[1..] == a[1..] + c;
      if a[0] == b[0] && Subseq(a[1..], b[1..]) {
        SubseqConcat(a[1..], b[1..], c, d);
      } else {
        SubseqConcat(a, b[1..], c, d);
      }
    }
  }

  // A pass only deletes: what is left is a subsequence, and equal length means untouched.
  lemma {:induction false} SubOnlyDeletes(re: Re, s: seq<byte>)
    requires re.One?
    ensures Subseq(Sub(re, s), s)
    ensures |Sub(re, s)| <= |s|
    ensures |Sub(re, s)| == |s| ==> Sub(re, s) == s
  {
    if s != [] {
      match Match(re, s)
      case Some(n) =>
        SubOnlyDeletes(re, s[n..]);
        SubseqSkip(Sub(re, s), s, n);
      case None =>
        SubOnlyDeletes(re, s[1..]);
        assert Sub(re, s)[1..] == Sub(re, s[1..]);
    }
  }

  ghost predicate Matchless(re: Re, s: seq<byte>) {
    s == [] || (Match(re, s) == None && Matchless(re, s[1..]))
  }

  // A pass changes nothing exactly when its pattern matches nowhere.
  lemma {:induction false} SubIdentityIff(re: Re, s: seq<byte>)
    requires re.One?
    ensures Sub(re, s) == s <==> Matchless(re, s)
  {
    if s != [] {
      match Match(re, s)
      case Some(n) =>
        SubOnlyDeletes(re, s[n..]);
      case None =>
        SubIdentityIff(re, s[1..]);
        assert Sub(re, s)[1..] == Sub(re, s[1..]);
    }
  }

  lemma ConcatAssociative(a: seq<byte>, b: seq<byte>, c: seq<byte>)
    ensures (a + b) + c == a + (b + c)
  {}

  lemma DropConcat(a: seq<byte>, b: seq<byte>, k: nat)
    requires k <= |b|
    ensures (a + b)[|a| + k..] == b[k..]
  {}

  // ------------------------------------------------------------- ESC-led patterns

  ghost predicate EscLed(re: Re) {
    re.One? && forall b: byte :: re.accepts(b) <==> b == ESC
  }

  predicate EscFree(s: seq<byte>) {
    s == [] || (s[0] != ESC && EscFree(s[1..]))
  }

  lemma {:induction false} EscFreeConcat(a: seq<byte>, b: seq<byte>)
    ensures EscFree(a + b) <==> EscFree(a) && EscFree(b)
  {
    if a == [] {
      assert a + b == b;
    } else {
      assert (a + b)[1..] == a[1..] + b;
      EscFreeConcat(a[1..], b);
    }
  }

  // Plain text in front of anything passes through untouched.
  lemma {:induction false} SubKeepsText(re: Re, t: seq<byte>, s: seq<byte>)
    requires EscLed(re) && EscFree(t)
    ensures Sub(re, t + s) == t + Sub(re, s)
  {
    if t == [] {
      assert t + s == s;
    } else {
      assert (t + s)[1..] == t[1..] + s;
      SubKeepsText(re, t[1..], s);
      assert [t[0]] + (t[1..] + Sub(re, s)) == t + Sub(re, s);
    }
  }

  // A matched prefix disappears.
  lemma SubDropsMatch(re: Re, t: seq<byte>, s: seq<byte>)
    requires re.One? && t != [] && Match(re, t + s) == Some(|t|)
    ensures Sub(re, t + s) == Sub(re, s)
  {
    assert (t + s)[|t|..] == s;
  }

  // An unmatched ESC with plain bytes behind it stays, together with those bytes.
  lemma SubKeepsUnmatched(re: Re, t: seq<byte>, s: seq<byte>)
    requires EscLed(re) && t != [] && EscFree(t[1..]) && Match(re, t + s) == None
    ensures Sub(re, t + s) == t + Sub(re, s)
  {
    var head, tail := [t[0]], t[1..];
    assert t == head + tail;
    ConcatAssociative(head, tail, s);
    DropConcat(head, tail + s, 0);
    SubKeepsText(re, tail, s);
    ConcatAssociative(head, tail, Sub(re, s));
  }
}
