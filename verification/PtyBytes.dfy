/**
 What the filter does to a single sequence, with the bytes of src/agents/pty_filter.py:60-64
 written out as numbers.
 */
module PtyBytes {
  import opened Wrappers
  import opened Regex
  import opened PtyFilter
  import opened PtyTokens
  import opened PtyCuts

  // ------------------------------------------------------------- one token alone

  lemma OneToken(t: Token)
    requires WellFormed(t)
    ensures Filter(Bytes(t)) == Shown(t)
  {
    var ts := [t];
    assert ts[1..] == [];
    assert Render(ts) == Bytes(t) + [] == Bytes(t);
    assert Visible(ts) == Shown(t) + [] == Shown(t);
    FilterOfTokens(ts);
  }

  lemma {:induction false} AreParams(ps: seq<byte>)
    requires forall k :: 0 <= k < |ps| ==> 0x30 <= ps[k] <= 0x39 || ps[k] == 0x3b
    ensures Params(ps)
  {
    if ps != [] { AreParams(ps[1..]); }
  }

  lemma {:induction false} ParamsAppend(ps: seq<byte>, b: byte)
    requires Params(ps) && IsParam(b)
    ensures Params(ps + [b])
  {
    if ps == [] {
      assert [] + [b] == [b];
    } else {
      ParamsAppend(ps[1..], b);
      assert (ps + [b])[1..] == ps[1..] + [b];
    }
  }

  lemma {:induction false} IsEscFree(s: seq<byte>)
    requires forall k :: 0 <= k < |s| ==> s[k] != 0x1b
    ensures EscFree(s)
  {
    if s != [] { IsEscFree(s[1..]); }
  }

  lemma {:induction false} IsBelFree(s: seq<byte>)
    requires forall k :: 0 <= k < |s| ==> s[k] != 0x07
    ensures !HasBel(s)
  {
    if s != [] { IsBelFree(s[1..]); }
  }

  // An introducer that holds no ESC but its first byte, alone in front of one last ESC.
  lemma StaysBeforeEsc(re: Re, s: seq<byte>)
    requires re in STRIP_PATTERNS && |s| >= 2 && s[0] == ESC && s[1] == OPEN && EscFree(s[1..])
    requires re != OTHER_CSI
    ensures Sub(re, s + [ESC]) == s + [ESC]
  {
    AfterEsc(re);
    PassesOver(re, s, [ESC]);
    NoMatch(re, [ESC]);
    assert Sub(re, [ESC]) == [ESC];
  }

  lemma MatchAtEscFinal(private: bool, ps: seq<byte>)
    requires Params(ps)
    ensures var all := ([ESC, OPEN] + (Lead(private) + ps)) + [ESC];
            Match(OTHER_CSI, all) == Some(|all|)
  {
    var s := [ESC, OPEN] + (Lead(private) + ps);
    var all := s + [ESC];
    assert all[2..] == Lead(private) + (ps + ([ESC] + []));
    assert OTHER_CSI in STRIP_PATTERNS && OTHER_CSI.rest.accepts(OPEN);
    MatchTwo(OTHER_CSI, all);
    CsiTail(private, ps, ESC, []);
  }

  // The final byte of a control sequence may be an ESC: the class of finals excludes only
  // the kept ones and the parameters.
  lemma EscAsFinal(private: bool, ps: seq<byte>)
    requires Params(ps)
    ensures Filter(([ESC, OPEN] + (Lead(private) + ps)) + [ESC]) == []
  {
    var s := [ESC, OPEN] + (Lead(private) + ps);
    var all := s + [ESC];
    ParamsArePlain(ps);
    EscFreeConcat(Lead(private), ps);
    assert s[1..] == [OPEN] + (Lead(private) + ps) && s[1..][1..] == Lead(private) + ps;
    assert Sub(OSC_BEL, all) == all && Sub(OSC_ST, all) == all by {
      PatternNames();
      StaysBeforeEsc(STRIP_PATTERNS[0], s);
      StaysBeforeEsc(STRIP_PATTERNS[1], s);
    }
    assert Sub(OTHER_CSI, all) == [] by {
      MatchAtEscFinal(private, ps);
      assert all[|all|..] == [];
    }
  }

  // ------------------------------------------------------------- control sequences

  // Main result: `ESC [`, digits and semicolons, and one more byte. The chunk stays as it is
  // if that byte is one of m A B C D G H J K f or a parameter byte itself, and goes
  // completely otherwise, whatever the byte.
  lemma ControlSequence(ps: seq<byte>, b: byte)
    requires forall k :: 0 <= k < |ps| ==> 0x30 <= ps[k] <= 0x39 || ps[k] == 0x3b
    ensures Filter([0x1b, 0x5b] + ps + [b]) ==
            if b in {0x6d, 0x41, 0x42, 0x43, 0x44, 0x47, 0x48, 0x4a, 0x4b, 0x66} || 0x30 <= b <= 0x39 || b == 0x3b
            then [0x1b, 0x5b] + ps + [b] else []
  {
    AreParams(ps);
    ConcatAssociative([ESC, OPEN], ps, [b]);
    if IsParam(b) {
      ParamsAppend(ps, b);
      UnfinishedStays(ps + [b]);
    } else if b == ESC {
      EscAsFinal(false, ps);
      assert Lead(false) + ps == ps;
    } else if ps == [] && b == QUESTION {
      IntroducerGoes([]);
      assert [ESC, OPEN] + [] + [QUESTION] == [ESC, OPEN, QUESTION] + [];
    } else if IsKeptFinal(b) {
      OneToken(KeptCsi(ps, b));
    } else {
      OneToken(OtherCsi(false, ps, b));
      assert Lead(false) + (ps + [b]) == ps + [b];
    }
  }

  lemma UnfinishedStays(ps: seq<byte>)
    requires Params(ps)
    ensures Filter([ESC, OPEN] + ps) == [ESC, OPEN] + ps
  {
    StripEndOfParams(ps);
    CsiBody(ps);
    ParamsArePlain(ps);
    TextNormal(ps);
    NormalLed(OPEN, ps);
    FixedPointIff([ESC, OPEN] + ps);
  }

  // With a `?` behind the bracket: everything goes if the last byte is no kept final and no
  // parameter byte, and otherwise the introducer alone, which leaves the rest as text.
  lemma PrivateSequence(ps: seq<byte>, b: byte)
    requires forall k :: 0 <= k < |ps| ==> 0x30 <= ps[k] <= 0x39 || ps[k] == 0x3b
    ensures Filter([0x1b, 0x5b, 0x3f] + ps + [b]) ==
            if b in {0x6d, 0x41, 0x42, 0x43, 0x44, 0x47, 0x48, 0x4a, 0x4b, 0x66} || 0x30 <= b <= 0x39 || b == 0x3b
            then ps + [b] else []
  {
    AreParams(ps);
    ConcatAssociative([ESC, OPEN, QUESTION], ps, [b]);
    assert [ESC, OPEN, QUESTION] + ps == [ESC, OPEN] + (Lead(true) + ps);
    assert [ESC, OPEN, QUESTION] + (ps + [b]) == [ESC, OPEN] + (Lead(true) + (ps + [b]));
    if IsParam(b) {
      ParamsAppend(ps, b);
      IntroducerGoes(ps + [b]);
      ParamsArePlain(ps + [b]);
      FilterOnlyDeletes(ps + [b]);
    } else if b == ESC {
      EscAsFinal(true, ps);
    } else if IsKeptFinal(b) {
      OneToken(PrivateKept(ps, b));
    } else {
      OneToken(OtherCsi(true, ps, b));
    }
  }

  // ------------------------------------------------------------- the two-byte introducers

  // A charset selection takes one letter or digit with it and leaves any other byte behind.
  lemma CharsetSelection(p: byte, c: byte)
    requires p == 0x28 || p == 0x29
    ensures Filter([0x1b, p, c]) ==
            if 0x30 <= c <= 0x39 || 0x41 <= c <= 0x5a || 0x61 <= c <= 0x7a then [] else [c]
  {
    if IsAlnum(c) {
      OneToken(Charset(p, c));
      assert [ESC, p] + [c] == [ESC, p, c];
    } else {
      var s := [ESC, p];
      assert s + [c] == [ESC, p, c] && s[1..] == [p] && [p][1..] == [] && (s + [c])[2..] == [c];
      PatternNames();
      forall k | 0 <= k < 5 ensures Sub(STRIP_PATTERNS[k], [c]) == [c] { NoMatch(STRIP_PATTERNS[k], [c]); }
      PassesOver(STRIP_PATTERNS[0], s, [c]);
      PassesOver(STRIP_PATTERNS[1], s, [c]);
      PassesOver(STRIP_PATTERNS[2], s, [c]);
      MatchTwo(CHARSET, s + [c]);
      SubKeepsUnmatched(CHARSET, s, [c]);
      assert BARE_ESC.rest.rest == End;
      MatchTwo(BARE_ESC, s + [c]);
      SubDropsMatch(BARE_ESC, s, [c]);
    }
  }

  // ESC and one byte: only another ESC and the two brackets are left alone.
  lemma BareEscape(b: byte)
    ensures Filter([0x1b, b]) == if b == 0x1b || b == 0x5b || b == 0x5d then [0x1b, b] else []
  {
    var s := [ESC, b];
    if b == ESC || b == OPEN || b == CLOSE {
      assert s[1..] == [b] && [b][1..] == [] && s[2..] == [];
      assert Normal([b]);
      FixedPointIff(s);
    } else if IsParen(b) {
      assert s + [] == s && s[1..] == [b] && [b][1..] == [] && s[2..] == [];
      PatternNames();
      forall k | 0 <= k < 5 ensures Sub(STRIP_PATTERNS[k], []) == [] {}
      PassesOver(STRIP_PATTERNS[0], s, []);
      PassesOver(STRIP_PATTERNS[1], s, []);
      PassesOver(STRIP_PATTERNS[2], s, []);
      MatchTwo(CHARSET, s);
      SubKeepsUnmatched(CHARSET, s, []);
      assert BARE_ESC.rest.rest == End;
      MatchTwo(BARE_ESC, s);
      SubDropsMatch(BARE_ESC, s, []);
    } else {
      OneToken(Bare(b));
      assert [ESC, b] + [] == s;
    }
  }

  // ------------------------------------------------------------- control strings and text

  // An OSC goes with its terminator, BEL or `ESC \`; without one it stays.
  lemma OperatingSystemCommand(body: seq<byte>)
    requires forall k :: 0 <= k < |body| ==> body[k] != 0x07
    ensures Filter([0x1b, 0x5d] + body + [0x07]) == []
    ensures 0x1b !in body ==> Filter([0x1b, 0x5d] + body + [0x1b, 0x5c]) == []
    ensures 0x1b !in body ==> Filter([0x1b, 0x5d] + body) == [0x1b, 0x5d] + body
  {
    IsBelFree(body);
    ConcatAssociative([ESC, CLOSE], body, [BEL]);
    OneToken(BelOsc(body));
    if 0x1b !in body {
      IsEscFree(body);
      ConcatAssociative([ESC, CLOSE], body, [ESC, BACKSLASH]);
      OneToken(StOsc(body));
      TextNormal(body);
      NormalLed(CLOSE, body);
      FixedPointIff([ESC, CLOSE] + body);
    }
  }

  // Every byte but ESC is text, the other control characters included.
  lemma PlainText(s: seq<byte>)
    requires 0x1b !in s
    ensures Filter(s) == s
  {
    IsEscFree(s);
    FilterOnlyDeletes(s);
  }
}
