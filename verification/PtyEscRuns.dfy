/**
 Runs of ESC bytes in chunks without brackets and parentheses, where only the last pass has
 anything to do: exactly which of them a second run of the filter would change again.
 */
module PtyEscRuns {
  import opened Wrappers
  import opened Regex
  import opened PtyFilter

  predicate NoIntroducer(s: seq<byte>) {
    s == [] || (s[0] != OPEN && s[0] != CLOSE && !IsParen(s[0]) && NoIntroducer(s[1..]))
  }

  // What is left of s once the complete `ESC x` pairs at its front are gone begins with an
  // ordinary byte.
  predicate PlainBehind(s: seq<byte>) {
    && s != []
    && (s[0] != ESC || (|s| > 1 && s[1] != ESC && PlainBehind(s[2..])))
  }

  // Somewhere an ESC stands before another ESC, and behind the pairs that follow it comes an
  // ordinary byte: the pairs go, and the first ESC is left in front of that byte.
  predicate Exposed(s: seq<byte>) {
    && s != []
    && if s[0] != ESC then Exposed(s[1..])
       else if |s| == 1 then false
       else if s[1] != ESC then Exposed(s[2..])
       else PlainBehind(s[1..]) || Exposed(s[1..])
  }

  lemma {:induction false} OtherPassesIdle(re: Re, s: seq<byte>)
    requires re in STRIP_PATTERNS && re != BARE_ESC && NoIntroducer(s)
    ensures Matchless(re, s)
  {
    if s != [] {
      OtherPassesIdle(re, s[1..]);
      if |s| >= 2 && s[0] == ESC {
        MatchTwo(re, s);
        AfterEsc(re);
        assert NoIntroducer(s[1..]) && s[1..][0] == s[1];
        SecondByte(re, s[1]);
      } else {
        NoMatch(re, s);
      }
    }
  }

  lemma SecondByte(re: Re, b: byte)
    requires re in STRIP_PATTERNS && re != BARE_ESC && b != OPEN && b != CLOSE && !IsParen(b)
    ensures !re.rest.accepts(b)
  {}

  lemma OnlyLastPass(s: seq<byte>)
    requires NoIntroducer(s)
    ensures Filter(s) == Sub(BARE_ESC, s)
  {
    PatternNames();
    forall re | re in STRIP_PATTERNS && re != BARE_ESC ensures Sub(re, s) == s {
      OtherPassesIdle(re, s);
      SubIdentityIff(re, s);
    }
  }

  lemma BareAt(s: seq<byte>)
    requires s != []
    ensures Match(BARE_ESC, s) == if s[0] == ESC && |s| > 1 && IsPlain(s[1]) then Some(2) else None
  {
    PatternNames();
    if s[0] == ESC && |s| > 1 {
      MatchTwo(BARE_ESC, s);
      assert BARE_ESC.rest.rest == End;
    } else {
      NoMatch(BARE_ESC, s);
    }
  }

  lemma BareStep(s: seq<byte>)
    requires NoIntroducer(s) && s != []
    ensures Sub(BARE_ESC, s) ==
            if s[0] == ESC && |s| > 1 && s[1] != ESC then Sub(BARE_ESC, s[2..]) else [s[0]] + Sub(BARE_ESC, s[1..])
    ensures NoIntroducer(s[1..]) && (|s| > 1 ==> NoIntroducer(s[2..]))
  {
    BareAt(s);
    if |s| > 1 {
      assert s[1..][0] == s[1] && s[1..][1..] == s[2..];
    }
  }

  lemma {:induction false} FirstLeft(s: seq<byte>)
    requires NoIntroducer(s)
    ensures PlainBehind(s) <==> Sub(BARE_ESC, s) != [] && Sub(BARE_ESC, s)[0] != ESC
  {
    if s != [] {
      BareStep(s);
      if s[0] == ESC && |s| > 1 && s[1] != ESC { FirstLeft(s[2..]); }
    }
  }

  lemma {:induction false} LeftNormal(s: seq<byte>)
    requires NoIntroducer(s)
    ensures Normal(Sub(BARE_ESC, s)) <==> !Exposed(s)
    ensures NoIntroducer(Sub(BARE_ESC, s))
  {
    if s != [] {
      BareStep(s);
      var r := Sub(BARE_ESC, s);
      if s[0] == ESC && |s| > 1 && s[1] != ESC {
        LeftNormal(s[2..]);
      } else {
        LeftNormal(s[1..]);
        FirstLeft(s[1..]);
        assert r[0] == s[0] && r[1..] == Sub(BARE_ESC, s[1..]);
        if s[0] == ESC { EscSettled(r); }
        if |s| == 1 { assert s[1..] == []; }
      }
    }
  }

  lemma EscSettled(r: seq<byte>)
    requires r != [] && r[0] == ESC && NoIntroducer(r)
    ensures Settled(r) <==> |r| == 1 || r[1] == ESC
  {
    if |r| > 1 { assert r[1..][0] == r[1]; }
  }

  // Main result: however many runs of ESC such a chunk has, a second run of the filter
  // changes nothing exactly when no ESC is left in front of an ordinary byte.
  lemma EscRunsIdempotentIff(s: seq<byte>)
    requires NoIntroducer(s)
    ensures Filter(Filter(s)) == Filter(s) <==> !Exposed(s)
  {
    OnlyLastPass(s);
    LeftNormal(s);
    FixedPointIff(Filter(s));
  }
}
