/**
 The terminal byte filter (src/agents/pty_filter.py): five deletions in sequence over
 each chunk read from a pty, the result written and flushed before the next read.

 Control sequences are those of ECMA-48 section 5.4, control strings those of section
 5.6; ending an operating-system command (OSC) with BEL is the xterm extension.
 */
module PtyFilter {
  import opened Wrappers
  import opened Regex

  const BEL: byte := 0x07
  const OPEN: byte := 0x5b      // [
  const CLOSE: byte := 0x5d     // ]
  const BACKSLASH: byte := 0x5c
  const QUESTION: byte := 0x3f

  predicate IsParam(b: byte) { 0x30 <= b <= 0x39 || b == 0x3b }

  // The final bytes m A B C D G H J K f: colour, cursor position and erase.
  predicate IsKeptFinal(b: byte) {
    b == 0x6d || 0x41 <= b <= 0x44 || b == 0x47 || b == 0x48 || b == 0x4a || b == 0x4b || b == 0x66
  }

  predicate IsParen(b: byte) { b == 0x28 || b == 0x29 }

  predicate IsAlnum(b: byte) { 0x30 <= b <= 0x39 || 0x41 <= b <= 0x5a || 0x61 <= b <= 0x7a }

  predicate IsPlain(b: byte) { b != ESC && b != OPEN && b != CLOSE }

  // What each pattern requires after its leading ESC.
  const OSC_BEL_BODY: Re := Star(b => b != BEL, One(b => b == BEL, End))
  const OSC_ST_BODY: Re := Star(b => b != ESC, One(b => b == ESC, One(b => b == BACKSLASH, End)))
  const CSI_BODY: Re := Star(b => IsParam(b), One(b => !IsParam(b) && !IsKeptFinal(b), End))

  const OSC_BEL: Re := One(b => b == ESC, One(b => b == CLOSE, OSC_BEL_BODY))
  const OSC_ST: Re := One(b => b == ESC, One(b => b == CLOSE, OSC_ST_BODY))
  const OTHER_CSI: Re := One(b => b == ESC, One(b => b == OPEN, Opt(b => b == QUESTION, CSI_BODY)))
  const CHARSET: Re := One(b => b == ESC, One(b => IsParen(b), One(b => IsAlnum(b), End)))
  const BARE_ESC: Re := One(b => b == ESC, One(b => IsPlain(b), End))

  const STRIP_PATTERNS: seq<Re> := [OSC_BEL, OSC_ST, OTHER_CSI, CHARSET, BARE_ESC]

  // The first n passes over one chunk, and all five.
  function Passes(n: nat, s: seq<byte>): seq<byte>
    requires n <= |STRIP_PATTERNS|
  {
    if n == 0 then s else Sub(STRIP_PATTERNS[n - 1], Passes(n - 1, s))
  }

  function Filter(s: seq<byte>): seq<byte> {
    Sub(BARE_ESC, Sub(CHARSET, Sub(OTHER_CSI, Sub(OSC_ST, Sub(OSC_BEL, s)))))
  }

  lemma PassesAreFilter(s: seq<byte>)
    ensures Passes(|STRIP_PATTERNS|, s) == Filter(s)
  {
    assert Passes(1, s) == Sub(OSC_BEL, s);
    assert Passes(2, s) == Sub(OSC_ST, Passes(1, s));
    assert Passes(3, s) == Sub(OTHER_CSI, Passes(2, s));
    assert Passes(4, s) == Sub(CHARSET, Passes(3, s));
  }

  // ------------------------------------------------- where each pattern matches

  // Length through the first BEL.
  function BelEnd(t: seq<byte>): (m: Option<nat>)
    ensures m.Some? ==> 0 < m.value <= |t|
  {
    if t == [] then None
    else if t[0] == BEL then Some(1)
    else Shift(1, BelEnd(t[1..]))
  }

  predicate HasBel(t: seq<byte>) { BelEnd(t).Some? }

  lemma {:induction false} OscBelBody(t: seq<byte>)
    ensures Match(OSC_BEL_BODY, t) == BelEnd(t)
  {
    if t != [] {
      OscBelBody(t[1..]);
      assert OSC_BEL_BODY.rest.rest == End;
      if t[0] == BEL {
        assert Match(OSC_BEL_BODY.rest, t) == Some(1);
      } else {
        assert Match(OSC_BEL_BODY.rest, t) == None;
      }
    }
  }

  // The first ESC of t is followed by a backslash; then the length through that backslash.
  function StEnd(t: seq<byte>): Option<nat> {
    if t == [] then None
    else if t[0] == ESC then (if |t| > 1 && t[1] == BACKSLASH then Some(2) else None)
    else Shift(1, StEnd(t[1..]))
  }

  lemma {:induction false} OscStBody(t: seq<byte>)
    ensures Match(OSC_ST_BODY, t) == StEnd(t)
  {
    if t != [] {
      OscStBody(t[1..]);
      var st := OSC_ST_BODY.rest;
      if t[0] == ESC {
        assert Match(st.rest, t[1..]) == if |t| > 1 && t[1] == BACKSLASH then Some(1) else None by {
          assert st.rest.rest == End;
        }
      } else {
        assert Match(st, t) == None;
      }
    }
  }

  // After `ESC [`: parameters and then one of the kept final bytes, or the chunk ends first.
  predicate KeptTail(t: seq<byte>) {
    t == [] || (IsParam(t[0]) && KeptTail(t[1..])) || IsKeptFinal(t[0])
  }

  // Parameters and then a byte that is neither a parameter nor a kept final.
  function StripEnd(t: seq<byte>): Option<nat> {
    if t == [] then None
    else if IsParam(t[0]) then Shift(1, StripEnd(t[1..]))
    else if IsKeptFinal(t[0]) then None
    else Some(1)
  }

  lemma {:induction false} CsiBody(t: seq<byte>)
    ensures Match(CSI_BODY, t) == StripEnd(t)
    ensures StripEnd(t) == None <==> KeptTail(t)
  {
    if t != [] {
      CsiBody(t[1..]);
      assert CSI_BODY.rest.rest == End;
      if !IsParam(t[0]) && !IsKeptFinal(t[0]) {
        assert Match(CSI_BODY.rest, t) == Some(1);
      } else {
        assert Match(CSI_BODY.rest, t) == None;
      }
    }
  }

  // The optional `?` backtracks: `ESC [ ?` always matches, with the whole private
  // sequence if its final byte is not kept and with the bare `?` as final byte otherwise.
  lemma OtherCsiAt(t: seq<byte>)
    ensures Match(OTHER_CSI.rest.rest, t) ==
            if t == [] || t[0] != QUESTION then StripEnd(t)
            else if StripEnd(t[1..]).Some? then Shift(1, StripEnd(t[1..])) else Some(1)
  {
    CsiBody(t);
    if t != [] { CsiBody(t[1..]); }
  }

  lemma MatchTwo(re: Re, s: seq<byte>)
    requires re in STRIP_PATTERNS && |s| >= 2 && s[0] == ESC
    ensures Match(re, s) ==
            if re.rest.accepts(s[1]) then Shift(2, Match(re.rest.rest, s[2..])) else None
  {
    assert s[1..][1..] == s[2..];
  }

  lemma NoMatch(re: Re, s: seq<byte>)
    requires re in STRIP_PATTERNS && (|s| < 2 || s[0] != ESC)
    ensures Match(re, s) == None
  {
    if s != [] && s[0] == ESC {
      assert Match(re.rest, s[1..]) == None;
    }
  }

  // An `ESC ]` runs to the first BEL behind it, however far away that is.
  lemma OscBelAt(s: seq<byte>)
    requires |s| >= 2 && s[0] == ESC
    ensures Match(OSC_BEL, s) ==
            if s[1] == CLOSE then Shift(2, BelEnd(s[2..])) else None
  {
    assert OSC_BEL == STRIP_PATTERNS[0];
    MatchTwo(OSC_BEL, s);
    OscBelBody(s[2..]);
  }

  // ------------------------------------------------------------- fixed points

  // An ESC that no pattern touches: at the chunk end, before another ESC, opening an OSC
  // that no BEL ends, or opening a kept (or cut-off) control sequence.
  predicate Settled(s: seq<byte>)
    requires s != []
  {
    s[0] == ESC ==>
      || |s| == 1
      || s[1] == ESC
      || (s[1] == CLOSE && !HasBel(s[2..]))
      || (s[1] == OPEN && KeptTail(s[2..]))
  }

  predicate Normal(s: seq<byte>) {
    s == [] || (Settled(s) && Normal(s[1..]))
  }

  lemma NormalEscFollowers(s: seq<byte>, i: nat)
    requires Normal(s) && i < |s|
    ensures Settled(s[i..])
  {
    if i > 0 {
      assert s[i..] == s[1..][i - 1..];
      NormalEscFollowers(s[1..], i - 1);
    }
  }

  // No string terminator survives in settled text.
  lemma {:induction false} NormalHasNoSt(s: seq<byte>)
    requires Normal(s)
    ensures StEnd(s) == None
  {
    if s != [] { NormalHasNoSt(s[1..]); }
  }

  // Which patterns get past the second byte.
  lemma AfterEsc(re: Re)
    requires re in STRIP_PATTERNS
    ensures !re.rest.accepts(ESC)
    ensures re.rest.accepts(OPEN) ==> re == OTHER_CSI
    ensures re.rest.accepts(CLOSE) ==> re == OSC_BEL || re == OSC_ST
  {}

  lemma SettledUnmatched(re: Re, s: seq<byte>)
    requires re in STRIP_PATTERNS && s != [] && Settled(s) && Normal(s[1..])
    ensures Match(re, s) == None
  {
    if |s| < 2 || s[0] != ESC {
      NoMatch(re, s);
    } else {
      var t := s[2..];
      MatchTwo(re, s);
      AfterEsc(re);
      if s[1] == OPEN {
        CsiBody(t);
        OtherCsiAt(t);
      } else if s[1] == CLOSE {
        assert t == s[1..][1..];
        OscBelBody(t);
        OscStBody(t);
        NormalHasNoSt(t);
      }
    }
  }

  lemma {:induction false} NormalMatchless(re: Re, s: seq<byte>)
    requires re in STRIP_PATTERNS && Normal(s)
    ensures Matchless(re, s)
  {
    if s != [] {
      SettledUnmatched(re, s);
      NormalMatchless(re, s[1..]);
    }
  }

  // Where nothing matches, every ESC is settled.
  lemma UnmatchedSettled(s: seq<byte>)
    requires s != [] && forall p :: p in STRIP_PATTERNS ==> Match(p, s) == None
    ensures Settled(s)
  {
    if |s| >= 2 && s[0] == ESC {
      var t := s[2..];
      assert OSC_BEL in STRIP_PATTERNS && OTHER_CSI in STRIP_PATTERNS && BARE_ESC in STRIP_PATTERNS;
      MatchTwo(OSC_BEL, s);
      MatchTwo(OTHER_CSI, s);
      MatchTwo(BARE_ESC, s);
      OscBelBody(t);
      OtherCsiAt(t);
      CsiBody(t);
      assert BARE_ESC.rest.rest == End;
    }
  }

  lemma {:induction false} MatchlessNormal(s: seq<byte>)
    requires forall p :: p in STRIP_PATTERNS ==> Matchless(p, s)
    ensures Normal(s)
  {
    if s != [] {
      UnmatchedSettled(s);
      MatchlessNormal(s[1..]);
    }
  }

  // The filter leaves a chunk alone exactly when every ESC in it is settled.
  lemma FixedPointIff(s: seq<byte>)
    ensures Filter(s) == s <==> Normal(s)
  {
    var s1 := Sub(OSC_BEL, s);
    var s2 := Sub(OSC_ST, s1);
    var s3 := Sub(OTHER_CSI, s2);
    var s4 := Sub(CHARSET, s3);
    if Normal(s) {
      forall p | p in STRIP_PATTERNS ensures Sub(p, s) == s {
        NormalMatchless(p, s);
        SubIdentityIff(p, s);
      }
      assert s1 == s && s2 == s && s3 == s && s4 == s;
    }
    if Filter(s) == s {
      SubOnlyDeletes(OSC_BEL, s);
      SubOnlyDeletes(OSC_ST, s1);
      SubOnlyDeletes(OTHER_CSI, s2);
      SubOnlyDeletes(CHARSET, s3);
      SubOnlyDeletes(BARE_ESC, s4);
      assert s1 == s && s2 == s && s3 == s && s4 == s;
      forall p | p in STRIP_PATTERNS ensures Matchless(p, s) { SubIdentityIff(p, s); }
      MatchlessNormal(s);
    }
  }

  // ------------------------------------------------------------- normal form

  predicate NoEscEsc(s: seq<byte>) {
    |s| < 2 || (!(s[0] == ESC && s[1] == ESC) && NoEscEsc(s[1..]))
  }

  lemma {:induction false} NoEscEscDrop(s: seq<byte>, n: nat)
    requires NoEscEsc(s) && n <= |s|
    ensures NoEscEsc(s[n..])
  {
    if n > 0 {
      NoEscEscDrop(s, n - 1);
      assert s[n..] == s[n - 1..][1..];
    }
  }

  // With no doubled ESC, a pass keeps every surviving ESC next to its own successor,
  // so no pass can create a doubled ESC or a new introducer.
  lemma {:induction false} PassKeepsFollower(re: Re, s: seq<byte>)
    requires EscLed(re) && NoEscEsc(s)
    ensures NoEscEsc(Sub(re, s))
    ensures s != [] && s[0] != ESC ==> Sub(re, s) == [s[0]] + Sub(re, s[1..])
    ensures |s| >= 2 && s[0] == ESC && Match(re, s) == None ==>
            Sub(re, s) == [ESC, s[1]] + Sub(re, s[2..])
  {
    if s != [] {
      match Match(re, s)
      case Some(n) =>
        NoEscEscDrop(s, n);
        PassKeepsFollower(re, s[n..]);
      case None =>
        PassKeepsFollower(re, s[1..]);
        assert Sub(re, s)[1..] == Sub(re, s[1..]);
        if s[0] == ESC && |s| >= 2 {
          assert s[1..][1..] == s[2..];
          assert [ESC] + ([s[1]] + Sub(re, s[2..])) == [ESC, s[1]] + Sub(re, s[2..]);
        }
    }
  }

  // A kept tail contains no ESC before it ends, so a later pass leaves it in place.
  lemma {:induction false} PassKeepsTail(re: Re, t: seq<byte>)
    requires EscLed(re) && KeptTail(t)
    ensures KeptTail(Sub(re, t))
  {
    if t != [] {
      assert Sub(re, t) == [t[0]] + Sub(re, t[1..]);
      if IsParam(t[0]) {
        PassKeepsTail(re, t[1..]);
        assert Sub(re, t)[1..] == Sub(re, t[1..]);
      }
    }
  }

  lemma {:induction false} BelEndDrop(s: seq<byte>, n: nat)
    requires !HasBel(s) && n <= |s|
    ensures !HasBel(s[n..])
  {
    if n > 0 {
      BelEndDrop(s, n - 1);
      assert s[n..] == s[n - 1..][1..];
    }
  }

  lemma {:induction false} PassAddsNoBel(re: Re, s: seq<byte>)
    requires re.One? && !HasBel(s)
    ensures !HasBel(Sub(re, s))
  {
    if s != [] {
      match Match(re, s)
      case Some(n) =>
        BelEndDrop(s, n);
        PassAddsNoBel(re, s[n..]);
      case None =>
        PassAddsNoBel(re, s[1..]);
        assert Sub(re, s)[1..] == Sub(re, s[1..]);
    }
  }

  // What has been established about every ESC once the first `stage` passes are done.
  predicate EscDone(stage: nat, s: seq<byte>)
    requires s != []
  {
    s[0] == ESC && |s| >= 2 ==>
      && (stage >= 1 && s[1] == CLOSE ==> !HasBel(s[2..]))
      && (stage >= 3 && s[1] == OPEN ==> KeptTail(s[2..]))
      && (stage >= 5 ==> !IsPlain(s[1]))
  }

  predicate Done(stage: nat, s: seq<byte>) {
    s == [] || (EscDone(stage, s) && Done(stage, s[1..]))
  }

  lemma {:induction false} DoneDrop(stage: nat, s: seq<byte>, n: nat)
    requires Done(stage, s) && n <= |s|
    ensures Done(stage, s[n..])
  {
    if n > 0 {
      assert s[n..] == s[1..][n - 1..];
      DoneDrop(stage, s[1..], n - 1);
    }
  }

  // The unmatched ESC of pass `stage` satisfies what that pass is there to establish.
  lemma UnmatchedEscDone(stage: nat, s: seq<byte>)
    requires 1 <= stage <= 5 && s != [] && EscDone(stage - 1, s)
    requires Match(STRIP_PATTERNS[stage - 1], s) == None
    ensures EscDone(stage, s)
  {
    if s[0] == ESC && |s| >= 2 {
      var re := STRIP_PATTERNS[stage - 1];
      MatchTwo(re, s);
      OscBelBody(s[2..]);
      OtherCsiAt(s[2..]);
      CsiBody(s[2..]);
      if stage == 5 { assert re.rest.rest == End; }
    }
  }

  lemma {:induction false} PassMakesDone(stage: nat, s: seq<byte>)
    requires 1 <= stage <= 5 && NoEscEsc(s) && Done(stage - 1, s)
    ensures Done(stage, Sub(STRIP_PATTERNS[stage - 1], s))
  {
    var re := STRIP_PATTERNS[stage - 1];
    if s != [] {
      PassKeepsFollower(re, s);
      match Match(re, s)
      case Some(n) =>
        NoEscEscDrop(s, n);
        DoneDrop(stage - 1, s, n);
        PassMakesDone(stage, s[n..]);
      case None =>
        var r := Sub(re, s);
        NoEscEscDrop(s, 1);
        PassMakesDone(stage, s[1..]);
        assert r[1..] == Sub(re, s[1..]);
        if s[0] == ESC && |s| >= 2 {
          UnmatchedEscDone(stage, s);
          assert r[2..] == Sub(re, s[2..]);
          if s[1] == CLOSE { PassAddsNoBel(re, s[2..]); }
          if stage >= 3 && s[1] == OPEN { PassKeepsTail(re, s[2..]); }
        }
    }
  }

  lemma {:induction false} DoneZero(s: seq<byte>)
    ensures Done(0, s)
  {
    if s != [] { DoneZero(s[1..]); }
  }

  lemma {:induction false} DoneIsNormal(s: seq<byte>)
    requires Done(5, s)
    ensures Normal(s)
  {
    if s != [] { DoneIsNormal(s[1..]); }
  }

  lemma {:induction false} PassesMakeDone(n: nat, s: seq<byte>)
    requires n <= 5 && NoEscEsc(s)
    ensures NoEscEsc(Passes(n, s)) && Done(n, Passes(n, s))
  {
    if n == 0 {
      DoneZero(s);
    } else {
      PassesMakeDone(n - 1, s);
      PassMakesDone(n, Passes(n - 1, s));
      PassKeepsFollower(STRIP_PATTERNS[n - 1], Passes(n - 1, s));
    }
  }

  // Main result: with no doubled ESC in the chunk, the output is in normal form, and in
  // particular a second run of the filter changes nothing.
  lemma FilterNormalises(s: seq<byte>)
    requires NoEscEsc(s)
    ensures Normal(Filter(s)) && NoEscEsc(Filter(s))
    ensures Filter(Filter(s)) == Filter(s)
  {
    PassesMakeDone(5, s);
    PassesAreFilter(s);
    DoneIsNormal(Filter(s));
    FixedPointIff(Filter(s));
  }

  // Normal form read out byte by byte: what may follow an ESC that survives.
  lemma NormalForm(s: seq<byte>, i: nat)
    requires NoEscEsc(s) && i < |Filter(s)| && Filter(s)[i] == ESC
    ensures var r := Filter(s);
            || i + 1 == |r|
            || (r[i + 1] == CLOSE && !HasBel(r[i + 2..]))
            || (r[i + 1] == OPEN && KeptTail(r[i + 2..]))
  {
    var r := Filter(s);
    FilterNormalises(s);
    NormalEscFollowers(r, i);
    NoEscEscDrop(r, i);
    if i + 1 < |r| { assert r[i..][2..] == r[i + 2..]; }
  }

  lemma PassesOver(re: Re, t: seq<byte>, s: seq<byte>)
    requires re in STRIP_PATTERNS && |t| >= 2 && t[0] == ESC && !re.rest.accepts(t[1]) && EscFree(t[1..])
    ensures Sub(re, t + s) == t + Sub(re, s)
  {
    MatchTwo(re, t + s);
    SubKeepsUnmatched(re, t, s);
  }

  // One ESC and an ordinary byte: only the last pass touches them.
  lemma BareEscGoes(c: byte, s: seq<byte>)
    requires IsPlain(c) && !IsParen(c)
    ensures forall k | 0 <= k < 4 :: Sub(STRIP_PATTERNS[k], [ESC, c] + s) == [ESC, c] + Sub(STRIP_PATTERNS[k], s)
    ensures Sub(BARE_ESC, [ESC, c] + s) == Sub(BARE_ESC, s)
  {
    var t := [ESC, c];
    assert t[1..] == [c] && [c][1..] == [];
    forall k | 0 <= k < 4
      ensures Sub(STRIP_PATTERNS[k], t + s) == t + Sub(STRIP_PATTERNS[k], s)
    {
      PassesOver(STRIP_PATTERNS[k], t, s);
    }
    assert BARE_ESC == STRIP_PATTERNS[4] && BARE_ESC.rest.rest == End;
    MatchTwo(BARE_ESC, t + s);
    SubDropsMatch(BARE_ESC, t, s);
  }

  lemma LoneEscStays(re: Re, s: seq<byte>)
    requires re in STRIP_PATTERNS && s != [] && s[0] == ESC
    ensures Sub(re, [ESC] + s) == [ESC] + Sub(re, s)
  {
    MatchTwo(re, [ESC] + s);
    SubKeepsUnmatched(re, [ESC], s);
  }

  lemma TextStays(re: Re, t: seq<byte>)
    requires re in STRIP_PATTERNS && EscFree(t)
    ensures Sub(re, t) == t
  {
    SubKeepsText(re, t, []);
    assert t + [] == t;
  }

  // The hypothesis cannot be dropped: in any text, a doubled ESC before an ordinary byte
  // leaves one ESC behind, and a second run takes a byte of text with it.
  lemma DoubledEscNotIdempotent(p: seq<byte>, c: byte, d: byte, q: seq<byte>)
    requires EscFree(p) && EscFree(q) && IsPlain(c) && !IsParen(c) && IsPlain(d) && !IsParen(d)
    ensures Filter(p + ([ESC] + ([ESC, c] + ([d] + q)))) == p + ([ESC, d] + q)
    ensures Filter(p + ([ESC, d] + q)) == p + q
  {
    assert ([d] + q)[1..] == q && [ESC, d] + q == [ESC] + ([d] + q);
    DoubledEscLeavesOne(p, c, [d] + q);
    LoneEscGoes(p, d, q);
  }

  lemma PatternNames()
    ensures STRIP_PATTERNS[0] == OSC_BEL && STRIP_PATTERNS[1] == OSC_ST && STRIP_PATTERNS[2] == OTHER_CSI
    ensures STRIP_PATTERNS[3] == CHARSET && STRIP_PATTERNS[4] == BARE_ESC
  {}

  lemma DoubledEscLeavesOne(p: seq<byte>, c: byte, text: seq<byte>)
    requires EscFree(p) && EscFree(text) && IsPlain(c) && !IsParen(c)
    ensures Filter(p + ([ESC] + ([ESC, c] + text))) == p + ([ESC] + text)
  {
    BareEscGoes(c, text);
    PatternNames();
    forall k | 0 <= k < 5
      ensures Sub(STRIP_PATTERNS[k], p + ([ESC] + ([ESC, c] + text))) ==
              p + ([ESC] + (if k < 4 then [ESC, c] + text else text))
    {
      SubKeepsText(STRIP_PATTERNS[k], p, [ESC] + ([ESC, c] + text));
      LoneEscStays(STRIP_PATTERNS[k], [ESC, c] + text);
      TextStays(STRIP_PATTERNS[k], text);
    }
  }

  lemma LoneEscGoes(p: seq<byte>, d: byte, q: seq<byte>)
    requires EscFree(p) && EscFree(q) && IsPlain(d) && !IsParen(d)
    ensures Filter(p + ([ESC, d] + q)) == p + q
  {
    BareEscGoes(d, q);
    PatternNames();
    forall k | 0 <= k < 5
      ensures Sub(STRIP_PATTERNS[k], p + ([ESC, d] + q)) == p + (if k < 4 then [ESC, d] + q else q)
    {
      SubKeepsText(STRIP_PATTERNS[k], p, [ESC, d] + q);
      TextStays(STRIP_PATTERNS[k], q);
    }
  }

  lemma {:induction false} TextIsNormal(p: seq<byte>, s: seq<byte>)
    requires EscFree(p)
    ensures Normal(p + s) <==> Normal(s)
  {
    if p == [] {
      assert p + s == s;
    } else {
      TextIsNormal(p[1..], s);
      assert (p + s)[1..] == p[1..] + s;
    }
  }

  // For one doubled ESC in front of an ordinary byte: a second run changes nothing exactly
  // when what follows that byte is settled behind an ESC.
  lemma DoubledEscIdempotentIff(p: seq<byte>, c: byte, text: seq<byte>)
    requires EscFree(p) && EscFree(text) && IsPlain(c) && !IsParen(c)
    ensures var s := p + ([ESC] + ([ESC, c] + text));
            Filter(Filter(s)) == Filter(s) <==> Settled([ESC] + text)
  {
    DoubledEscLeavesOne(p, c, text);
    FixedPointIff(p + ([ESC] + text));
    TextIsNormal(p, [ESC] + text);
    TextIsNormal(text, []);
    assert text + [] == text && ([ESC] + text)[1..] == text;
  }

  function Repeat(n: nat, s: seq<byte>): seq<byte> {
    if n == 0 then s else Repeat(n - 1, Filter(s))
  }

  // For arbitrary bytes: filtering again and again settles, within as many rounds as the
  // chunk has bytes.
  lemma {:induction false} RepeatSettles(n: nat, s: seq<byte>)
    requires |s| <= n
    ensures Normal(Repeat(n, s))
  {
    if n > 0 {
      FilterOnlyDeletes(s);
      if Filter(s) == s {
        FixedPointIff(s);
        RepeatOfSettled(n, s);
      } else {
        RepeatSettles(n - 1, Filter(s));
      }
    }
  }

  lemma {:induction false} RepeatOfSettled(n: nat, s: seq<byte>)
    requires Filter(s) == s
    ensures Repeat(n, s) == s
  {
    if n > 0 { RepeatOfSettled(n - 1, s); }
  }

  // For arbitrary bytes: the output is a subsequence of the input, and text without ESC
  // comes out byte for byte.
  lemma FilterOnlyDeletes(s: seq<byte>)
    ensures Subseq(Filter(s), s)
    ensures |Filter(s)| <= |s| && (|Filter(s)| == |s| ==> Filter(s) == s)
    ensures EscFree(s) ==> Filter(s) == s
  {
    var s1 := Sub(OSC_BEL, s);
    var s2 := Sub(OSC_ST, s1);
    var s3 := Sub(OTHER_CSI, s2);
    var s4 := Sub(CHARSET, s3);
    SubOnlyDeletes(OSC_BEL, s);
    SubOnlyDeletes(OSC_ST, s1);
    SubOnlyDeletes(OTHER_CSI, s2);
    SubOnlyDeletes(CHARSET, s3);
    SubOnlyDeletes(BARE_ESC, s4);
    SubseqTransitive(s2, s1, s);
    SubseqTransitive(s3, s2, s);
    SubseqTransitive(s4, s3, s);
    SubseqTransitive(Filter(s), s4, s);
    if EscFree(s) {
      forall p | p in STRIP_PATTERNS ensures Sub(p, s) == s { TextStays(p, s); }
      assert s1 == s && s2 == s && s3 == s && s4 == s;
    }
  }
}
