/**
 A control sequence split across two reads. The module documentation says that it survives
 unstripped; this says for every kind of sequence which of its cuts do.
 */
module PtyCuts {
  import opened Wrappers
  import opened Regex
  import opened PtyFilter
  import opened PtyTokens

  // The cut after the first k bytes leaves every byte of the sequence in the transcript.
  predicate CutSurvives(t: Token, k: nat)
    requires !t.Text? && 0 < k < |Bytes(t)|
  {
    match t
    case KeptCsi(_, _) => true
    case PrivateKept(_, _) => k <= 2             // a first part with the `?` loses its introducer
    case OtherCsi(private, _, _) => private ==> k <= 2
    case BelOsc(b) =>                            // sequences inside the body are still sequences
      var j := if k <= 2 then 0 else k - 2;
      Normal(b[..j]) && Normal(b[j..] + [BEL])
    case StOsc(_) => k == |Bytes(t)| - 1         // an uncut terminator is stripped as a bare ESC
    case Charset(_, _) => k == 1                 // ESC and the paren alone are a bare ESC
    case Bare(_) => true
  }

  lemma BothFixed(a: seq<byte>, b: seq<byte>)
    ensures Filter(a) + Filter(b) == a + b <==> Normal(a) && Normal(b)
  {
    FilterOnlyDeletes(a);
    FilterOnlyDeletes(b);
    FixedPointIff(a);
    FixedPointIff(b);
    if Filter(a) + Filter(b) == a + b {
      assert |Filter(a)| + |Filter(b)| == |a| + |b|;
    }
  }

  lemma NormalAfterByte(i: byte, x: seq<byte>)
    requires i != ESC
    ensures Normal([i] + x) <==> Normal(x)
  {
    assert ([i] + x)[1..] == x;
  }

  lemma NormalLed(i: byte, x: seq<byte>)
    requires i != ESC
    ensures Normal([ESC, i] + x) <==>
            ((i == CLOSE && !HasBel(x)) || (i == OPEN && KeptTail(x))) && Normal(x)
  {
    var s := [ESC, i] + x;
    assert s[1..] == [i] + x && s[2..] == x;
    NormalAfterByte(i, x);
  }

  lemma TextNormal(x: seq<byte>)
    requires EscFree(x)
    ensures Normal(x)
  {
    TextIsNormal(x, []);
    assert x + [] == x;
  }

  lemma {:induction false} EscFreeParts(x: seq<byte>, j: nat)
    requires EscFree(x) && j <= |x|
    ensures EscFree(x[..j]) && EscFree(x[j..])
  {
    assert x == x[..j] + x[j..];
    EscFreeConcat(x[..j], x[j..]);
  }

  lemma {:induction false} ParamsPrefix(ps: seq<byte>, j: nat)
    requires Params(ps) && j <= |ps|
    ensures Params(ps[..j])
  {
    if j > 0 {
      ParamsPrefix(ps[1..], j - 1);
      assert ps[..j][1..] == ps[1..][..j - 1];
    }
  }

  // A part of `ESC [` and parameters that stops short of the final byte.
  lemma ParamsKept(ps: seq<byte>, f: byte, j: nat)
    requires Params(ps) && j <= |ps|
    ensures KeptTail((ps + [f])[..j])
  {
    assert (ps + [f])[..j] == ps[..j];
    ParamsPrefix(ps, j);
    StripEndOfParams(ps[..j]);
    CsiBody(ps[..j]);
  }

  lemma HasBelParts(b: seq<byte>, j: nat)
    requires !HasBel(b) && j <= |b|
    ensures !HasBel(b[..j])
  {
    assert b == b[..j] + b[j..];
    BelEndConcat(b[..j], b[j..]);
  }

  lemma CutParts(t: Token, k: nat)
    requires !t.Text? && 0 < k < |Bytes(t)|
    ensures k == 1 ==> Bytes(t)[..k] == [ESC] && Bytes(t)[k..] == [Introducer(t)] + Tail(t)
    ensures k >= 2 ==> k - 2 <= |Tail(t)| && Bytes(t)[..k] == [ESC, Introducer(t)] + Tail(t)[..k - 2]
    ensures k >= 2 ==> Bytes(t)[k..] == Tail(t)[k - 2..]
    ensures Bytes(t)[..k] + Bytes(t)[k..] == Bytes(t)
  {
    SplitBehindTwo(ESC, Introducer(t), Tail(t), k);
  }

  lemma SplitBehindTwo(x: byte, y: byte, tail: seq<byte>, k: nat)
    requires 0 < k < |tail| + 2
    ensures var s := [x, y] + tail;
            && (k == 1 ==> s[..k] == [x] && s[k..] == [y] + tail)
            && (k >= 2 ==> s[..k] == [x, y] + tail[..k - 2] && s[k..] == tail[k - 2..])
            && s[..k] + s[k..] == s
  {}

  // When both parts of a cut are settled, in terms of what follows the introducer.
  lemma CutNormal(t: Token, k: nat)
    requires WellFormed(t) && !t.Text? && 0 < k < |Bytes(t)| && Introducer(t) != ESC
    ensures var tail, i := Tail(t), Introducer(t);
            Normal(Bytes(t)[..k]) && Normal(Bytes(t)[k..]) <==>
            if k == 1 then Normal(tail)
            else ((i == CLOSE && !HasBel(tail[..k - 2])) || (i == OPEN && KeptTail(tail[..k - 2])))
                 && Normal(tail[..k - 2]) && Normal(tail[k - 2..])
  {
    CutParts(t, k);
    if k == 1 {
      NormalAfterByte(Introducer(t), Tail(t));
    } else {
      NormalLed(Introducer(t), Tail(t)[..k - 2]);
    }
  }

  lemma CsiCut(t: Token, k: nat)
    requires WellFormed(t) && 0 < k < |Bytes(t)|
    requires t.KeptCsi? || (t.OtherCsi? && !t.private)
    ensures Normal(Bytes(t)[..k]) && Normal(Bytes(t)[k..])
  {
    CutNormal(t, k);
    CsiTailIs(t);
    CsiParts(t.params, t.final, if k == 1 then 0 else k - 2);
  }

  lemma CsiParts(ps: seq<byte>, f: byte, j: nat)
    requires Params(ps) && f != ESC && j <= |ps|
    ensures var tail := ps + [f];
            Normal(tail) && KeptTail(tail[..j]) && Normal(tail[..j]) && Normal(tail[j..])
  {
    ParamsArePlain(ps);
    EscFreeConcat(ps, [f]);
    TextNormal(ps + [f]);
    PartsNormal(ps + [f], j);
    ParamsKept(ps, f, j);
  }

  lemma CsiTailIs(t: Token)
    requires t.KeptCsi? || (t.OtherCsi? && !t.private)
    ensures Tail(t) == t.params + [t.final] && Introducer(t) == OPEN
  {
    assert [] + (t.params + [t.final]) == t.params + [t.final];
  }

  lemma PartsNormal(x: seq<byte>, j: nat)
    requires EscFree(x) && j <= |x|
    ensures Normal(x[..j]) && Normal(x[j..])
  {
    EscFreeParts(x, j);
    TextNormal(x[..j]);
    TextNormal(x[j..]);
  }

  lemma PrivateCut(t: Token, k: nat)
    requires WellFormed(t) && 0 < k < |Bytes(t)|
    requires t.PrivateKept? || (t.OtherCsi? && t.private)
    ensures Normal(Bytes(t)[..k]) && Normal(Bytes(t)[k..]) <==> k <= 2
  {
    CutNormal(t, k);
    TailEscFree(t);
    var tail := Tail(t);
    assert Bytes(t)[1..][1..] == tail;
    assert tail[0] == QUESTION;
    TextNormal(tail);
    if k == 2 {
      assert tail[..0] == [] && tail[0..] == tail;
    }
  }

  lemma BelOscCut(t: Token, k: nat)
    requires WellFormed(t) && t.BelOsc? && 0 < k < |Bytes(t)|
    ensures Normal(Bytes(t)[..k]) && Normal(Bytes(t)[k..]) <==> CutSurvives(t, k)
  {
    CutNormal(t, k);
    var b, tail := t.body, t.body + [BEL];
    assert b[..0] == [] && b[0..] == b;
    if k >= 2 {
      assert tail[..k - 2] == b[..k - 2] && tail[k - 2..] == b[k - 2..] + [BEL];
      HasBelParts(b, k - 2);
    }
  }

  lemma StOscCut(t: Token, k: nat)
    requires WellFormed(t) && t.StOsc? && 0 < k < |Bytes(t)|
    ensures Normal(Bytes(t)[..k]) && Normal(Bytes(t)[k..]) <==> k == |Bytes(t)| - 1
  {
    CutNormal(t, k);
    var b, st := t.body, [ESC, BACKSLASH];
    NormalLed(BACKSLASH, []);
    assert [ESC, BACKSLASH] + [] == st;
    TextIsNormal(b, st);
    if 2 <= k <= |b| + 2 {
      EscFreeParts(b, k - 2);
      TextIsNormal(b[k - 2..], st);
      assert (b + st)[k - 2..] == b[k - 2..] + st;
    } else if k > 2 {
      assert (b + st)[..k - 2] == b + [ESC] && (b + st)[k - 2..] == [BACKSLASH];
      BelEndConcat(b, [ESC]);
      TextIsNormal(b, [ESC]);
      TextNormal([BACKSLASH]);
    }
  }

  lemma ShortCut(t: Token, k: nat)
    requires WellFormed(t) && (t.Charset? || t.Bare?) && 0 < k < |Bytes(t)|
    ensures Normal(Bytes(t)[..k]) && Normal(Bytes(t)[k..]) <==> k == 1
  {
    CutNormal(t, k);
    TailEscFree(t);
    assert Bytes(t)[1..][1..] == Tail(t);
    TextNormal(Tail(t));
  }

  // Main result: filtering the two parts leaves the whole sequence exactly for these cuts.
  lemma CutSurvivesIff(t: Token, k: nat)
    requires WellFormed(t) && !t.Text? && 0 < k < |Bytes(t)|
    ensures Filter(Bytes(t)[..k]) + Filter(Bytes(t)[k..]) == Bytes(t) <==> CutSurvives(t, k)
  {
    CutParts(t, k);
    BothFixed(Bytes(t)[..k], Bytes(t)[k..]);
    match t
    case KeptCsi(_, _) => CsiCut(t, k);
    case PrivateKept(_, _) => PrivateCut(t, k);
    case OtherCsi(private, _, _) => if private { PrivateCut(t, k); } else { CsiCut(t, k); }
    case BelOsc(_) => BelOscCut(t, k);
    case StOsc(_) => StOscCut(t, k);
    case Charset(_, _) => ShortCut(t, k);
    case Bare(_) => ShortCut(t, k);
  }

  // ------------------------------------------------------------- with other output around it

  // The first read ends in the cut sequence: what comes before it is filtered on its own,
  // because nothing in the first part ends an OSC.
  lemma {:induction false} FirstPassThen(ts: seq<Token>, x: seq<byte>)
    requires AllWellFormed(ts) && !HasBel(x)
    ensures Sub(OSC_BEL, Render(ts) + x) == Render(DropBelOscs(ts)) + Sub(OSC_BEL, x)
    ensures Clean(1, DropBelOscs(ts))
    decreases |ts|
  {
    if ts == [] {
      assert Render(ts) + x == x;
    } else {
      var t, rest := ts[0], Render(ts[1..]);
      ConcatAssociative(Bytes(t), rest, x);
      BelEndConcat(rest, x);
      if t.BelOsc? {
        BelOscGoes(t, rest + x);
        FirstPassThen(ts[1..], x);
      } else if t.StOsc? && HasBel(rest) {
        StOscSwallows(t, rest + x);
        SkipToBelRenders(ts[1..]);
        CutInside(rest, x, BelEnd(rest).value);
        FirstPassThen(SkipToBel(ts[1..]), x);
      } else {
        TokenStays(t, rest + x);
        FirstPassThen(ts[1..], x);
        ConcatAssociative(Bytes(t), Render(DropBelOscs(ts[1..])), Sub(OSC_BEL, x));
        var d := DropBelOscs(ts);
        assert d[0] == t && d[1..] == DropBelOscs(ts[1..]);
      }
    }
  }

  ghost function PassOf(pass: nat): seq<byte> -> seq<byte>
    requires pass < 5
  {
    (s: seq<byte>) => Sub(STRIP_PATTERNS[pass], s)
  }

  function LeftBytes(pass: nat, t: Token): seq<byte> {
    if RemovedBy(t) == pass then Render(Residue(t)) else Bytes(t)
  }

  // A deletion that treats tokens one by one, whatever follows them.
  ghost predicate ByToken(f: seq<byte> -> seq<byte>, pass: nat) {
    forall t, s {:trigger f(Bytes(t) + s)} :: WellFormed(t) && pass <= RemovedBy(t) ==>
      f(Bytes(t) + s) == LeftBytes(pass, t) + f(s)
  }

  lemma PassByToken(pass: nat)
    requires 1 <= pass < 5
    ensures ByToken(PassOf(pass), pass)
  {
    forall t, s | WellFormed(t) && pass <= RemovedBy(t)
      ensures PassOf(pass)(Bytes(t) + s) == LeftBytes(pass, t) + PassOf(pass)(s)
    {
      PassOnToken(pass, t, s);
    }
  }

  lemma {:induction false} PassThen(f: seq<byte> -> seq<byte>, pass: nat, ts: seq<Token>, x: seq<byte>)
    requires 1 <= pass < 5 && Clean(pass, ts) && ByToken(f, pass)
    ensures f(Render(ts) + x) == Render(Without(pass, ts)) + f(x)
    ensures Clean(pass + 1, Without(pass, ts)) && Visible(Without(pass, ts)) == Visible(ts)
  {
    if ts == [] {
      assert Render(ts) + x == x;
    } else {
      var t, after, rest := ts[0], Render(ts[1..]), Without(pass, ts[1..]);
      PassThen(f, pass, ts[1..], x);
      ConcatAssociative(Bytes(t), after, x);
      assert f(Bytes(t) + (after + x)) == LeftBytes(pass, t) + f(after + x);
      LeftJoins(pass, t, rest);
      ConcatAssociative(LeftBytes(pass, t), Render(rest), f(x));
    }
  }

  lemma FourPasses(f1: seq<byte> -> seq<byte>, f2: seq<byte> -> seq<byte>, f3: seq<byte> -> seq<byte>,
                   f4: seq<byte> -> seq<byte>, t0: seq<Token>, x: seq<byte>)
    requires Clean(1, t0) && ByToken(f1, 1) && ByToken(f2, 2) && ByToken(f3, 3) && ByToken(f4, 4)
    ensures f4(f3(f2(f1(Render(t0) + x)))) == Visible(t0) + f4(f3(f2(f1(x))))
  {
    PassThen(f1, 1, t0, x);
    var t1 := Without(1, t0);
    PassThen(f2, 2, t1, f1(x));
    var t2 := Without(2, t1);
    PassThen(f3, 3, t2, f2(f1(x)));
    var t3 := Without(3, t2);
    PassThen(f4, 4, t3, f3(f2(f1(x))));
    AllKeptVisible(Without(4, t3));
  }

  ghost function Later(s: seq<byte>): seq<byte> { PassOf(4)(PassOf(3)(PassOf(2)(PassOf(1)(s)))) }

  lemma FilterIs(s: seq<byte>)
    ensures Filter(s) == Later(Sub(OSC_BEL, s))
  {
    PatternNames();
  }

  lemma FilterThen(ts: seq<Token>, x: seq<byte>)
    requires AllWellFormed(ts) && !HasBel(x)
    ensures Filter(Render(ts) + x) == Filter(Render(ts)) + Filter(x)
  {
    FirstPassThen(ts, x);
    FilterIs(Render(ts) + x);
    FilterIs(x);
    PassByToken(1);
    PassByToken(2);
    PassByToken(3);
    PassByToken(4);
    FourPasses(PassOf(1), PassOf(2), PassOf(3), PassOf(4), DropBelOscs(ts), Sub(OSC_BEL, x));
    FilterOfTokens(ts);
  }

  // The second read begins with the rest of it, which is finished before the next token.
  lemma FilterAfterText(y: seq<byte>, s: seq<byte>)
    requires EscFree(y)
    ensures Filter(y + s) == Filter(y) + Filter(s)
  {
    PatternNames();
    FilterOnlyDeletes(y);
    SubKeepsText(OSC_BEL, y, s);
    SubKeepsText(OSC_ST, y, Sub(OSC_BEL, s));
    SubKeepsText(OTHER_CSI, y, Sub(OSC_ST, Sub(OSC_BEL, s)));
    SubKeepsText(CHARSET, y, Sub(OTHER_CSI, Sub(OSC_ST, Sub(OSC_BEL, s))));
    SubKeepsText(BARE_ESC, y, Sub(CHARSET, Sub(OTHER_CSI, Sub(OSC_ST, Sub(OSC_BEL, s)))));
  }

  lemma FilterAfterSt(b: seq<byte>, post: seq<Token>)
    requires EscFree(b) && AllWellFormed(post)
    ensures Filter((b + [ESC, BACKSLASH]) + Render(post)) == Filter(b + [ESC, BACKSLASH]) + Filter(Render(post))
  {
    HeadFilters(b, post);
    HeadFilters(b, []);
    FilterOfTokens(post);
    var st := b + [ESC, BACKSLASH];
    assert st + Render([]) == st && b + Visible(DropBelOscs([])) == b;
  }

  lemma HeadFilters(b: seq<byte>, post: seq<Token>)
    requires EscFree(b) && AllWellFormed(post)
    ensures Filter((b + [ESC, BACKSLASH]) + Render(post)) == b + Visible(DropBelOscs(post))
  {
    HeadRenders(b, post);
    FilterOfTokens([Text(b), Bare(BACKSLASH)] + post);
  }

  lemma HeadRenders(b: seq<byte>, post: seq<Token>)
    requires EscFree(b) && AllWellFormed(post)
    ensures var ts := [Text(b), Bare(BACKSLASH)] + post;
            && AllWellFormed(ts) && Render(ts) == (b + [ESC, BACKSLASH]) + Render(post)
            && Visible(DropBelOscs(ts)) == b + Visible(DropBelOscs(post))
  {
    var x, y := Text(b), Bare(BACKSLASH);
    var ts, tail := [x, y] + post, [y] + post;
    assert ts[1..] == tail && tail[1..] == post;
    assert Bytes(y) == [ESC, BACKSLASH];
    ConcatAssociative(b, [ESC, BACKSLASH], Render(post));
    assert DropBelOscs(tail) == [y] + DropBelOscs(post);
    assert DropBelOscs(ts) == [x] + DropBelOscs(tail);
    VisibleCons(y, DropBelOscs(post));
    VisibleCons(x, DropBelOscs(tail));
  }

  // Settled bytes up to a BEL are left alone by every pass, whatever follows.
  lemma {:induction false} NormalThen(re: Re, y: seq<byte>, s: seq<byte>)
    requires re in STRIP_PATTERNS && Normal(y) && y != [] && y[|y| - 1] == BEL
    ensures Sub(re, y + s) == y + Sub(re, s)
  {
    var rest := y[1..];
    assert (y + s)[1..] == rest + s && y == [y[0]] + rest;
    if y[0] == ESC {
      assert rest != [] && rest[|rest| - 1] == BEL;
      UnmatchedThen(re, y, s);
    } else {
      NoMatch(re, [y[0]]);
      FirstByte(re, y, s);
    }
    assert Sub(re, y + s) == [y[0]] + Sub(re, rest + s);
    if rest == [] {
      assert rest + s == s;
    } else {
      NormalThen(re, rest, s);
      ConcatAssociative([y[0]], rest, Sub(re, s));
    }
  }

  lemma FirstByte(re: Re, y: seq<byte>, s: seq<byte>)
    requires re in STRIP_PATTERNS && y != [] && y[0] != ESC
    ensures Match(re, y + s) == None
  {
    NoMatch(re, y + s);
  }

  lemma UnmatchedThen(re: Re, y: seq<byte>, s: seq<byte>)
    requires re in STRIP_PATTERNS && |y| >= 2 && y[0] == ESC && y[|y| - 1] == BEL && Settled(y)
    ensures Match(re, y + s) == None
  {
    var tail := y[2..];
    assert (y + s)[2..] == tail + s && (y + s)[1] == y[1];
    MatchTwo(re, y + s);
    AfterEsc(re);
    if y[1] == CLOSE {
      EndsInBel(tail);
      assert false;
    } else if y[1] == OPEN {
      KeptThen(tail, s);
      if re == OTHER_CSI { OtherCsiAt(tail + s); }
    }
  }

  lemma {:induction false} EndsInBel(x: seq<byte>)
    requires x != [] && x[|x| - 1] == BEL
    ensures HasBel(x)
  {
    if x[0] != BEL { EndsInBel(x[1..]); }
  }

  lemma {:induction false} KeptThen(x: seq<byte>, s: seq<byte>)
    requires KeptTail(x) && x != [] && x[|x| - 1] == BEL
    ensures StripEnd(x + s) == None && x[0] != QUESTION
  {
    assert (x + s)[1..] == x[1..] + s;
    if IsParam(x[0]) { KeptThen(x[1..], s); }
  }

  lemma FilterAfterNormal(y: seq<byte>, s: seq<byte>)
    requires Normal(y) && y != [] && y[|y| - 1] == BEL
    ensures Filter(y + s) == Filter(y) + Filter(s)
  {
    PatternNames();
    FixedPointIff(y);
    NormalThen(OSC_BEL, y, s);
    NormalThen(OSC_ST, y, Sub(OSC_BEL, s));
    NormalThen(OTHER_CSI, y, Sub(OSC_ST, Sub(OSC_BEL, s)));
    NormalThen(CHARSET, y, Sub(OTHER_CSI, Sub(OSC_ST, Sub(OSC_BEL, s))));
    NormalThen(BARE_ESC, y, Sub(CHARSET, Sub(OTHER_CSI, Sub(OSC_ST, Sub(OSC_BEL, s)))));
  }

  lemma {:induction false} BelEndPrefix(x: seq<byte>, j: nat)
    requires j < |x| && (!HasBel(x) || BelEnd(x) == Some(|x|))
    ensures !HasBel(x[..j])
  {
    if j > 0 {
      BelEndPrefix(x[1..], j - 1);
      assert x[..j][1..] == x[1..][..j - 1];
    }
  }

  lemma FirstPartNoBel(t: Token, k: nat)
    requires WellFormed(t) && !t.Text? && 0 < k < |Bytes(t)|
    ensures !HasBel(Bytes(t)[..k])
  {
    CutParts(t, k);
    TailBel(t);
    if k >= 2 {
      BelEndPrefix(Tail(t), k - 2);
      BelEndConcat([ESC, Introducer(t)], Tail(t)[..k - 2]);
      assert [ESC, Introducer(t)][1..] == [Introducer(t)];
    }
  }

  lemma StOscRestThen(t: Token, k: nat, post: seq<Token>)
    requires WellFormed(t) && t.StOsc? && 0 < k < |Bytes(t)| && AllWellFormed(post)
    ensures Filter(Bytes(t)[k..] + Render(post)) == Filter(Bytes(t)[k..]) + Filter(Render(post))
  {
    CutParts(t, k);
    var st := [ESC, BACKSLASH];
    if k == 1 {
      EscFreeConcat([CLOSE], t.body);
      ConcatAssociative([CLOSE], t.body, st);
      FilterAfterSt([CLOSE] + t.body, post);
    } else if k - 2 <= |t.body| {
      EscFreeParts(t.body, k - 2);
      assert (t.body + st)[k - 2..] == t.body[k - 2..] + st;
      FilterAfterSt(t.body[k - 2..], post);
    } else {
      assert (t.body + st)[k - 2..] == [BACKSLASH];
      FilterAfterText([BACKSLASH], Render(post));
    }
  }

  lemma BelOscRestThen(t: Token, k: nat, post: seq<Token>)
    requires WellFormed(t) && t.BelOsc? && 0 < k < |Bytes(t)| && Normal(Bytes(t)[k..])
    ensures Filter(Bytes(t)[k..] + Render(post)) == Filter(Bytes(t)[k..]) + Filter(Render(post))
  {
    var all := Bytes(t);
    assert all[|all| - 1] == BEL;
    assert all[k..][|all[k..]| - 1] == BEL;
    FilterAfterNormal(all[k..], Render(post));
  }

  lemma SecondPartThen(t: Token, k: nat, post: seq<Token>)
    requires WellFormed(t) && !t.Text? && 0 < k < |Bytes(t)| && AllWellFormed(post)
    requires t.BelOsc? ==> Normal(Bytes(t)[k..])
    ensures Filter(Bytes(t)[k..] + Render(post)) == Filter(Bytes(t)[k..]) + Filter(Render(post))
  {
    if t.StOsc? {
      StOscRestThen(t, k, post);
    } else if t.BelOsc? {
      BelOscRestThen(t, k, post);
    } else {
      TailEscFree(t);
      EscFreeParts(Bytes(t)[1..], k - 1);
      assert Bytes(t)[1..][k - 1..] == Bytes(t)[k..];
      FilterAfterText(Bytes(t)[k..], Render(post));
    }
  }

  // Main result: a sequence cut in two reads, with any complete output before it in the
  // first read and after it in the second, leaves its bytes between theirs exactly for the
  // same cuts. Of a BEL-terminated OSC with sequences inside its body, no complete one may
  // be in the second part.
  lemma CutInContextIff(pre: seq<Token>, t: Token, k: nat, post: seq<Token>)
    requires AllWellFormed(pre) && AllWellFormed(post)
    requires WellFormed(t) && !t.Text? && 0 < k < |Bytes(t)| && (t.BelOsc? ==> Normal(Bytes(t)[k..]))
    ensures (Filter(Render(pre) + Bytes(t)[..k]) + Filter(Bytes(t)[k..] + Render(post)) ==
             Filter(Render(pre)) + (Bytes(t) + Filter(Render(post)))) <==> CutSurvives(t, k)
  {
    var a, b := Filter(Bytes(t)[..k]), Filter(Bytes(t)[k..]);
    FirstPartNoBel(t, k);
    FilterThen(pre, Bytes(t)[..k]);
    SecondPartThen(t, k, post);
    CutSurvivesIff(t, k);
    Between(Filter(Render(pre)), a, b, Bytes(t), Filter(Render(post)));
  }

  lemma Between(x: seq<byte>, a: seq<byte>, b: seq<byte>, m: seq<byte>, z: seq<byte>)
    ensures ((x + a) + (b + z) == x + (m + z)) <==> a + b == m
  {
    assert (x + a) + (b + z) == x + ((a + b) + z);
    if x + ((a + b) + z) == x + (m + z) {
      assert (x + ((a + b) + z))[|x|..] == (a + b) + z;
      assert (x + (m + z))[|x|..] == m + z;
      assert |a + b| == |m|;
      assert ((a + b) + z)[..|m|] == a + b && (m + z)[..|m|] == m;
    }
  }
}
