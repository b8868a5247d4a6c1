/**
 What the filter does to well-formed terminal output: a stream of text and complete
 control sequences. On such input the five byte-level passes are a token filter, and
 cutting the stream into reads between tokens does not matter.
 */
module PtyTokens {
  import opened Wrappers
  import opened Regex
  import opened PtyFilter

  datatype Token =
    | Text(bytes: seq<byte>)
    | KeptCsi(params: seq<byte>, final: byte)
    | PrivateKept(params: seq<byte>, final: byte)
    | OtherCsi(private: bool, params: seq<byte>, final: byte)
    | BelOsc(body: seq<byte>)
    | StOsc(body: seq<byte>)
    | Charset(paren: byte, code: byte)
    | Bare(c: byte)

  predicate Params(s: seq<byte>) {
    s == [] || (IsParam(s[0]) && Params(s[1..]))
  }

  // The shape of each token. A `?` straight after `ESC [` starts a private sequence, and
  // `ESC (` starts a charset selection, so neither counts as something else.
  predicate WellFormed(t: Token) {
    match t
    case Text(b) => EscFree(b)
    case KeptCsi(ps, f) => Params(ps) && IsKeptFinal(f)
    case PrivateKept(ps, f) => Params(ps) && IsKeptFinal(f)
    case OtherCsi(q, ps, f) =>
      && Params(ps) && !IsParam(f) && !IsKeptFinal(f) && f != ESC
      && (!q && ps == [] ==> f != QUESTION)
    case BelOsc(b) => !HasBel(b)
    case StOsc(b) => EscFree(b) && !HasBel(b)
    case Charset(p, c) => IsParen(p) && IsAlnum(c)
    case Bare(c) => IsPlain(c) && !IsParen(c)
  }

  // The pass (counted from 0) that touches a token; 5 for those that stay. All of it goes,
  // except that a private sequence with a kept final only loses its introducer.
  function RemovedBy(t: Token): nat {
    match t
    case BelOsc(_) => 0
    case StOsc(_) => 1
    case PrivateKept(_, _) => 2
    case OtherCsi(_, _, _) => 2
    case Charset(_, _) => 3
    case Bare(_) => 4
    case _ => 5
  }

  predicate Kept(t: Token) { RemovedBy(t) == 5 }

  // Well-formed, and already rid of what the first n passes remove.
  predicate Clean(n: nat, ts: seq<Token>) {
    ts == [] || (WellFormed(ts[0]) && n <= RemovedBy(ts[0]) && Clean(n, ts[1..]))
  }

  predicate AllWellFormed(ts: seq<Token>) { Clean(0, ts) }

  // The byte after a sequence's ESC, and everything behind it.
  function Introducer(t: Token): byte
    requires !t.Text?
  {
    match t
    case KeptCsi(_, _) => OPEN
    case PrivateKept(_, _) => OPEN
    case OtherCsi(_, _, _) => OPEN
    case BelOsc(_) => CLOSE
    case StOsc(_) => CLOSE
    case Charset(p, _) => p
    case Bare(c) => c
  }

  function Lead(private: bool): seq<byte> {
    if private then [QUESTION] else []
  }

  function Tail(t: Token): seq<byte>
    requires !t.Text?
  {
    match t
    case KeptCsi(ps, f) => ps + [f]
    case PrivateKept(ps, f) => Lead(true) + (ps + [f])
    case OtherCsi(q, ps, f) => Lead(q) + (ps + [f])
    case BelOsc(b) => b + [BEL]
    case StOsc(b) => b + [ESC, BACKSLASH]
    case Charset(_, c) => [c]
    case Bare(_) => []
  }

  function Bytes(t: Token): seq<byte> {
    if t.Text? then t.bytes else [ESC, Introducer(t)] + Tail(t)
  }

  function Render(ts: seq<Token>): seq<byte> {
    if ts == [] then [] else Bytes(ts[0]) + Render(ts[1..])
  }

  function Shown(t: Token): seq<byte> {
    if Kept(t) then Bytes(t) else if t.PrivateKept? then t.params + [t.final] else []
  }

  // What is left in place of a token by the pass that touches it.
  function Residue(t: Token): seq<Token> {
    if t.PrivateKept? then [Text(t.params + [t.final])] else []
  }

  // The bytes that are meant to reach the transcript.
  function Visible(ts: seq<Token>): seq<byte> {
    if ts == [] then []
    else Shown(ts[0]) + Visible(ts[1..])
  }

  // ------------------------------------------------------------- the first pass

  // The tokens left after the first BEL; a text that holds it loses its head.
  function SkipToBel(ts: seq<Token>): (r: seq<Token>)
    ensures |r| <= |ts|
  {
    if ts == [] then []
    else if HasBel(Bytes(ts[0])) then
      if ts[0].Text? then [Text(ts[0].bytes[BelEnd(ts[0].bytes).value..])] + ts[1..] else ts[1..]
    else SkipToBel(ts[1..])
  }

  // A BEL-terminated OSC goes; an ST-terminated one with a BEL anywhere behind it is
  // taken for a BEL-terminated one and swallows everything up to that BEL.
  function DropBelOscs(ts: seq<Token>): seq<Token>
    decreases |ts|
  {
    if ts == [] then []
    else if ts[0].BelOsc? then DropBelOscs(ts[1..])
    else if ts[0].StOsc? && HasBel(Render(ts[1..])) then DropBelOscs(SkipToBel(ts[1..]))
    else [ts[0]] + DropBelOscs(ts[1..])
  }

  // What a pass leaves of one token.
  function Left(pass: nat, t: Token): seq<Token> {
    if RemovedBy(t) == pass then Residue(t) else [t]
  }

  function Without(pass: nat, ts: seq<Token>): seq<Token> {
    if ts == [] then []
    else Left(pass, ts[0]) + Without(pass, ts[1..])
  }

  // Everything up to and including the next BEL is noise that would have gone anyway.
  predicate NoiseToBel(ts: seq<Token>) {
    ts == [] || (Shown(ts[0]) == [] && (HasBel(Bytes(ts[0])) || NoiseToBel(ts[1..])))
  }

  // No ST-terminated OSC has visible output between itself and a later BEL. In particular
  // this holds when no BEL follows an ST-terminated OSC at all.
  predicate NothingSwallowed(ts: seq<Token>)
    decreases |ts|
  {
    if ts == [] then true
    else if ts[0].StOsc? && HasBel(Render(ts[1..])) then
      NoiseToBel(ts[1..]) && NothingSwallowed(SkipToBel(ts[1..]))
    else NothingSwallowed(ts[1..])
  }

  lemma {:induction false} BelEndConcat(a: seq<byte>, b: seq<byte>)
    ensures BelEnd(a + b) == if HasBel(a) then BelEnd(a) else Shift(|a|, BelEnd(b))
  {
    if a == [] {
      assert a + b == b;
    } else {
      assert (a + b)[1..] == a[1..] + b;
      BelEndConcat(a[1..], b);
    }
  }

  lemma {:induction false} ParamsArePlain(ps: seq<byte>)
    requires Params(ps)
    ensures !HasBel(ps) && EscFree(ps)
  {
    if ps != [] { ParamsArePlain(ps[1..]); }
  }

  // Apart from text, a token's only BEL is its last byte; kept sequences, ST-terminated
  // OSCs and charset selections have none.
  lemma TailBel(t: Token)
    requires WellFormed(t) && !t.Text?
    ensures Introducer(t) == BEL ==> t.Bare?
    ensures HasBel(Tail(t)) ==> BelEnd(Tail(t)) == Some(|Tail(t)|) && (t.OtherCsi? || t.BelOsc?)
    ensures t.BelOsc? ==> HasBel(Tail(t))
  {
    match t
    case KeptCsi(ps, f) => ParamsBel(ps, f, false);
    case PrivateKept(ps, f) => ParamsBel(ps, f, true);
    case OtherCsi(q, ps, f) => ParamsBel(ps, f, q);
    case BelOsc(b) =>
      BelEndConcat(b, [BEL]);
    case StOsc(b) =>
      BelEndConcat(b, [ESC, BACKSLASH]);
      assert [ESC, BACKSLASH][1..] == [BACKSLASH];
    case Charset(_, _) =>
    case Bare(_) =>
  }

  lemma ParamsBel(ps: seq<byte>, f: byte, private: bool)
    requires Params(ps)
    ensures BelEnd(Lead(private) + (ps + [f])) == if f == BEL then Some(|Lead(private) + (ps + [f])|) else None
    ensures !private ==> Lead(private) + (ps + [f]) == ps + [f]
  {
    ParamsArePlain(ps);
    BelEndConcat(ps, [f]);
    BelEndConcat(Lead(private), ps + [f]);
  }

  lemma BelIsLast(t: Token)
    requires WellFormed(t) && !t.Text? && HasBel(Bytes(t))
    ensures Shown(t) == [] && BelEnd(Bytes(t)) == Some(|Bytes(t)|)
  {
    var intro := [ESC, Introducer(t)];
    TailBel(t);
    BelEndConcat(intro, Tail(t));
    assert intro[1..] == [Introducer(t)];
  }

  lemma {:induction false} SkipToBelRenders(ts: seq<Token>)
    requires AllWellFormed(ts) && HasBel(Render(ts))
    ensures AllWellFormed(SkipToBel(ts))
    ensures Render(SkipToBel(ts)) == Render(ts)[BelEnd(Render(ts)).value..]
  {
    var w, rest := Bytes(ts[0]), Render(ts[1..]);
    BelEndConcat(w, rest);
    if !HasBel(w) {
      SkipToBelRenders(ts[1..]);
      DropConcat(w, rest, BelEnd(rest).value);
    } else if ts[0].Text? {
      TextCut(w, ts[1..], BelEnd(w).value);
    } else {
      BelIsLast(ts[0]);
      DropConcat(w, rest, 0);
    }
  }

  lemma TextCut(w: seq<byte>, ts: seq<Token>, k: nat)
    requires EscFree(w) && AllWellFormed(ts) && k <= |w|
    ensures AllWellFormed([Text(w[k..])] + ts)
    ensures Render([Text(w[k..])] + ts) == (w + Render(ts))[k..]
  {
    var r := [Text(w[k..])] + ts;
    assert r[1..] == ts && r[0] == Text(w[k..]);
    assert EscFree(w[k..]) by {
      assert w == w[..k] + w[k..];
      EscFreeConcat(w[..k], w[k..]);
    }
    CutInside(w, Render(ts), k);
  }

  lemma CutInside(w: seq<byte>, s: seq<byte>, k: nat)
    requires k <= |w|
    ensures w[k..] + s == (w + s)[k..]
  {}

  // ------------------------------------------------ each pass, token by token

  lemma TokenSplit(t: Token, s: seq<byte>)
    requires !t.Text?
    ensures |Bytes(t) + s| >= 2 && (Bytes(t) + s)[0] == ESC && (Bytes(t) + s)[1] == Introducer(t)
    ensures (Bytes(t) + s)[2..] == Tail(t) + s
  {
    ConcatAssociative([ESC, Introducer(t)], Tail(t), s);
    DropConcat([ESC, Introducer(t)], Tail(t) + s, 0);
  }

  // A pass at a token's own ESC: it matches exactly the token it removes, and nothing else.
  lemma MatchAtToken(pass: nat, t: Token, s: seq<byte>)
    requires 1 <= pass < 5 && WellFormed(t) && !t.Text? && pass <= RemovedBy(t)
    requires pass == 2 ==> !t.PrivateKept?
    ensures Match(STRIP_PATTERNS[pass], Bytes(t) + s) == if RemovedBy(t) == pass then Some(|Bytes(t)|) else None
  {
    var re, all := STRIP_PATTERNS[pass], Bytes(t) + s;
    TokenSplit(t, s);
    MatchTwo(re, all);
    assert |Bytes(t)| == 2 + |Tail(t)|;
    IntroducedBy(pass, t);
    if re.rest.accepts(Introducer(t)) {
      MatchTail(pass, t, s);
      assert Match(re, all) == Shift(2, Match(re.rest.rest, Tail(t) + s));
    } else {
      assert Match(re, all) == None;
    }
  }

  lemma IntroducedBy(pass: nat, t: Token)
    requires 1 <= pass < 5 && WellFormed(t) && !t.Text? && pass <= RemovedBy(t)
    ensures STRIP_PATTERNS[pass].rest.accepts(Introducer(t)) <==>
            RemovedBy(t) == pass || (pass == 2 && t.KeptCsi?)
  {}

  lemma MatchTail(pass: nat, t: Token, s: seq<byte>)
    requires 1 <= pass < 5 && WellFormed(t) && !t.Text? && pass <= RemovedBy(t)
    requires STRIP_PATTERNS[pass].rest.accepts(Introducer(t)) && (pass == 2 ==> !t.PrivateKept?)
    ensures Match(STRIP_PATTERNS[pass].rest.rest, Tail(t) + s) ==
            if RemovedBy(t) == pass then Some(|Tail(t)|) else None
  {
    IntroducedBy(pass, t);
    if pass == 1 {
      StTail(t.body, s);
    } else if pass == 2 {
      var q := t.OtherCsi? && t.private;
      ConcatAssociative(Lead(q), t.params + [t.final], s);
      ConcatAssociative(t.params, [t.final], s);
      CsiTail(q, t.params, t.final, s);
      if !q { assert Lead(q) + (t.params + ([t.final] + s)) == t.params + ([t.final] + s); }
    } else if pass == 3 {
      assert (Tail(t) + s)[0] == t.code;
      assert CHARSET.rest.rest.rest == End;
      assert Match(End, (Tail(t) + s)[1..]) == Some(0);
    } else {
      assert BARE_ESC.rest.rest == End;
    }
  }

  lemma StTail(body: seq<byte>, s: seq<byte>)
    requires EscFree(body)
    ensures Match(OSC_ST_BODY, (body + [ESC, BACKSLASH]) + s) == Some(|body| + 2)
  {
    ConcatAssociative(body, [ESC, BACKSLASH], s);
    OscStBody(body + ([ESC, BACKSLASH] + s));
    StEndAt(body, [ESC, BACKSLASH] + s);
  }

  lemma CsiTail(q: bool, ps: seq<byte>, f: byte, s: seq<byte>)
    requires Params(ps) && !IsParam(f) && (!q && ps == [] ==> f != QUESTION) && (q ==> !IsKeptFinal(f))
    ensures Match(OTHER_CSI.rest.rest, Lead(q) + (ps + ([f] + s))) ==
            if IsKeptFinal(f) then None else Some((if q then 1 else 0) + |ps| + 1)
  {
    var tail := ps + ([f] + s);
    StripEndAt(ps, [f] + s);
    if q {
      assert ([QUESTION] + tail)[1..] == tail;
      OtherCsiAt([QUESTION] + tail);
    } else {
      assert [] + tail == tail;
      assert tail[0] == if ps == [] then f else ps[0];
      OtherCsiAt(tail);
    }
  }

  lemma {:induction false} StEndAt(b: seq<byte>, s: seq<byte>)
    requires EscFree(b) && |s| >= 2 && s[0] == ESC && s[1] == BACKSLASH
    ensures StEnd(b + s) == Some(|b| + 2)
  {
    if b == [] {
      assert b + s == s;
    } else {
      assert (b + s)[1..] == b[1..] + s;
      StEndAt(b[1..], s);
    }
  }

  lemma {:induction false} StripEndAt(ps: seq<byte>, s: seq<byte>)
    requires Params(ps) && s != [] && !IsParam(s[0])
    ensures StripEnd(ps + s) == if IsKeptFinal(s[0]) then None else Some(|ps| + 1)
  {
    if ps == [] {
      assert ps + s == s;
    } else {
      assert (ps + s)[1..] == ps[1..] + s;
      StripEndAt(ps[1..], s);
    }
  }

  // Bytes of a surviving token after its leading ESC hold no further ESC, save for the
  // terminator of an ST-terminated OSC.
  lemma TailEscFree(t: Token)
    requires WellFormed(t) && !t.Text? && !t.BelOsc? && !t.StOsc?
    ensures EscFree(Bytes(t)[1..])
  {
    assert Bytes(t)[1..] == [Introducer(t)] + Tail(t);
    assert Bytes(t)[1..][1..] == Tail(t);
    if t.KeptCsi? || t.PrivateKept? || t.OtherCsi? {
      ParamsArePlain(t.params);
      EscFreeConcat(t.params, [t.final]);
      if !t.KeptCsi? { EscFreeConcat(Lead(t.PrivateKept? || t.private), t.params + [t.final]); }
    }
  }

  lemma PassOnToken(pass: nat, t: Token, s: seq<byte>)
    requires 1 <= pass < 5 && WellFormed(t) && pass <= RemovedBy(t)
    ensures Sub(STRIP_PATTERNS[pass], Bytes(t) + s) ==
            (if RemovedBy(t) == pass then Render(Residue(t)) else Bytes(t)) + Sub(STRIP_PATTERNS[pass], s)
  {
    var re := STRIP_PATTERNS[pass];
    if t.Text? {
      SubKeepsText(re, t.bytes, s);
    } else if t.PrivateKept? && pass == 2 {
      PrivateLosesIntroducer(t.params, t.final, s);
    } else {
      MatchAtToken(pass, t, s);
      if RemovedBy(t) == pass {
        SubDropsMatch(re, Bytes(t), s);
      } else {
        TailEscFree(t);
        SubKeepsUnmatched(re, Bytes(t), s);
      }
    }
  }

  // `ESC [ ?` matches on its own, and the rest stays behind as text.
  lemma PrivateLosesIntroducer(ps: seq<byte>, f: byte, s: seq<byte>)
    requires Params(ps) && IsKeptFinal(f)
    ensures Bytes(PrivateKept(ps, f)) == [ESC, OPEN, QUESTION] + (ps + [f])
    ensures Render([Text(ps + [f])]) == ps + [f]
    ensures Sub(OTHER_CSI, Bytes(PrivateKept(ps, f)) + s) == (ps + [f]) + Sub(OTHER_CSI, s)
  {
    var head, text := [ESC, OPEN, QUESTION], ps + [f];
    ParamsArePlain(ps);
    EscFreeConcat(ps, [f]);
    assert [ESC, OPEN] + Lead(true) == head;
    ConcatAssociative([ESC, OPEN], Lead(true), text);
    ConcatAssociative(head, text, s);
    var all := head + (text + s);
    assert all[2..] == [QUESTION] + (text + s) && all[2..][1..] == text + s;
    assert OTHER_CSI == STRIP_PATTERNS[2];
    MatchTwo(OTHER_CSI, all);
    OtherCsiAt(all[2..]);
    ConcatAssociative(ps, [f], s);
    StripEndAt(ps, [f] + s);
    SubDropsMatch(OTHER_CSI, head, text + s);
    SubKeepsText(OTHER_CSI, text, s);
    assert Render([Text(text)]) == text + Render([Text(text)][1..]);
  }

  // One later pass over the whole stream.
  lemma {:induction false} PassOnTokens(pass: nat, ts: seq<Token>)
    requires 1 <= pass < 5 && Clean(pass, ts)
    ensures Sub(STRIP_PATTERNS[pass], Render(ts)) == Render(Without(pass, ts))
    ensures Clean(pass + 1, Without(pass, ts))
    ensures Visible(Without(pass, ts)) == Visible(ts)
  {
    if ts != [] {
      var rest := Without(pass, ts[1..]);
      PassOnTokens(pass, ts[1..]);
      PassOnToken(pass, ts[0], Render(ts[1..]));
      LeftJoins(pass, ts[0], rest);
    }
  }

  lemma LeftJoins(pass: nat, t: Token, rest: seq<Token>)
    requires pass < 5 && WellFormed(t) && pass <= RemovedBy(t) && Clean(pass + 1, rest)
    ensures Clean(pass + 1, Left(pass, t) + rest)
    ensures Render(Left(pass, t) + rest) ==
            (if RemovedBy(t) == pass then Render(Residue(t)) else Bytes(t)) + Render(rest)
    ensures Visible(Left(pass, t) + rest) == Shown(t) + Visible(rest)
  {
    var left := Left(pass, t);
    if left == [] {
      assert left + rest == rest;
      assert Render([]) == [];
    } else {
      assert (left + rest)[1..] == rest && (left + rest)[0] == left[0];
      LeftIsClean(pass, t);
    }
  }

  lemma LeftIsClean(pass: nat, t: Token)
    requires WellFormed(t) && pass <= RemovedBy(t) && Left(pass, t) != []
    ensures var left := Left(pass, t)[0];
            && WellFormed(left) && pass < RemovedBy(left) && Shown(left) == Shown(t)
            && Bytes(left) == if RemovedBy(t) == pass then Render(Residue(t)) else Bytes(t)
  {
    if t.PrivateKept? {
      ParamsArePlain(t.params);
      EscFreeConcat(t.params, [t.final]);
      var text := Text(t.params + [t.final]);
      assert Residue(t) == [text] && [text][1..] == [];
      assert Render([text]) == Bytes(text) + Render([text][1..]);
    }
  }

  lemma {:induction false} AllKeptVisible(ts: seq<Token>)
    requires Clean(5, ts)
    ensures Render(ts) == Visible(ts)
  {
    if ts != [] { AllKeptVisible(ts[1..]); }
  }

  // The first pass, which looks arbitrarily far ahead for its BEL.
  lemma {:induction false} FirstPassOnTokens(ts: seq<Token>)
    requires AllWellFormed(ts)
    ensures Sub(OSC_BEL, Render(ts)) == Render(DropBelOscs(ts))
    ensures Clean(1, DropBelOscs(ts))
    decreases |ts|
  {
    if ts != [] {
      var t, rest := ts[0], Render(ts[1..]);
      if t.BelOsc? {
        BelOscGoes(t, rest);
        FirstPassOnTokens(ts[1..]);
      } else if t.StOsc? && HasBel(rest) {
        StOscSwallows(t, rest);
        SkipToBelRenders(ts[1..]);
        FirstPassOnTokens(SkipToBel(ts[1..]));
      } else {
        TokenStays(t, rest);
        FirstPassOnTokens(ts[1..]);
        var d := DropBelOscs(ts);
        assert d[0] == t && d[1..] == DropBelOscs(ts[1..]);
      }
    }
  }

  lemma BelOscGoes(t: Token, s: seq<byte>)
    requires WellFormed(t) && t.BelOsc?
    ensures Sub(OSC_BEL, Bytes(t) + s) == Sub(OSC_BEL, s)
  {
    TokenSplit(t, s);
    TailBel(t);
    BelEndConcat(Tail(t), s);
    OscBelAt(Bytes(t) + s);
    SubDropsMatch(OSC_BEL, Bytes(t), s);
  }

  lemma StOscSwallows(t: Token, s: seq<byte>)
    requires WellFormed(t) && t.StOsc? && HasBel(s)
    ensures Sub(OSC_BEL, Bytes(t) + s) == Sub(OSC_BEL, s[BelEnd(s).value..])
  {
    TokenSplit(t, s);
    TailBel(t);
    BelEndConcat(Tail(t), s);
    OscBelAt(Bytes(t) + s);
    DropConcat(Bytes(t), s, BelEnd(s).value);
  }

  lemma TokenStays(t: Token, s: seq<byte>)
    requires WellFormed(t) && !t.BelOsc? && (t.StOsc? ==> !HasBel(s))
    ensures Sub(OSC_BEL, Bytes(t) + s) == Bytes(t) + Sub(OSC_BEL, s)
  {
    if t.StOsc? {
      StOscStays(t, s);
    } else {
      OtherStays(t, s);
    }
  }

  // Both of its ESC bytes are looked at, and neither opens a BEL-terminated sequence.
  lemma StOscStays(t: Token, s: seq<byte>)
    requires WellFormed(t) && t.StOsc? && !HasBel(s)
    ensures Sub(OSC_BEL, Bytes(t) + s) == Bytes(t) + Sub(OSC_BEL, s)
  {
    var head, st := [ESC, CLOSE] + t.body, [ESC, BACKSLASH];
    ConcatAssociative([ESC, CLOSE], t.body, st);
    ConcatAssociative(head, st, s);
    ConcatAssociative(head, st, Sub(OSC_BEL, s));
    ConcatAssociative([ESC, CLOSE], t.body, st + s);
    DropConcat([ESC, CLOSE], t.body + (st + s), 0);
    BelEndConcat(t.body, st + s);
    BelEndConcat(st, s);
    assert st[1..] == [BACKSLASH];
    OscBelAt(head + (st + s));
    assert head[1..] == [CLOSE] + t.body && head[1..][1..] == t.body;
    SubKeepsUnmatched(OSC_BEL, head, st + s);
    OscBelAt(st + s);
    SubKeepsUnmatched(OSC_BEL, st, s);
  }

  lemma OtherStays(t: Token, s: seq<byte>)
    requires WellFormed(t) && !t.BelOsc? && !t.StOsc?
    ensures Sub(OSC_BEL, Bytes(t) + s) == Bytes(t) + Sub(OSC_BEL, s)
  {
    if t.Text? {
      SubKeepsText(OSC_BEL, t.bytes, s);
    } else {
      TokenSplit(t, s);
      OscBelAt(Bytes(t) + s);
      TailEscFree(t);
      SubKeepsUnmatched(OSC_BEL, Bytes(t), s);
    }
  }

  // ------------------------------------------------------------- what is lost

  // Skipping to the BEL loses nothing visible, or the result is strictly shorter.
  lemma {:induction false} SkipLoses(ts: seq<Token>)
    ensures NoiseToBel(ts) ==> Visible(SkipToBel(ts)) == Visible(ts)
    ensures !NoiseToBel(ts) ==> |Visible(SkipToBel(ts))| < |Visible(ts)|
  {
    if ts != [] {
      var t, rest := ts[0], ts[1..];
      assert Visible(ts) == Shown(t) + Visible(rest);
      if !HasBel(Bytes(t)) {
        SkipLoses(rest);
      } else if t.Text? {
        VisibleCons(Text(t.bytes[BelEnd(t.bytes).value..]), rest);
      }
    }
  }

  lemma VisibleCons(t: Token, ts: seq<Token>)
    ensures Visible([t] + ts) == Shown(t) + Visible(ts)
    ensures Shown(t) == [] ==> Visible([t] + ts) == Visible(ts)
  {
    assert ([t] + ts)[1..] == ts;
  }

  lemma {:induction false} FirstPassLoses(ts: seq<Token>)
    ensures NothingSwallowed(ts) ==> Visible(DropBelOscs(ts)) == Visible(ts)
    ensures !NothingSwallowed(ts) ==> |Visible(DropBelOscs(ts))| < |Visible(ts)|
    decreases |ts|
  {
    if ts != [] {
      var t, rest := ts[0], ts[1..];
      assert ts == [t] + rest;
      VisibleCons(t, rest);
      if t.StOsc? && HasBel(Render(rest)) {
        SkipLoses(rest);
        FirstPassLoses(SkipToBel(rest));
      } else {
        FirstPassLoses(rest);
        VisibleCons(t, DropBelOscs(rest));
      }
    }
  }

  lemma LaterPasses(ts: seq<Token>)
    requires Clean(1, ts)
    ensures Sub(BARE_ESC, Sub(CHARSET, Sub(OTHER_CSI, Sub(OSC_ST, Render(ts))))) == Visible(ts)
  {
    assert STRIP_PATTERNS[1] == OSC_ST && STRIP_PATTERNS[2] == OTHER_CSI;
    assert STRIP_PATTERNS[3] == CHARSET && STRIP_PATTERNS[4] == BARE_ESC;
    PassOnTokens(1, ts);
    var t1 := Without(1, ts);
    PassOnTokens(2, t1);
    var t2 := Without(2, t1);
    PassOnTokens(3, t2);
    var t3 := Without(3, t2);
    PassOnTokens(4, t3);
    AllKeptVisible(Without(4, t3));
  }

  // Main result: five byte-level passes over the rendered stream are one token filter,
  // and they keep exactly the visible tokens if and only if nothing visible was swallowed.
  lemma FilterOfTokens(ts: seq<Token>)
    requires AllWellFormed(ts)
    ensures Filter(Render(ts)) == Visible(DropBelOscs(ts))
    ensures Filter(Render(ts)) == Visible(ts) <==> NothingSwallowed(ts)
  {
    FirstPassOnTokens(ts);
    LaterPasses(DropBelOscs(ts));
    FirstPassLoses(ts);
  }

  // A checkable special case: no BEL anywhere behind an ST-terminated OSC.
  predicate NoBelAfterSt(ts: seq<Token>) {
    ts == [] || ((ts[0].StOsc? ==> !HasBel(Render(ts[1..]))) && NoBelAfterSt(ts[1..]))
  }

  lemma {:induction false} NoBelAfterStSuffices(ts: seq<Token>)
    requires NoBelAfterSt(ts)
    ensures NothingSwallowed(ts)
  {
    if ts != [] { NoBelAfterStSuffices(ts[1..]); }
  }

  // ------------------------------------------------------------- cut sequences

  // A private sequence cut after its parameters does not survive unstripped, as the module
  // documentation has it: its introducer goes with the first read, its parameters and
  // final byte stay behind as text.
  lemma CutPrivateSequence(ps: seq<byte>, qs: seq<byte>, f: byte)
    requires Params(ps) && Params(qs) && f != ESC
    ensures Filter([ESC, OPEN, QUESTION] + ps) + Filter(qs + [f]) == ps + qs + [f]
  {
    ParamsArePlain(ps);
    ParamsArePlain(qs);
    EscFreeConcat(qs, [f]);
    FilterOnlyDeletes(qs + [f]);
    FilterOnlyDeletes(ps);
    IntroducerGoes(ps);
  }

  lemma IntroducerGoes(ps: seq<byte>)
    requires Params(ps)
    ensures Filter([ESC, OPEN, QUESTION] + ps) == Filter(ps)
  {
    var s := [ESC, OPEN, QUESTION] + ps;
    ParamsArePlain(ps);
    assert s[1..] == [OPEN, QUESTION] + ps && s + [] == s;
    forall k | 0 <= k < 2 ensures Sub(STRIP_PATTERNS[k], s) == s && Sub(STRIP_PATTERNS[k], ps) == ps {
      var re := STRIP_PATTERNS[k];
      MatchTwo(re, s + []);
      SubKeepsUnmatched(re, s, []);
      SubKeepsText(re, ps, []);
      assert ps + [] == ps;
    }
    assert STRIP_PATTERNS[0] == OSC_BEL && STRIP_PATTERNS[1] == OSC_ST;
    CutIntroducer(ps);
  }

  lemma CutIntroducer(ps: seq<byte>)
    requires Params(ps)
    ensures Sub(OTHER_CSI, [ESC, OPEN, QUESTION] + ps) == Sub(OTHER_CSI, ps)
  {
    var s := [ESC, OPEN, QUESTION] + ps;
    assert s[2..] == [QUESTION] + ps && s[2..][1..] == ps;
    assert OTHER_CSI == STRIP_PATTERNS[2];
    MatchTwo(OTHER_CSI, s);
    OtherCsiAt(s[2..]);
    StripEndOfParams(ps);
    SubDropsMatch(OTHER_CSI, [ESC, OPEN, QUESTION], ps);
  }

  lemma {:induction false} StripEndOfParams(ps: seq<byte>)
    requires Params(ps)
    ensures StripEnd(ps) == None
  {
    if ps != [] { StripEndOfParams(ps[1..]); }
  }
}
