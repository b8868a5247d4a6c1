/**
 Typing a message into an agent's terminal (src/agents/messenger.py): the wedged-shell
 scan, the escape chain, and the submit loop.
 */
module Messenger {
  import opened Wrappers
  import Text

  // ------------------------------------------------------------- the escape chain

  // Python's s.replace(c, "\\" + c).
  function Replace(s: string, c: char): string {
    if s == "" then ""
    else (if s[0] == c then ['\\', c] else [s[0]]) + Replace(s[1..], c)
  }

  function Escape(s: string): string {
    Replace(Replace(Replace(s, '"'), '$'), '`')
  }

  predicate Special(c: char) { c == '"' || c == '$' || c == '`' }

  // One pass over the message.
  function EscapeEach(s: string): string {
    if s == "" then ""
    else (if Special(s[0]) then ['\\', s[0]] else [s[0]]) + EscapeEach(s[1..])
  }

  // Drops a backslash only where a special character follows it.
  function Unescape(t: string): string {
    if t == "" then ""
    else if |t| > 1 && t[0] == '\\' && Special(t[1]) then [t[1]] + Unescape(t[2..])
    else [t[0]] + Unescape(t[1..])
  }

  lemma JoinThree(a: string, b: string, c: string)
    ensures a + b + c == a + (b + c)
  {}

  lemma {:induction false} ReplaceConcat(a: string, b: string, c: char)
    ensures Replace(a + b, c) == Replace(a, c) + Replace(b, c)
  {
    if a == "" {
      assert a + b == b;
    } else {
      ReplaceConcat(a[1..], b, c);
      assert (a + b)[1..] == a[1..] + b;
      JoinThree(if a[0] == c then ['\\', c] else [a[0]], Replace(a[1..], c), Replace(b, c));
    }
  }

  // The three replacements do not disturb one another: none of them touches a backslash or
  // the character another one has escaped.
  lemma {:induction false} ChainIsOnePass(s: string)
    ensures Escape(s) == EscapeEach(s)
  {
    if s != "" {
      ChainIsOnePass(s[1..]);
      var head := if Special(s[0]) then ['\\', s[0]] else [s[0]];
      var q := if s[0] == '"' then ['\\', '"'] else [s[0]];
      var d := if s[0] == '$' then ['\\', '$'] else q;
      OnePassHead(s[0], q, d, head);
      ReplaceConcat(q, Replace(s[1..], '"'), '$');
      ReplaceConcat(d, Replace(Replace(s[1..], '"'), '$'), '`');
    }
  }

  lemma OnePassHead(c: char, q: string, d: string, head: string)
    requires q == (if c == '"' then ['\\', '"'] else [c]) && d == (if c == '$' then ['\\', '$'] else q)
    requires head == if Special(c) then ['\\', c] else [c]
    ensures Replace(q, '$') == d && Replace(d, '`') == head
  {
    ReplaceShort(q, '$');
    ReplaceShort(d, '`');
  }

  lemma ReplaceShort(t: string, c: char)
    requires 1 <= |t| <= 2
    ensures |t| == 1 ==> Replace(t, c) == if t[0] == c then ['\\', c] else t
    ensures |t| == 2 && t[0] != c && t[1] != c ==> Replace(t, c) == t
  {
    if |t| == 2 {
      assert t[1..][0] == t[1] && t[1..][1..] == "";
      assert t == [t[0]] + [t[1]];
    } else {
      assert t[1..] == "";
      assert t == [t[0]];
    }
  }

  lemma {:induction false} EscapeEachConcat(a: string, b: string)
    ensures EscapeEach(a + b) == EscapeEach(a) + EscapeEach(b)
  {
    if a == "" {
      assert a + b == b;
    } else {
      EscapeEachConcat(a[1..], b);
      assert (a + b)[1..] == a[1..] + b;
      var head := if Special(a[0]) then ['\\', a[0]] else [a[0]];
      JoinThree(head, EscapeEach(a[1..]), EscapeEach(b));
    }
  }

  // Wherever it stands, a double quote, a dollar sign or a backtick gets a backslash, and
  // every other character stays as it is.
  lemma EscapeAt(before: string, c: char, after: string)
    ensures Escape("") == ""
    ensures Escape(before + [c] + after) ==
            Escape(before) + (if c == '"' || c == '$' || c == '`' then ['\\', c] else [c]) + Escape(after)
  {
    ChainIsOnePass(before);
    ChainIsOnePass(after);
    ChainIsOnePass(before + [c] + after);
    EscapeEachConcat(before, [c]);
    EscapeEachConcat(before + [c], after);
    assert [c][1..] == "";
  }

  lemma {:induction false} UnescapeOnePass(s: string)
    ensures Unescape(EscapeEach(s)) == s
  {
    if s != "" {
      UnescapeOnePass(s[1..]);
      var t, rest := EscapeEach(s), EscapeEach(s[1..]);
      if Special(s[0]) {
        assert t[0] == '\\' && t[1] == s[0] && t[2..] == rest;
      } else {
        assert t[0] == s[0] && t[1..] == rest;
        NoSpecialFirst(s[1..]);
      }
    }
  }

  // An escaped text never starts with a bare special character, so a backslash of the
  // message's own is not mistaken for one that was added.
  lemma NoSpecialFirst(s: string)
    ensures EscapeEach(s) == "" || !Special(EscapeEach(s)[0])
  {}

  // Main result: the message comes back exactly, also when it holds backslashes already.
  lemma EscapeRoundTrip(s: string)
    ensures Unescape(Escape(s)) == s
  {
    ChainIsOnePass(s);
    UnescapeOnePass(s);
  }

  lemma EscapeInjective(s: string, t: string)
    requires Escape(s) == Escape(t)
    ensures s == t
  {
    EscapeRoundTrip(s);
    EscapeRoundTrip(t);
  }

  // Texts in which every special character has its own backslash before it.
  predicate Escaped(t: string) {
    || t == ""
    || (|t| > 1 && t[0] == '\\' && Special(t[1]) && Escaped(t[2..]))
    || (!Special(t[0]) && !(|t| > 1 && t[0] == '\\' && Special(t[1])) && Escaped(t[1..]))
  }

  // The images of the escape are exactly those texts.
  lemma {:induction false} EscapedIff(t: string)
    ensures Escaped(t) <==> EscapeEach(Unescape(t)) == t
  {
    if t == "" {
    } else if |t| > 1 && t[0] == '\\' && Special(t[1]) {
      EscapedIff(t[2..]);
      var u := Unescape(t);
      assert u[0] == t[1] && u[1..] == Unescape(t[2..]);
      assert t == [t[0], t[1]] + t[2..];
      assert EscapeEach(u)[2..] == EscapeEach(Unescape(t[2..]));
    } else {
      EscapedIff(t[1..]);
      var u := Unescape(t);
      assert u[0] == t[0] && u[1..] == Unescape(t[1..]);
      assert t == [t[0]] + t[1..];
      if Special(t[0]) {
        assert EscapeEach(u)[0] == '\\';
      } else {
        assert EscapeEach(u)[1..] == EscapeEach(Unescape(t[1..]));
      }
    }
  }

  // ------------------------------------------------------------- the wedged shell

  const PROMPTS: set<string> := {"dquote>", "quote>", "cmdsubst>", "heredoc>", "bquote>", ">"}

  ghost predicate LastIsPrompt(pane: seq<string>) {
    exists k :: 0 <= k < |pane| && Text.Strip(pane[k]) in PROMPTS && BlankAfter(pane, k)
  }

  ghost predicate BlankAfter(pane: seq<string>, k: int) {
    forall j :: k < j < |pane| ==> j >= 0 && Text.Strip(pane[j]) == ""
  }

  // White space around a line and blank lines behind it do not matter, and exactly these six
  // lines are prompts.
  lemma WedgedMeans(before: seq<string>, a: string, m: string, b: string, after: seq<string>)
    requires Text.Blank(a) && Text.Trimmed(m) && m != "" && Text.Blank(b)
    requires forall k :: 0 <= k < |after| ==> Text.Blank(after[k])
    ensures LastIsPrompt(before + [a + m + b] + after) <==>
            m == "dquote>" || m == "quote>" || m == "cmdsubst>" || m == "heredoc>" || m == "bquote>" || m == ">"
  {
    var pane, n := before + [a + m + b] + after, |before|;
    Text.StripOf(a, m, b);
    assert Text.Strip(pane[n]) == m;
    forall k | n < k < |pane| ensures Text.Strip(pane[k]) == "" {
      assert pane[k] == after[k - n - 1];
      Text.StripEmpty(pane[k]);
    }
    assert BlankAfter(pane, n);
    assert forall k :: 0 <= k < n ==> !BlankAfter(pane, k);
  }

  // No capture at all counts as not wedged.
  method PaneIsWedged(capture: Option<seq<string>>) returns (wedged: bool)
    ensures wedged <==> capture.Some? && LastIsPrompt(capture.value)
  {
    if capture.None? { return false; }
    var pane := capture.value;
    var k := |pane|;
    while k > 0
      invariant 0 <= k <= |pane|
      invariant BlankAfter(pane, k - 1)
    {
      k := k - 1;
      var stripped := Text.Strip(pane[k]);
      if stripped != "" {
        assert forall j :: 0 <= j < |pane| && BlankAfter(pane, j) && Text.Strip(pane[j]) != "" ==> j == k;
        return stripped in PROMPTS;
      }
    }
    return false;
  }

  // ------------------------------------------------------------- the submit loop

  // What one look at the pane shows; None when the capture raises.
  datatype Look = Look(confirmed: bool, textStillThere: bool)

  type Pane = nat -> Option<Look>

  const SUBMIT_ATTEMPTS: nat := 3

  datatype Delivery = Delivered | Undelivered | Unchecked

  // Whether pressing Enter again after look k goes through; it can raise as well.
  type Presses = nat -> bool

  // The look shows the text still waiting to be submitted.
  predicate Waiting(l: Option<Look>) { l.Some? && !l.value.confirmed && l.value.textStillThere }

  // Enter is pressed again only after a look that showed the text still waiting, and at most
  // twice; the text itself is never typed again. A look or a press that raises ends the loop
  // without a verdict.
  method ConfirmSubmit(pane: Pane, presses: Presses) returns (delivery: Delivery, enters: nat)
    ensures enters <= 2
    ensures forall k: nat :: k < enters ==>
      pane(k).Some? && !pane(k).value.confirmed && pane(k).value.textStillThere && presses(k)
    ensures match delivery
            case Delivered => pane(enters).Some? && (pane(enters).value.confirmed || !pane(enters).value.textStillThere)
            case Undelivered => enters == 2 && Waiting(pane(2))
            case Unchecked => pane(enters).None? || (Waiting(pane(enters)) && enters < 2 && !presses(enters))
  {
    enters := 0;
    for attempt := 0 to SUBMIT_ATTEMPTS
      invariant enters == if attempt == SUBMIT_ATTEMPTS then attempt - 1 else attempt
      invariant forall k: nat :: k < attempt ==> Waiting(pane(k))
      invariant forall k: nat :: k < enters ==> presses(k)
    {
      var look := pane(attempt);
      if look.None? { return Unchecked, enters; }
      if look.value.confirmed || !look.value.textStillThere { return Delivered, enters; }
      if attempt < SUBMIT_ATTEMPTS - 1 {
        if !presses(attempt) { return Unchecked, enters; }
        enters := enters + 1;
      }
    }
    return Undelivered, enters;
  }
}
