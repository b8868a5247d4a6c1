/** The few of Python's string operations the program relies on. */
module Text {
  // What `str.strip` takes off: the white space of the Unicode database and the four
  // separators from 28 on.
  predicate IsSpace(c: char) {
    var n := c as int;
    || 9 <= n <= 13 || 28 <= n <= 32 || n == 133 || n == 160 || n == 5760 || 8192 <= n <= 8202
    || n == 8232 || n == 8233 || n == 8239 || n == 8287 || n == 12288
  }

  function LStrip(l: string): string {
    if l != "" && IsSpace(l[0]) then LStrip(l[1..]) else l
  }

  function RStrip(l: string): string {
    if l != "" && IsSpace(l[|l| - 1]) then RStrip(l[..|l| - 1]) else l
  }

  function Strip(l: string): string { RStrip(LStrip(l)) }

  // The characters that are taken off, by code point.
  lemma SpaceCodes(c: char)
    ensures IsSpace(c) <==>
            c as int in {9, 10, 11, 12, 13, 28, 29, 30, 31, 32, 133, 160, 5760, 8192, 8193, 8194, 8195, 8196, 8197,
                         8198, 8199, 8200, 8201, 8202, 8232, 8233, 8239, 8287, 12288}
  {}

  predicate Blank(l: string) { l == "" || (IsSpace(l[0]) && Blank(l[1..])) }

  // Neither end would be stripped.
  predicate Trimmed(l: string) { l == "" || (!IsSpace(l[0]) && !IsSpace(l[|l| - 1])) }

  lemma {:induction false} BlankMeans(l: string)
    ensures Blank(l) <==> forall k :: 0 <= k < |l| ==> IsSpace(l[k])
  {
    if l != "" {
      BlankMeans(l[1..]);
      if Blank(l) {
        forall k | 0 <= k < |l| ensures IsSpace(l[k]) {
          if k > 0 { assert l[1..][k - 1] == l[k]; }
        }
      }
    }
  }

  lemma {:induction false} LStripOf(a: string, m: string)
    requires Blank(a) && (m == "" || !IsSpace(m[0]))
    ensures LStrip(a + m) == m
  {
    if a == "" {
      assert a + m == m;
    } else {
      assert (a + m)[1..] == a[1..] + m;
      LStripOf(a[1..], m);
    }
  }

  lemma {:induction false} BlankConcat(a: string, b: string)
    ensures Blank(a + b) <==> Blank(a) && Blank(b)
  {
    if a == "" {
      assert a + b == b;
    } else {
      assert (a + b)[1..] == a[1..] + b;
      BlankConcat(a[1..], b);
    }
  }

  lemma {:induction false} RStripOf(m: string, b: string)
    requires Blank(b) && (m == "" || !IsSpace(m[|m| - 1]))
    ensures RStrip(m + b) == m
  {
    if b == "" {
      assert m + b == m;
    } else {
      var front, c := b[..|b| - 1], b[|b| - 1];
      assert front + [c] == b;
      BlankConcat(front, [c]);
      assert (m + b)[..|m + b| - 1] == m + front;
      RStripOf(m, front);
    }
  }

  // What stripping means: the white space at both ends goes, and nothing else does.
  lemma StripOf(a: string, m: string, b: string)
    requires Blank(a) && Trimmed(m) && Blank(b)
    ensures Strip(a + m + b) == m
  {
    if m == "" {
      assert a + m + b == (a + b) + "";
      BlankConcat(a, b);
      LStripOf(a + b, "");
    } else {
      assert a + m + b == a + (m + b);
      LStripOf(a, m + b);
      RStripOf(m, b);
    }
  }

  lemma {:induction false} RStripEmpty(l: string)
    ensures RStrip(l) == "" ==> Blank(l)
  {
    if l != "" && IsSpace(l[|l| - 1]) {
      RStripEmpty(l[..|l| - 1]);
      assert l == l[..|l| - 1] + [l[|l| - 1]];
      BlankConcat(l[..|l| - 1], [l[|l| - 1]]);
    }
  }

  // Nothing is left exactly of white space.
  lemma {:induction false} StripEmpty(l: string)
    ensures LStrip(l) == "" <==> Blank(l)
    ensures Strip(l) == "" <==> Blank(l)
  {
    if l != "" && IsSpace(l[0]) {
      StripEmpty(l[1..]);
    } else {
      RStripEmpty(l);
    }
  }
}
