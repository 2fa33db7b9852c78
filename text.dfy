/** Text helpers of the converter: `clean_string` (strip, then collapse
    every whitespace run into one space) and the `str.join` that assembles
    lines and entries, with the `str.split` that takes them apart again. */
module Text {

  /** The characters of Python's `str.isspace()`, as inclusive ranges;
      `str.strip()` and the regular expression `\s` on a str use the
      same class. */
  const WhitespaceRanges: seq<(char, char)> := [
    (' ', ' '), ('\t', '\r'), ('\U{1C}', '\U{1F}'), ('\U{85}', '\U{85}'), ('\U{A0}', '\U{A0}'),
    ('\U{1680}', '\U{1680}'), ('\U{2000}', '\U{200A}'), ('\U{2028}', '\U{2029}'),
    ('\U{202F}', '\U{202F}'), ('\U{205F}', '\U{205F}'), ('\U{3000}', '\U{3000}')]

  predicate InRanges(c: char, ranges: seq<(char, char)>) {
    ranges != [] && ((ranges[0].0 <= c <= ranges[0].1) || InRanges(c, ranges[1..]))
  }

  predicate IsWhitespace(c: char) {
    InRanges(c, WhitespaceRanges)
  }

  /** The line feed and the space are whitespace. */
  lemma NewlineIsWhitespace()
    ensures IsWhitespace('\n') && IsWhitespace(' ')
  {
    assert WhitespaceRanges[1] == ('\t', '\r');
    assert WhitespaceRanges[1..][0] == ('\t', '\r');
  }

  predicate AllWhitespace(s: string) {
    forall k :: 0 <= k < |s| ==> IsWhitespace(s[k])
  }

  /** `s.lstrip()`: s without its longest all-whitespace prefix. */
  function TrimLeft(s: string): (r: string)
    ensures |r| <= |s| && r == s[|s| - |r|..]
    ensures AllWhitespace(s[..|s| - |r|])
    ensures r == [] || !IsWhitespace(r[0])
  {
    if s != [] && IsWhitespace(s[0]) then
      var r := TrimLeft(s[1..]);
      TrimLeftStep(s, r);
      r
    else s
  }

  /** A whitespace-free suffix of s[1..] after a whitespace prefix is one of
      s, when s starts with whitespace too. */
  lemma TrimLeftStep(s: string, r: string)
    requires s != [] && IsWhitespace(s[0])
    requires |r| <= |s| - 1 && r == s[1..][|s| - 1 - |r|..]
    requires AllWhitespace(s[1..][..|s| - 1 - |r|])
    ensures r == s[|s| - |r|..]
    ensures AllWhitespace(s[..|s| - |r|])
  {
    var t := s[1..];
    var n := |s| - |r|;
    forall k | 0 <= k < n
      ensures IsWhitespace(s[..n][k])
    {
      if k > 0 {
        assert s[..n][k] == t[..n - 1][k - 1];
      }
    }
  }

  /** `s.rstrip()`: s without its longest all-whitespace suffix. */
  function TrimRight(s: string): (r: string)
    ensures |r| <= |s| && r == s[..|r|]
    ensures AllWhitespace(s[|r|..])
    ensures r == [] || !IsWhitespace(r[|r| - 1])
  {
    if s != [] && IsWhitespace(s[|s| - 1]) then TrimRight(s[..|s| - 1]) else s
  }

  /** `s.strip()`. */
  function Strip(s: string): (r: string)
    ensures r == [] || (!IsWhitespace(r[0]) && !IsWhitespace(r[|r| - 1]))
  {
    var t := TrimLeft(s);
    var r := TrimRight(t);
    assert r != [] ==> r[0] == t[0];
    r
  }

  /** Every whitespace character of s is a plain space. */
  predicate SpacesOnly(s: string) {
    forall k :: 0 <= k < |s| && IsWhitespace(s[k]) ==> s[k] == ' '
  }

  /** No two neighbouring characters of s are both whitespace. */
  predicate NoDoubleSpace(s: string) {
    forall k :: 0 <= k < |s| - 1 ==> !(IsWhitespace(s[k]) && IsWhitespace(s[k + 1]))
  }

  /** The shape `clean_string` promises: no whitespace at either end, no
      whitespace run longer than one character, and only plain spaces. */
  predicate Normalized(s: string) {
    && (s == [] || (!IsWhitespace(s[0]) && !IsWhitespace(s[|s| - 1])))
    && SpacesOnly(s)
    && NoDoubleSpace(s)
  }

  /** `re.sub(r'\s+', ' ', s)`: each maximal whitespace run becomes one space. */
  function Collapse(s: string): (r: string)
    ensures (r == []) <==> (s == [])
    ensures r != [] ==> (IsWhitespace(r[0]) <==> IsWhitespace(s[0]))
    ensures r != [] ==> (IsWhitespace(r[|r| - 1]) <==> IsWhitespace(s[|s| - 1]))
    ensures SpacesOnly(r) && NoDoubleSpace(r)
    decreases |s|
  {
    if s == [] then []
    else if IsWhitespace(s[0]) then
      var t := TrimLeft(s);
      assert t != [] ==> t[|t| - 1] == s[|s| - 1];
      assert t == [] ==> AllWhitespace(s);
      var c := Collapse(t);
      ConsKeepsShape(' ', c);
      [' '] + c
    else
      var c := Collapse(s[1..]);
      ConsKeepsShape(s[0], c);
      [s[0]] + c
  }

  /** Putting a plain space before a string that starts visibly, or a
      visible character before any string, keeps it free of double and
      non-space whitespace. */
  lemma ConsKeepsShape(ch: char, r: string)
    requires ch == ' ' || !IsWhitespace(ch)
    requires SpacesOnly(r) && NoDoubleSpace(r)
    requires r == [] || !IsWhitespace(ch) || !IsWhitespace(r[0])
    ensures SpacesOnly([ch] + r) && NoDoubleSpace([ch] + r)
  {
    var s := [ch] + r;
    forall k | 0 <= k < |s| - 1
      ensures !(IsWhitespace(s[k]) && IsWhitespace(s[k + 1]))
    {
      if k > 0 {
        assert s[k] == r[k - 1] && s[k + 1] == r[k];
      }
    }
    forall k | 0 <= k < |s| && IsWhitespace(s[k])
      ensures s[k] == ' '
    {
      if k > 0 {
        assert s[k] == r[k - 1];
      }
    }
  }

  /** `clean_string(s)`: "" for an empty string, else `s.strip()` with its
      whitespace runs collapsed. */
  function CleanString(s: string): (r: string)
    ensures Normalized(r)
    ensures '\n' !in r
  {
    NewlineIsWhitespace();
    if s == [] then [] else Collapse(Strip(s))
  }

  /** The non-whitespace characters of s, in order. */
  function Visible(s: string): string {
    if s == [] then []
    else if IsWhitespace(s[0]) then Visible(s[1..])
    else [s[0]] + Visible(s[1..])
  }

  lemma {:induction false} VisibleConcat(a: string, b: string)
    ensures Visible(a + b) == Visible(a) + Visible(b)
  {
    if a == [] {
      assert a + b == b;
    } else {
      assert (a + b)[0] == a[0];
      assert (a + b)[1..] == a[1..] + b;
      VisibleConcat(a[1..], b);
      if !IsWhitespace(a[0]) {
        assert [a[0]] + (Visible(a[1..]) + Visible(b)) == [a[0]] + Visible(a[1..]) + Visible(b);
      }
    }
  }

  lemma {:induction false} VisibleOfWhitespace(s: string)
    requires AllWhitespace(s)
    ensures Visible(s) == []
  {
    if s != [] {
      VisibleOfWhitespace(s[1..]);
    }
  }

  lemma {:induction false} CollapseKeepsVisible(s: string)
    ensures Visible(Collapse(s)) == Visible(s)
    decreases |s|
  {
    if s != [] {
      if IsWhitespace(s[0]) {
        var t := TrimLeft(s);
        var k := |s| - |t|;
        assert s == s[..k] + t;
        VisibleConcat(s[..k], t);
        VisibleOfWhitespace(s[..k]);
        CollapseKeepsVisible(t);
        VisibleConcat([' '], Collapse(t));
      } else {
        CollapseKeepsVisible(s[1..]);
        VisibleConcat([s[0]], Collapse(s[1..]));
      }
    }
  }

  lemma {:induction false} TrimLeftKeepsVisible(s: string)
    ensures Visible(TrimLeft(s)) == Visible(s)
  {
    if s != [] && IsWhitespace(s[0]) {
      TrimLeftKeepsVisible(s[1..]);
    }
  }

  lemma {:induction false} TrimRightKeepsVisible(s: string)
    ensures Visible(TrimRight(s)) == Visible(s)
  {
    if s != [] && IsWhitespace(s[|s| - 1]) {
      var init := s[..|s| - 1];
      TrimRightKeepsVisible(init);
      assert s == init + [s[|s| - 1]];
      VisibleConcat(init, [s[|s| - 1]]);
      assert Visible([s[|s| - 1]]) == [];
    }
  }

  /** Cleaning keeps every visible character, in order: it only removes
      or rewrites whitespace. */
  lemma CleanKeepsVisible(s: string)
    ensures Visible(CleanString(s)) == Visible(s)
  {
    if s != [] {
      TrimLeftKeepsVisible(s);
      TrimRightKeepsVisible(TrimLeft(s));
      CollapseKeepsVisible(Strip(s));
    }
  }

  lemma {:induction false} CollapseFixes(s: string)
    requires SpacesOnly(s) && NoDoubleSpace(s)
    ensures Collapse(s) == s
  {
    if s != [] {
      assert SpacesOnly(s[1..]) && NoDoubleSpace(s[1..]) by {
        forall k | 0 <= k < |s[1..]| - 1
          ensures !(IsWhitespace(s[1..][k]) && IsWhitespace(s[1..][k + 1]))
        {
          assert s[1..][k] == s[k + 1] && s[1..][k + 1] == s[k + 2];
        }
      }
      if IsWhitespace(s[0]) {
        assert s[1..] == [] || !IsWhitespace(s[1]);
        assert TrimLeft(s[1..]) == s[1..];
        CollapseFixes(s[1..]);
        assert s == [' '] + s[1..];
      } else {
        CollapseFixes(s[1..]);
        assert s == [s[0]] + s[1..];
      }
    }
  }

  /** An already clean string is left unchanged. */
  lemma CleanFixesNormalized(s: string)
    requires Normalized(s)
    ensures CleanString(s) == s
  {
    if s != [] {
      assert TrimLeft(s) == s;
      assert TrimRight(s) == s;
      CollapseFixes(s);
    }
  }

  /** Cleaning twice is cleaning once. */
  lemma CleanIdempotent(s: string)
    ensures CleanString(CleanString(s)) == CleanString(s)
  {
    CleanFixesNormalized(CleanString(s));
  }

  lemma {:induction false} VisibleEmpty(s: string)
    ensures Visible(s) == [] <==> AllWhitespace(s)
  {
    if s != [] {
      VisibleEmpty(s[1..]);
      assert AllWhitespace(s) <==> IsWhitespace(s[0]) && AllWhitespace(s[1..]);
    }
  }

  /** Cleaning yields "" exactly when the input is all whitespace. */
  lemma CleanEmpty(s: string)
    ensures CleanString(s) == [] <==> AllWhitespace(s)
  {
    CleanKeepsVisible(s);
    VisibleEmpty(s);
    VisibleEmpty(CleanString(s));
  }

  /** Left-trimming stops inside a prefix that holds a visible character. */
  lemma {:induction false} TrimLeftConcat(x: string, z: string)
    requires !AllWhitespace(x)
    ensures TrimLeft(x + z) == TrimLeft(x) + z
  {
    assert (x + z)[0] == x[0];
    if IsWhitespace(x[0]) {
      var k :| 0 <= k < |x| && !IsWhitespace(x[k]);
      assert x[1..][k - 1] == x[k];
      assert (x + z)[1..] == x[1..] + z;
      TrimLeftConcat(x[1..], z);
    }
  }

  /** Left-trimming skips a whitespace prefix. */
  lemma {:induction false} TrimLeftWhitespace(w: string, y: string)
    requires AllWhitespace(w)
    ensures TrimLeft(w + y) == TrimLeft(y)
  {
    if w == [] {
      assert w + y == y;
    } else {
      assert (w + y)[0] == w[0];
      assert (w + y)[1..] == w[1..] + y;
      TrimLeftWhitespace(w[1..], y);
    }
  }

  /** Right-trimming stops inside a suffix that holds a visible character. */
  lemma {:induction false} TrimRightConcat(p: string, q: string)
    requires !AllWhitespace(q)
    ensures TrimRight(p + q) == p + TrimRight(q)
  {
    var s := p + q;
    assert s[|s| - 1] == q[|q| - 1];
    if IsWhitespace(q[|q| - 1]) {
      var k :| 0 <= k < |q| && !IsWhitespace(q[k]);
      assert q[..|q| - 1][k] == q[k];
      assert s[..|s| - 1] == p + q[..|q| - 1];
      TrimRightConcat(p, q[..|q| - 1]);
    }
  }

  /** One step of `Collapse` at a leading whitespace run. */
  lemma CollapseRun(s: string)
    requires s != [] && IsWhitespace(s[0])
    ensures Collapse(s) == [' '] + Collapse(TrimLeft(s))
  {
  }

  /** A nonempty whitespace run collapses to one space. */
  lemma CollapseWhitespace(w: string)
    requires w != [] && AllWhitespace(w)
    ensures Collapse(w) == " "
  {
    assert w + [] == w;
    TrimLeftWhitespace(w, []);
    CollapseRun(w);
  }

  lemma Associative(p: string, q: string, r: string)
    ensures p + (q + r) == (p + q) + r
  {
  }

  /** Collapsing distributes over a concatenation whose seam is not inside
      a whitespace run. */
  lemma {:induction false} CollapseConcat(x: string, z: string)
    requires x == [] || z == [] || !IsWhitespace(x[|x| - 1]) || !IsWhitespace(z[0])
    ensures Collapse(x + z) == Collapse(x) + Collapse(z)
    decreases |x|
  {
    if x == [] {
      assert x + z == z;
    } else if z == [] {
      assert x + z == x;
    } else if IsWhitespace(x[0]) && AllWhitespace(x) {
      CollapseConcatBlank(x, z);
    } else if IsWhitespace(x[0]) {
      var t := TrimLeft(x);
      assert t != [] && t[|t| - 1] == x[|x| - 1];
      CollapseConcat(t, z);
      CollapseConcatRun(x, z);
    } else {
      assert x[1..] == [] || x[1..][|x[1..]| - 1] == x[|x| - 1];
      CollapseConcat(x[1..], z);
      CollapseConcatVisible(x[0], x[1..], z);
      assert x == [x[0]] + x[1..];
    }
  }

  /** `CollapseConcat` when x is one whitespace run and z starts visibly. */
  lemma CollapseConcatBlank(x: string, z: string)
    requires x != [] && AllWhitespace(x)
    requires z != [] && !IsWhitespace(z[0])
    ensures Collapse(x + z) == Collapse(x) + Collapse(z)
  {
    assert (x + z)[0] == x[0];
    CollapseRun(x + z);
    CollapseWhitespace(x);
    TrimLeftWhitespace(x, z);
  }

  /** The inductive step of `CollapseConcat` at a leading whitespace run. */
  lemma CollapseConcatRun(x: string, z: string)
    requires x != [] && IsWhitespace(x[0]) && !AllWhitespace(x)
    requires Collapse(TrimLeft(x) + z) == Collapse(TrimLeft(x)) + Collapse(z)
    ensures Collapse(x + z) == Collapse(x) + Collapse(z)
  {
    var t := TrimLeft(x);
    assert (x + z)[0] == x[0];
    TrimLeftConcat(x, z);
    CollapseRun(x + z);
    CollapseRun(x);
    Associative([' '], Collapse(t), Collapse(z));
  }

  /** The inductive step of `CollapseConcat` at a leading visible character. */
  lemma CollapseConcatVisible(c: char, y: string, z: string)
    requires !IsWhitespace(c)
    requires Collapse(y + z) == Collapse(y) + Collapse(z)
    ensures Collapse([c] + y + z) == Collapse([c] + y) + Collapse(z)
  {
    Associative([c], y, z);
    CollapseCons(c, y + z);
    CollapseCons(c, y);
    Associative([c], Collapse(y), Collapse(z));
  }

  /** One step of `Collapse` at a leading visible character. */
  lemma CollapseCons(c: char, y: string)
    requires !IsWhitespace(c)
    ensures Collapse([c] + y) == [c] + Collapse(y)
  {
    assert ([c] + y)[0] == c;
    assert ([c] + y)[1..] == y;
  }

  /** Stripping `a + w + b`, with a and b ending and starting visibly,
      trims only the outer ends of a and b. */
  lemma StripAround(a: string, w: string, b: string)
    requires a != [] && !IsWhitespace(a[|a| - 1])
    requires b != [] && !IsWhitespace(b[0])
    ensures Strip(a + w + b) == (TrimLeft(a) + w) + TrimRight(b)
  {
    assert TrimLeft(a + w + b) == (TrimLeft(a) + w) + b by {
      assert (a + w)[|a| - 1] == a[|a| - 1];
      TrimLeftConcat(a + w, b);
      TrimLeftConcat(a, w);
    }
    assert !AllWhitespace(b);
    TrimRightConcat(TrimLeft(a) + w, b);
  }

  /** Between two visible characters, a whitespace run of any length and
      kind becomes exactly one space. */
  lemma CleanSeparatesWords(a: string, w: string, b: string)
    requires a != [] && !IsWhitespace(a[|a| - 1])
    requires w != [] && AllWhitespace(w)
    requires b != [] && !IsWhitespace(b[0])
    ensures CleanString(a + w + b) == CleanString(a) + " " + CleanString(b)
  {
    var a', b' := TrimLeft(a), TrimRight(b);
    assert a' != [] && a'[|a'| - 1] == a[|a| - 1];
    assert b' != [] && b'[0] == b[0];
    StripAround(a, w, b);
    assert Collapse((a' + w) + b') == Collapse(a') + " " + Collapse(b') by {
      CollapseConcat(a' + w, b');
      CollapseConcat(a', w);
      CollapseWhitespace(w);
    }
    assert Strip(a) == a' && Strip(b) == b';
  }

  /** Right-trimming skips a whitespace suffix. */
  lemma {:induction false} TrimRightWhitespace(p: string, w: string)
    requires AllWhitespace(w)
    ensures TrimRight(p + w) == TrimRight(p)
    decreases |w|
  {
    if w == [] {
      assert p + w == p;
    } else {
      var s := p + w;
      assert s[|s| - 1] == w[|w| - 1];
      assert s[..|s| - 1] == p + w[..|w| - 1];
      TrimRightWhitespace(p, w[..|w| - 1]);
    }
  }

  /** An all-whitespace string trims to nothing. */
  lemma TrimLeftBlank(w: string)
    requires AllWhitespace(w)
    ensures TrimLeft(w) == []
  {
    assert w + [] == w;
    TrimLeftWhitespace(w, []);
  }

  /** Stripping ignores whitespace added at either end. */
  lemma StripPadded(w1: string, s: string, w2: string)
    requires AllWhitespace(w1) && AllWhitespace(w2)
    ensures Strip(w1 + s + w2) == Strip(s)
  {
    assert w1 + s + w2 == w1 + (s + w2);
    TrimLeftWhitespace(w1, s + w2);
    if AllWhitespace(s) {
      assert AllWhitespace(s + w2);
      TrimLeftBlank(s + w2);
      TrimLeftBlank(s);
    } else {
      TrimLeftConcat(s, w2);
      TrimRightWhitespace(TrimLeft(s), w2);
    }
  }

  /** Cleaning only removes whitespace at the ends: padding a string with
      whitespace on either side does not change its cleaned form. */
  lemma CleanIgnoresPadding(w1: string, s: string, w2: string)
    requires AllWhitespace(w1) && AllWhitespace(w2)
    ensures CleanString(w1 + s + w2) == CleanString(s)
  {
    StripPadded(w1, s, w2);
    CleanIsCollapsedStrip(w1 + s + w2);
    CleanIsCollapsedStrip(s);
  }

  /** `clean_string`'s early return for "" agrees with stripping and
      collapsing. */
  lemma CleanIsCollapsedStrip(s: string)
    ensures CleanString(s) == Collapse(Strip(s))
  {
    if s == [] {
      assert Strip(s) == [];
    }
  }

  /** `sep.join(parts)`. */
  function Join(parts: seq<string>, sep: string): (r: string)
    ensures parts == [] ==> r == []
    ensures |parts| == 1 ==> r == parts[0]
  {
    if parts == [] then []
    else if |parts| == 1 then parts[0]
    else parts[0] + sep + Join(parts[1..], sep)
  }

  /** `s.split(c)` for a one-character separator: the pieces between the
      occurrences of c; there is always at least one piece. */
  function Split(s: string, c: char): (r: seq<string>)
    ensures |r| >= 1
  {
    if s == [] then [[]]
    else
      var rest := Split(s[1..], c);
      if s[0] == c then [[]] + rest else [[s[0]] + rest[0]] + rest[1..]
  }

  lemma {:induction false} SplitPiece(p: string, c: char, t: string)
    requires c !in p
    ensures Split(p + t, c) == (var rest := Split(t, c); [p + rest[0]] + rest[1..])
  {
    var rest := Split(t, c);
    if p == [] {
      assert p + t == t;
      assert p + rest[0] == rest[0];
      assert [rest[0]] + rest[1..] == rest;
    } else {
      assert (p + t)[0] == p[0];
      assert (p + t)[1..] == p[1..] + t;
      SplitPiece(p[1..], c, t);
      assert [p[0]] + (p[1..] + rest[0]) == p + rest[0];
    }
  }

  /** Splitting a joined text at its separator gives back the parts, as
      long as no part contains the separator itself. */
  lemma {:induction false} SplitJoin(parts: seq<string>, c: char)
    requires |parts| >= 1
    requires forall k :: 0 <= k < |parts| ==> c !in parts[k]
    ensures Split(Join(parts, [c]), c) == parts
  {
    if |parts| == 1 {
      SplitPiece(parts[0], c, []);
      assert parts[0] + [] == parts[0];
    } else {
      var rest := parts[1..];
      SplitJoin(rest, c);
      var tail := Join(rest, [c]);
      assert Join(parts, [c]) == parts[0] + ([c] + tail);
      SplitPiece(parts[0], c, [c] + tail);
      assert ([c] + tail)[1..] == tail;
      assert Split([c] + tail, c) == [[]] + parts[1..];
      assert parts[0] + [] == parts[0];
      assert parts == [parts[0]] + parts[1..];
    }
  }
}
