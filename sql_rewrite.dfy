/** `process_sql` of `src/db.py`: the rewrite of the `named` parameter style
    (`:name`) into the `pyformat` style (`%(name)s`), the two `paramstyle`
    values of PEP 249 (Python DB-API 2.0), and the detection of templates
    that already hold pyformat markers.

    Word characters (the regex class `\w`) are the ASCII letters, digits and
    the underscore. */
module SqlRewrite {
  import opened Common

  predicate IsWordChar(c: char)
  {
    ('a' <= c <= 'z') || ('A' <= c <= 'Z') || ('0' <= c <= '9') || c == '_'
  }

  predicate IsWord(w: string)
  {
    forall i :: 0 <= i < |w| ==> IsWordChar(w[i])
  }

  predicate NoColon(s: string)
  {
    forall i :: 0 <= i < |s| ==> s[i] != ':'
  }

  /** `s` holds no `:` directly followed by a word character: nothing in it
      is a named placeholder. */
  predicate NoNamedMarker(s: string)
  {
    forall i :: 0 <= i < |s| - 1 ==> !(s[i] == ':' && IsWordChar(s[i + 1]))
  }

  function NamedMarker(w: string): string
  {
    ":" + w
  }

  function PyformatMarker(w: string): string
  {
    "%(" + w + ")s"
  }

  /** The length of the longest run of word characters at the start of `s`,
      which is what the greedy `\w+` consumes. */
  function WordRun(s: string): (n: nat)
    ensures n <= |s|
    ensures forall i :: 0 <= i < n ==> IsWordChar(s[i])
    ensures n < |s| ==> !IsWordChar(s[n])
  {
    if s == [] || !IsWordChar(s[0]) then 0 else 1 + WordRun(s[1..])
  }

  /** `re.sub(r":(\w+)", r"%(\1)s", sql)`: a left-to-right scan without
      overlap; a colon followed by a word character opens a match that takes
      the whole run of word characters after it. */
  function Rewrite(s: string): (r: string)
    ensures r == [] <==> s == []
    ensures s != [] ==> r[0] == s[0] || r[0] == '%'
    ensures NoColon(s) ==> r == s
    decreases |s|
  {
    if s == [] then ""
    else if s[0] == ':' && |s| > 1 && IsWordChar(s[1]) then
      var n := WordRun(s[1..]);
      PyformatMarker(s[1..1 + n]) + Rewrite(s[1 + n..])
    else
      [s[0]] + Rewrite(s[1..])
  }

  /** `s` starts with a match of `%\(\w+\)s`. The word run cannot stop early,
      since `)` is not a word character. */
  predicate PyformatAt(s: string)
  {
    |s| >= 2 && s[0] == '%' && s[1] == '(' &&
    var n := WordRun(s[2..]);
    n >= 1 && n + 4 <= |s| && s[n + 2] == ')' && s[n + 3] == 's'
  }

  /** `re.search(r"%\(\w+\)s", sql)`: a match is tried at every start. */
  predicate HasPyformat(s: string)
    ensures PyformatAt(s) ==> HasPyformat(s)
    ensures HasPyformat(s) ==> |s| >= 5
    decreases |s|
  {
    s != [] && (PyformatAt(s) || HasPyformat(s[1..]))
  }

  /** `%(` + one or more word characters + `)s` occupies `s[i..i + n + 4]`. */
  predicate MarkerAt(s: string, i: int, n: int)
  {
    0 <= i && 1 <= n && i + n + 4 <= |s| &&
    s[i] == '%' && s[i + 1] == '(' &&
    (forall k :: i + 2 <= k < i + 2 + n ==> IsWordChar(s[k])) &&
    s[i + n + 2] == ')' && s[i + n + 3] == 's'
  }

  /** What `process_sql` yields: the rewritten text, and whether the
      legacy-format warning is logged. */
  datatype Processed = Processed(sql: string, legacyWarning: bool)

  /** `process_sql`. The warning looks at the template before the rewrite and
      does not stop it. */
  function ProcessSql(sql: string): (r: Processed)
    ensures r.legacyWarning <==> exists i, n :: MarkerAt(sql, i, n)
    ensures NoNamedMarker(r.sql)
    ensures NoNamedMarker(sql) ==> r.sql == sql
    ensures r.sql == RenderPyformat(Tokenize(sql))
  {
    LegacyDetection(sql);
    RewriteLeavesNoNamedMarker(sql);
    RewriteIdentity(sql);
    TokenizeRoundTrip(sql);
    TokenizeWellFormed(sql);
    RewriteMatchesTemplate(Tokenize(sql));
    Processed(Rewrite(sql), HasPyformat(sql))
  }

  // ---------------------------------------------------------------------
  // A reference definition: templates as sequences of segments

  /** A template read as literal characters and parameters. */
  datatype Segment = Lit(c: char) | Param(name: string)

  function RenderNamed(t: seq<Segment>): string
  {
    if t == [] then ""
    else match t[0]
      case Lit(c) => [c] + RenderNamed(t[1..])
      case Param(w) => NamedMarker(w) + RenderNamed(t[1..])
  }

  function RenderPyformat(t: seq<Segment>): string
  {
    if t == [] then ""
    else match t[0]
      case Lit(c) => [c] + RenderPyformat(t[1..])
      case Param(w) => PyformatMarker(w) + RenderPyformat(t[1..])
  }

  /** Each parameter is a non-empty word, and the segment after a parameter
      or after a literal colon is not a literal word character (which would
      extend the word or turn the colon into a placeholder): exactly the
      templates whose named rendering reads back as themselves. Neighbours
      are compared as a pair `j == i + 1` so that no new index is formed. */
  ghost predicate WellFormed(t: seq<Segment>)
  {
    (forall i :: 0 <= i < |t| && t[i].Param? ==> t[i].name != [] && IsWord(t[i].name)) &&
    (forall i, j :: 0 <= i < j < |t| && j == i + 1 && (t[i].Param? || t[i] == Lit(':')) ==>
      !(t[j].Lit? && IsWordChar(t[j].c)))
  }

  /** Reads a template into segments the way the regex scan does. */
  function Tokenize(s: string): (t: seq<Segment>)
    ensures t == [] <==> s == []
    ensures t != [] && t[0].Lit? ==> t[0].c == s[0]
    decreases |s|
  {
    if s == [] then []
    else if s[0] == ':' && |s| > 1 && IsWordChar(s[1]) then
      var n := WordRun(s[1..]);
      [Param(s[1..1 + n])] + Tokenize(s[1 + n..])
    else
      [Lit(s[0])] + Tokenize(s[1..])
  }

  /** Every template reads as a well-formed sequence of segments: the scan
      takes each word run whole and leaves no colon that could still open
      a placeholder. */
  lemma {:induction false} TokenizeWellFormed(s: string)
    ensures WellFormed(Tokenize(s))
    decreases |s|
  {
    if s != [] {
      if s[0] == ':' && |s| > 1 && IsWordChar(s[1]) {
        var n := WordRun(s[1..]);
        var w := s[1..1 + n];
        var rest := Tokenize(s[1 + n..]);
        TokenizeParamUnfold(s);
        TokenizeWellFormed(s[1 + n..]);
        assert s[1..][0] == s[1];
        assert IsWord(w) by {
          assert forall k :: 0 <= k < n ==> w[k] == s[1..][k];
        }
        if rest != [] && rest[0].Lit? {
          assert s[1 + n..][0] == s[1..][n];
        }
        WellFormedCons(Param(w), rest);
      } else {
        var rest := Tokenize(s[1..]);
        TokenizeLitUnfold(s);
        TokenizeWellFormed(s[1..]);
        if s[0] == ':' && rest != [] && rest[0].Lit? {
          assert s[1..][0] == s[1];
        }
        WellFormedCons(Lit(s[0]), rest);
      }
    }
  }

  // ---------------------------------------------------------------------
  // Helper lemmas

  lemma WellFormedCons(x: Segment, t: seq<Segment>)
    requires WellFormed(t)
    requires x.Param? ==> x.name != [] && IsWord(x.name)
    requires x.Param? || x == Lit(':') ==> t == [] || !(t[0].Lit? && IsWordChar(t[0].c))
    ensures WellFormed([x] + t)
  {
    var u := [x] + t;
    forall i | 0 <= i < |u| && u[i].Param?
      ensures u[i].name != [] && IsWord(u[i].name)
    {
      if i > 0 {
        assert u[i] == t[i - 1];
      }
    }
    forall i, j | 0 <= i < j < |u| && j == i + 1 && (u[i].Param? || u[i] == Lit(':'))
      ensures !(u[j].Lit? && IsWordChar(u[j].c))
    {
      assert u[j] == t[i];
      if i > 0 {
        assert u[i] == t[i - 1];
      }
    }
  }

  lemma WellFormedTail(t: seq<Segment>)
    requires WellFormed(t) && t != []
    ensures WellFormed(t[1..])
  {
    var u := t[1..];
    forall i | 0 <= i < |u| && u[i].Param?
      ensures u[i].name != [] && IsWord(u[i].name)
    {
      assert u[i] == t[i + 1];
    }
    forall i, j | 0 <= i < j < |u| && j == i + 1 && (u[i].Param? || u[i] == Lit(':'))
      ensures !(u[j].Lit? && IsWordChar(u[j].c))
    {
      assert u[i] == t[i + 1] && u[j] == t[j + 1];
    }
  }

  lemma RenderNamedCons(x: Segment, t: seq<Segment>)
    ensures RenderNamed([x] + t) == (if x.Lit? then [x.c] else NamedMarker(x.name)) + RenderNamed(t)
  {
    assert ([x] + t)[1..] == t;
  }

  /** The first character of a named rendering. */
  lemma RenderNamedHead(t: seq<Segment>)
    requires WellFormed(t) && t != []
    ensures RenderNamed(t) != []
    ensures t[0].Lit? ==> RenderNamed(t)[0] == t[0].c
    ensures t[0].Param? ==> RenderNamed(t)[0] == ':'
  {
  }

  /** A maximal word run ends where the word does, when what follows does
      not start with a word character. */
  lemma {:induction false} WordRunOfWord(w: string, rest: string)
    requires IsWord(w)
    requires rest == [] || !IsWordChar(rest[0])
    ensures WordRun(w + rest) == |w|
  {
    if w != [] {
      assert (w + rest)[1..] == w[1..] + rest;
      WordRunOfWord(w[1..], rest);
    } else {
      assert w + rest == rest;
    }
  }

  /** Text without a colon is copied through, whatever follows it. */
  lemma {:induction false} RewriteNoColonPrefix(x: string, c: string)
    requires NoColon(x)
    ensures Rewrite(x + c) == x + Rewrite(c)
  {
    if x != [] {
      assert (x + c)[0] == x[0] && (x + c)[1..] == x[1..] + c;
      RewriteNoColonPrefix(x[1..], c);
    } else {
      assert x + c == c;
    }
  }

  /** The scan restarts cleanly at a point where no word run can continue. */
  lemma {:induction false} RewriteAppend(a: string, c: string)
    requires c == [] || !IsWordChar(c[0])
    ensures Rewrite(a + c) == Rewrite(a) + Rewrite(c)
    decreases |a|
  {
    if a == [] {
      assert a + c == c;
    } else if a[0] == ':' && |a| > 1 && IsWordChar(a[1]) {
      var n := WordRun(a[1..]);
      RewriteParamUnfold(a);
      RewriteAppendParamStep(a, c);
      RewriteAppend(a[1 + n..], c);
      ConcatAssoc(PyformatMarker(a[1..1 + n]), Rewrite(a[1 + n..]), Rewrite(c));
    } else {
      RewriteAppendLitStep(a, c);
      RewriteAppend(a[1..], c);
      ConcatAssoc([a[0]], Rewrite(a[1..]), Rewrite(c));
    }
  }

  lemma RewriteAppendParamStep(a: string, c: string)
    requires c == [] || !IsWordChar(c[0])
    requires a != [] && a[0] == ':' && |a| > 1 && IsWordChar(a[1])
    ensures var n := WordRun(a[1..]);
      Rewrite(a + c) == PyformatMarker(a[1..1 + n]) + Rewrite(a[1 + n..] + c)
  {
    var n := WordRun(a[1..]);
    var w := a[1..1 + n];
    var rest := a[1 + n..] + c;
    assert a[1..][0] == a[1];
    assert IsWord(w) by {
      assert forall k :: 0 <= k < n ==> w[k] == a[1..][k];
    }
    if 1 + n < |a| {
      assert rest[0] == a[1..][n];
    } else {
      assert rest == c;
    }
    assert a + c == NamedMarker(w) + rest by {
      SplitAtMarker(a, n);
      ConcatAssoc(NamedMarker(w), a[1 + n..], c);
    }
    RewriteParamStep(w, rest);
  }

  lemma RewriteParamUnfold(s: string)
    requires s != [] && s[0] == ':' && |s| > 1 && IsWordChar(s[1])
    ensures var n := WordRun(s[1..]);
      Rewrite(s) == PyformatMarker(s[1..1 + n]) + Rewrite(s[1 + n..])
  {
  }

  lemma RewriteAppendLitStep(a: string, c: string)
    requires c == [] || !IsWordChar(c[0])
    requires a != [] && !(a[0] == ':' && |a| > 1 && IsWordChar(a[1]))
    ensures Rewrite(a + c) == [a[0]] + Rewrite(a[1..] + c)
    ensures Rewrite(a) == [a[0]] + Rewrite(a[1..])
  {
    var s := a + c;
    assert s[0] == a[0];
    assert s[1..] == a[1..] + c;
    assert !(s[0] == ':' && |s| > 1 && IsWordChar(s[1]));
  }

  lemma NoNamedMarkerCons(c: char, s: string)
    requires NoNamedMarker(s)
    requires c == ':' ==> s == [] || !IsWordChar(s[0])
    ensures NoNamedMarker([c] + s)
  {
    var u := [c] + s;
    forall i | 0 <= i < |u| - 1
      ensures !(u[i] == ':' && IsWordChar(u[i + 1]))
    {
      if i > 0 {
        assert u[i] == s[i - 1] && u[i + 1] == s[i];
      }
    }
  }

  lemma NoNamedMarkerColonFree(a: string, s: string)
    requires NoColon(a)
    requires NoNamedMarker(s)
    ensures NoNamedMarker(a + s)
  {
    var u := a + s;
    forall i | 0 <= i < |u| - 1
      ensures !(u[i] == ':' && IsWordChar(u[i + 1]))
    {
      if i >= |a| {
        assert u[i] == s[i - |a|] && u[i + 1] == s[i + 1 - |a|];
      }
    }
  }

  lemma PyformatMarkerNoColon(w: string)
    requires IsWord(w)
    ensures NoColon(PyformatMarker(w))
  {
    var m := PyformatMarker(w);
    forall i | 0 <= i < |m|
      ensures m[i] != ':'
    {
      if 2 <= i < 2 + |w| {
        assert m[i] == w[i - 2];
      }
    }
  }

  // ---------------------------------------------------------------------
  // Properties of the rewrite

  /** Rewriting a well-formed template in named style gives the same
      template in pyformat style: every parameter keeps its name and every
      other character is copied. */
  lemma {:induction false} RewriteMatchesTemplate(t: seq<Segment>)
    requires WellFormed(t)
    ensures Rewrite(RenderNamed(t)) == RenderPyformat(t)
  {
    if t != [] {
      WellFormedTail(t);
      RewriteMatchesTemplate(t[1..]);
      var rest := RenderNamed(t[1..]);
      assert t == [t[0]] + t[1..];
      RenderNamedCons(t[0], t[1..]);
      RenderPyformatCons(t[0], t[1..]);
      match t[0]
      case Lit(c) =>
        if c == ':' {
          NextSegmentBoundary(t);
        }
        RewriteLitStep(c, rest);
      case Param(w) =>
        NextSegmentBoundary(t);
        RewriteParamStep(w, rest);
    }
  }

  lemma RenderPyformatCons(x: Segment, t: seq<Segment>)
    ensures RenderPyformat([x] + t) == (if x.Lit? then [x.c] else PyformatMarker(x.name)) + RenderPyformat(t)
  {
    assert ([x] + t)[1..] == t;
  }

  /** After a parameter or a literal colon, the rendering goes on with a
      character that is not a word character. */
  lemma NextSegmentBoundary(t: seq<Segment>)
    requires WellFormed(t) && t != []
    requires t[0].Param? || t[0] == Lit(':')
    ensures RenderNamed(t[1..]) == [] || !IsWordChar(RenderNamed(t[1..])[0])
  {
    if t[1..] != [] {
      assert t[1..][0] == t[1];
      WellFormedTail(t);
      RenderNamedHead(t[1..]);
    }
  }

  lemma RewriteLitStep(c: char, rest: string)
    requires c == ':' ==> rest == [] || !IsWordChar(rest[0])
    ensures Rewrite([c] + rest) == [c] + Rewrite(rest)
  {
    assert ([c] + rest)[1..] == rest;
  }

  lemma RewriteParamStep(w: string, rest: string)
    requires w != [] && IsWord(w)
    requires rest == [] || !IsWordChar(rest[0])
    ensures Rewrite(NamedMarker(w) + rest) == PyformatMarker(w) + Rewrite(rest)
  {
    var s := NamedMarker(w) + rest;
    var tail := w + rest;
    assert s == [':'] + tail;
    assert s[1..] == tail;
    assert s[0] == ':' && |s| > 1 && IsWordChar(s[1]) by {
      assert s[1] == tail[0] == w[0];
    }
    WordRunOfWord(w, rest);
    assert WordRun(s[1..]) == |w|;
    assert s[1..1 + |w|] == tail[..|w|] == w;
    assert s[1 + |w|..] == tail[|w|..] == rest;
    RewriteParamUnfold(s);
  }

  /** Reading a template into segments and rendering them in named style
      gives the template back: the segment view loses nothing. */
  lemma {:induction false} TokenizeRoundTrip(s: string)
    ensures RenderNamed(Tokenize(s)) == s
    decreases |s|
  {
    if s != [] {
      if s[0] == ':' && |s| > 1 && IsWordChar(s[1]) {
        var n := WordRun(s[1..]);
        TokenizeParamStep(s);
        TokenizeRoundTrip(s[1 + n..]);
      } else {
        TokenizeLitStep(s);
        TokenizeRoundTrip(s[1..]);
      }
    }
  }

  lemma TokenizeParamStep(s: string)
    requires s != [] && s[0] == ':' && |s| > 1 && IsWordChar(s[1])
    ensures var n := WordRun(s[1..]);
      RenderNamed(Tokenize(s)) == NamedMarker(s[1..1 + n]) + RenderNamed(Tokenize(s[1 + n..]))
    ensures var n := WordRun(s[1..]);
      s == NamedMarker(s[1..1 + n]) + s[1 + n..]
  {
    var n := WordRun(s[1..]);
    TokenizeParamUnfold(s);
    RenderNamedCons(Param(s[1..1 + n]), Tokenize(s[1 + n..]));
    SplitAtMarker(s, n);
  }

  lemma TokenizeParamUnfold(s: string)
    requires s != [] && s[0] == ':' && |s| > 1 && IsWordChar(s[1])
    ensures var n := WordRun(s[1..]);
      Tokenize(s) == [Param(s[1..1 + n])] + Tokenize(s[1 + n..])
  {
  }

  lemma SplitAtMarker(s: string, n: nat)
    requires s != [] && s[0] == ':' && 1 + n <= |s|
    ensures s == NamedMarker(s[1..1 + n]) + s[1 + n..]
  {
    assert s == [s[0]] + s[1..1 + n] + s[1 + n..];
  }

  lemma TokenizeLitStep(s: string)
    requires s != [] && !(s[0] == ':' && |s| > 1 && IsWordChar(s[1]))
    ensures RenderNamed(Tokenize(s)) == [s[0]] + RenderNamed(Tokenize(s[1..]))
    ensures s == [s[0]] + s[1..]
  {
    TokenizeLitUnfold(s);
    RenderNamedCons(Lit(s[0]), Tokenize(s[1..]));
  }

  lemma TokenizeLitUnfold(s: string)
    requires s != [] && !(s[0] == ':' && |s| > 1 && IsWordChar(s[1]))
    ensures Tokenize(s) == [Lit(s[0])] + Tokenize(s[1..])
  {
  }

  /** No named placeholder survives the rewrite. */
  lemma {:induction false} RewriteLeavesNoNamedMarker(s: string)
    ensures NoNamedMarker(Rewrite(s))
    decreases |s|
  {
    if s != [] {
      if s[0] == ':' && |s| > 1 && IsWordChar(s[1]) {
        var n := WordRun(s[1..]);
        RewriteLeavesNoNamedMarker(s[1 + n..]);
        PyformatMarkerNoColon(s[1..1 + n]);
        NoNamedMarkerColonFree(PyformatMarker(s[1..1 + n]), Rewrite(s[1 + n..]));
      } else {
        RewriteLeavesNoNamedMarker(s[1..]);
        if s[0] == ':' && s[1..] != [] {
          assert Rewrite(s[1..]) != [];
        }
        NoNamedMarkerCons(s[0], Rewrite(s[1..]));
      }
    }
  }

  /** A template is left unchanged exactly when it holds no named
      placeholder. */
  lemma {:induction false} RewriteIdentity(s: string)
    ensures Rewrite(s) == s <==> NoNamedMarker(s)
    decreases |s|
  {
    if NoNamedMarker(s) {
      RewriteIdentityOnPlain(s);
    } else {
      RewriteLeavesNoNamedMarker(s);
    }
  }

  lemma {:induction false} RewriteIdentityOnPlain(s: string)
    requires NoNamedMarker(s)
    ensures Rewrite(s) == s
    decreases |s|
  {
    if s != [] {
      assert !(s[0] == ':' && |s| > 1 && IsWordChar(s[1]));
      assert NoNamedMarker(s[1..]) by {
        forall i | 0 <= i < |s[1..]| - 1
          ensures !(s[1..][i] == ':' && IsWordChar(s[1..][i + 1]))
        {
          assert s[1..][i] == s[i + 1] && s[1..][i + 1] == s[i + 2];
        }
      }
      RewriteIdentityOnPlain(s[1..]);
      assert s == [s[0]] + s[1..];
    }
  }

  /** Rewriting twice gives what rewriting once does. */
  lemma RewriteIdempotent(s: string)
    ensures Rewrite(Rewrite(s)) == Rewrite(s)
  {
    RewriteLeavesNoNamedMarker(s);
    RewriteIdentityOnPlain(Rewrite(s));
  }

  /** A pyformat marker already in the template passes through unchanged,
      and the text on either side is rewritten as if it stood alone. */
  lemma PyformatMarkerPassesThrough(a: string, w: string, b: string)
    requires IsWord(w)
    ensures Rewrite(a + PyformatMarker(w) + b) == Rewrite(a) + PyformatMarker(w) + Rewrite(b)
  {
    var m := PyformatMarker(w);
    assert a + m + b == a + (m + b);
    assert (m + b)[0] == '%';
    RewriteAppend(a, m + b);
    PyformatMarkerNoColon(w);
    RewriteNoColonPrefix(m, b);
  }

  /** Two placeholders side by side are both rewritten: `:a:b` becomes
      `%(a)s%(b)s`. */
  lemma AdjacentPlaceholders()
    ensures Rewrite(":a:b") == "%(a)s%(b)s"
  {
    var t := [Param("a"), Param("b")];
    assert WellFormed(t) by {
      assert IsWord("a") && IsWord("b");
      assert t[0].name == "a" && t[1].name == "b";
    }
    assert RenderNamed(t) == ":a:b" by {
      assert t[1..] == [Param("b")];
      assert t[1..][1..] == [];
    }
    assert RenderPyformat(t) == "%(a)s%(b)s" by {
      assert t[1..] == [Param("b")];
      assert t[1..][1..] == [];
    }
    RewriteMatchesTemplate(t);
  }

  /** The legacy-format scan fires exactly when a pyformat marker occurs
      somewhere in the template. */
  lemma {:induction false} LegacyDetection(s: string)
    ensures HasPyformat(s) <==> exists i, n :: MarkerAt(s, i, n)
    decreases |s|
  {
    if HasPyformat(s) {
      if PyformatAt(s) {
        var n := WordRun(s[2..]);
        assert MarkerAt(s, 0, n);
      } else {
        LegacyDetection(s[1..]);
        var i, n :| MarkerAt(s[1..], i, n);
        assert MarkerAt(s, i + 1, n);
      }
    }
    if exists i, n :: MarkerAt(s, i, n) {
      var i, n :| MarkerAt(s, i, n);
      if i == 0 {
        WordRunExact(s[2..], n);
        assert PyformatAt(s);
      } else {
        assert MarkerAt(s[1..], i - 1, n);
        LegacyDetection(s[1..]);
      }
    }
  }

  lemma WordRunExact(s: string, n: nat)
    requires n < |s| && !IsWordChar(s[n])
    requires forall k :: 0 <= k < n ==> IsWordChar(s[k])
    ensures WordRun(s) == n
  {
  }

  /** A template written in pyformat style warns and is left as it is. */
  lemma LegacyWarningOnPyformat()
    ensures ProcessSql("%(x)s") == Processed("%(x)s", true)
  {
    assert MarkerAt("%(x)s", 0, 1);
    assert NoNamedMarker("%(x)s");
  }

  /** The same placeholder in named style does not warn, and is rewritten. */
  lemma NoWarningOnNamed()
    ensures ProcessSql(":x") == Processed("%(x)s", false)
  {
    assert Rewrite(":x") == "%(x)s" by {
      assert WordRun(":x"[1..]) == 1 by {
        WordRunOfWord("x", "");
        assert ":x"[1..] == "x" + "";
      }
    }
  }
}
