/**
 * `parse_description`: a function's doc comment becomes a one-line summary
 * and a map from parameter name to description.
 */
module Docstring {
  import opened Wrappers
  import opened Text

  /** What a parameter line yields: the two groups of `\s*(\w+):\s*(.*)`, the second stripped. */
  datatype ParamLine = ParamLine(name: string, text: string)

  /** Length of the run of word characters that `s` starts with. */
  function WordRun(s: string): nat
  {
    if s != [] && IsWordChar(s[0]) then 1 + WordRun(s[1..]) else 0
  }

  lemma {:induction false} WordRunSpec(s: string)
    ensures WordRun(s) <= |s| && AllWord(s[..WordRun(s)])
    ensures WordRun(s) == |s| || !IsWordChar(s[WordRun(s)])
  {
    if s != [] && IsWordChar(s[0]) {
      WordRunSpec(s[1..]);
      var n := WordRun(s);
      assert s[..n] == [s[0]] + s[1..][..n - 1];
    }
  }

  /**
   * The regular expression `\s*(\w+):\s*(.*)` matches `line` from its start
   * with the name group spanning `line[a..b]` and the colon at `b`.
   */
  predicate ParamLineAt(line: string, a: int, b: int) {
    && 0 <= a < b < |line|
    && AllSpace(line[..a])
    && AllWord(line[a..b])
    && line[b] == ':'
  }

  /**
   * `re.match(r'\s*(\w+):\s*(.*)', line)` followed by stripping the second
   * group. A line holds no newline, so `(.*)` runs to its end.
   */
  function MatchLine(line: string): (m: Option<ParamLine>)
    ensures m.Some? ==> m.value.name != "" && AllWord(m.value.name) && Strip(m.value.text) == m.value.text
  {
    var rest := TrimLeft(line);
    var n := WordRun(rest);
    WordRunSpec(rest);
    if 0 < n < |rest| && rest[n] == ':' then
      StripIdempotent(TrimLeft(rest[n + 1..]));
      Some(ParamLine(rest[..n], Strip(TrimLeft(rest[n + 1..]))))
    else None
  }

  /**
   * When `MatchLine` finds a match, the regular expression matches there:
   * the name spans the word run after the leading whitespace, a colon
   * follows it, and the text is what comes after the colon, stripped.
   */
  lemma MatchLineSound(line: string) returns (a: int, b: int)
    ensures MatchLine(line).Some? ==>
      && a == |line| - |TrimLeft(line)|
      && ParamLineAt(line, a, b)
      && MatchLine(line).value == ParamLine(line[a..b], Strip(TrimLeft(line[b + 1..])))
  {
    var rest := TrimLeft(line);
    var n := WordRun(rest);
    a, b := 0, 0;
    if 0 < n < |rest| && rest[n] == ':' {
      a, b := |line| - |rest|, |line| - |rest| + n;
      MatchedParts(line, rest, a, n);
      assert MatchLine(line) == Some(ParamLine(rest[..n], Strip(TrimLeft(rest[n + 1..]))));
    }
  }

  /** The parts of the stripped line that `MatchLine` takes are the parts of the line itself. */
  lemma MatchedParts(line: string, rest: string, a: int, n: nat)
    requires rest == TrimLeft(line) && a == |line| - |rest|
    requires 0 < n == WordRun(rest) < |rest| && rest[n] == ':'
    ensures ParamLineAt(line, a, a + n)
    ensures line[a..a + n] == rest[..n] && line[a + n + 1..] == rest[n + 1..]
  {
    TrimLeftSpec(line);
    WordRunSpec(rest);
    assert line[a..a + n] == rest[..n];
    assert line[a + n] == rest[n];
  }

  lemma {:induction false} WordRunExactly(s: string, n: nat)
    requires n < |s| && AllWord(s[..n]) && !IsWordChar(s[n])
    ensures WordRun(s) == n
  {
    if n > 0 {
      assert s[1..][..n - 1] == s[1..n];
      WordRunExactly(s[1..], n - 1);
    }
  }

  lemma MatchLineComplete(line: string, a: int, b: int)
    requires ParamLineAt(line, a, b)
    ensures MatchLine(line) == Some(ParamLine(line[a..b], Strip(TrimLeft(line[b + 1..]))))
  {
    var rest := line[a..];
    assert line == line[..a] + rest;
    assert rest[0] == line[a..b][0];
    TrimLeftSpaces(line[..a], rest);
    assert rest[..b - a] == line[a..b];
    WordRunExactly(rest, b - a);
    assert rest[b - a + 1..] == line[b + 1..];
    assert MatchLine(line) == Some(ParamLine(rest[..b - a], Strip(TrimLeft(rest[b - a + 1..]))));
  }

  /** Line match `m` names parameter `name`. */
  predicate Named(m: Option<ParamLine>, name: string) {
    m.Some? && m.value.name == name
  }

  /** The `param_descriptions` dict after the loop has seen the line matches `ms`, in order. */
  function Collect(ms: seq<Option<ParamLine>>): map<string, string>
  {
    if ms == [] then map[]
    else
      var m := Collect(ms[..|ms| - 1]);
      match ms[|ms| - 1]
      case None => m
      case Some(p) => m[p.name := p.text]
  }

  /** A name has a description exactly when some line names it. */
  lemma {:induction false} CollectKeys(ms: seq<Option<ParamLine>>, name: string)
    ensures name in Collect(ms) <==> exists i :: 0 <= i < |ms| && Named(ms[i], name)
  {
    if ms != [] {
      var init := ms[..|ms| - 1];
      CollectKeys(init, name);
      if exists i :: 0 <= i < |init| && Named(init[i], name) {
        var i :| 0 <= i < |init| && Named(init[i], name);
        assert Named(ms[i], name);
      }
      if exists i :: 0 <= i < |ms| && Named(ms[i], name) {
        var i :| 0 <= i < |ms| && Named(ms[i], name);
        if i < |init| {
          assert Named(init[i], name);
        }
      }
    }
  }

  /** The description kept for a name is the text of the last line naming it. */
  lemma {:induction false} CollectLastWins(ms: seq<Option<ParamLine>>, name: string, i: int)
    requires 0 <= i < |ms| && Named(ms[i], name)
    requires forall j :: i < j < |ms| ==> !Named(ms[j], name)
    ensures name in Collect(ms) && Collect(ms)[name] == ms[i].value.text
  {
    var init := ms[..|ms| - 1];
    if i < |ms| - 1 {
      assert Named(init[i], name);
      forall j | i < j < |init| ensures !Named(init[j], name) {
        assert init[j] == ms[j];
      }
      CollectLastWins(init, name, i);
    }
  }

  /** `MatchLine` applied to every line, in order. */
  function MatchAll(lines: seq<string>): seq<Option<ParamLine>>
  {
    if lines == [] then []
    else MatchAll(lines[..|lines| - 1]) + [MatchLine(lines[|lines| - 1])]
  }

  lemma {:induction false} MatchAllAt(lines: seq<string>, i: int)
    requires 0 <= i < |lines|
    ensures |MatchAll(lines)| == |lines| && MatchAll(lines)[i] == MatchLine(lines[i])
  {
    MatchAllLength(lines);
    if i < |lines| - 1 {
      MatchAllAt(lines[..|lines| - 1], i);
    }
  }

  lemma {:induction false} MatchAllLength(lines: seq<string>)
    ensures |MatchAll(lines)| == |lines|
  {
    if lines != [] {
      MatchAllLength(lines[..|lines| - 1]);
    }
  }

  /** Matching one more line adds that line's match at the end. */
  lemma MatchAllStep(lines: seq<string>, i: nat)
    requires 1 <= i < |lines|
    ensures MatchAll(lines[1..i + 1]) == MatchAll(lines[1..i]) + [MatchLine(lines[i])]
  {
    assert lines[1..i + 1][..i - 1] == lines[1..i] && lines[1..i + 1][i - 1] == lines[i];
  }

  /** The lines `parse_description` works on: the stripped doc comment split at newlines. */
  function Lines(doc: string): seq<string>
  {
    Split(Strip(doc), '\n')
  }

  datatype Description = Description(summary: string, params: map<string, string>)

  /** What `parse_description` returns for a doc comment (`None` when the function has none). */
  function Describe(doc: Option<string>): (d: Description)
    ensures doc.None? ==> d == Description("", map[])
    ensures '\n' !in d.summary && Strip(d.summary) == d.summary
  {
    if doc.None? || doc.value == "" then Description("", map[])
    else
      var lines := Lines(doc.value);
      StripKeeps(lines[0], '\n');
      StripIdempotent(lines[0]);
      Description(Strip(lines[0]), Collect(MatchAll(lines[1..])))
  }

  /**
   * `parse_description`. An absent or empty doc comment gives an empty
   * summary and no descriptions; otherwise the summary is the first line,
   * stripped, and later lines of the form `name: text` fill the map.
   */
  method ParseDescription(doc: Option<string>) returns (summary: string, params: map<string, string>)
    ensures Description(summary, params) == Describe(doc)
    ensures doc.None? || doc == Some("") ==> summary == "" && params == map[]
    ensures '\n' !in summary
  {
    if doc.None? || doc.value == "" {
      return "", map[];
    }
    var lines := Split(Strip(doc.value), '\n');
    summary := Strip(lines[0]);
    StripKeeps(lines[0], '\n');
    params := map[];
    for i := 1 to |lines|
      invariant params == Collect(MatchAll(lines[1..i]))
    {
      var m := MatchLine(lines[i]);
      MatchAllStep(lines, i);
      if m.Some? {
        params := params[m.value.name := m.value.text];
      }
    }
    assert lines[1..|lines|] == lines[1..];
  }

  /** The line matches of a non-empty doc comment are those of its lines after the first. */
  lemma MatchesOfLines(doc: string)
    requires doc != ""
    ensures var lines := Lines(doc);
      var ms := MatchAll(lines[1..]);
      && Describe(Some(doc)).params == Collect(ms)
      && |ms| == |lines| - 1
      && forall i :: 1 <= i < |lines| ==> ms[i - 1] == MatchLine(lines[i])
  {
    var lines := Lines(doc);
    var ms := MatchAll(lines[1..]);
    MatchAllLength(lines[1..]);
    forall i | 1 <= i < |lines| ensures ms[i - 1] == MatchLine(lines[i]) {
      MatchAllAt(lines[1..], i - 1);
    }
  }

  /**
   * For a non-empty doc comment, a parameter is described exactly when some
   * line after the first names it; the first line never contributes.
   */
  lemma DescribedParams(doc: string, name: string)
    requires doc != ""
    ensures var lines := Lines(doc);
      name in Describe(Some(doc)).params <==> exists i :: 1 <= i < |lines| && Named(MatchLine(lines[i]), name)
  {
    var lines := Lines(doc);
    var ms := MatchAll(lines[1..]);
    MatchesOfLines(doc);
    CollectKeys(ms, name);
    if exists i :: 0 <= i < |ms| && Named(ms[i], name) {
      var i :| 0 <= i < |ms| && Named(ms[i], name);
      assert Named(MatchLine(lines[i + 1]), name);
    }
    if exists i :: 1 <= i < |lines| && Named(MatchLine(lines[i]), name) {
      var i :| 1 <= i < |lines| && Named(MatchLine(lines[i]), name);
      assert Named(ms[i - 1], name);
    }
  }

  /** The description of a parameter is the text of the last line after the first that names it. */
  lemma DescribedLast(doc: string, name: string, i: nat)
    requires doc != "" && 1 <= i < |Lines(doc)|
    requires Named(MatchLine(Lines(doc)[i]), name)
    requires forall j :: i < j < |Lines(doc)| ==> !Named(MatchLine(Lines(doc)[j]), name)
    ensures name in Describe(Some(doc)).params
    ensures Describe(Some(doc)).params[name] == MatchLine(Lines(doc)[i]).value.text
  {
    var lines := Lines(doc);
    var ms := MatchAll(lines[1..]);
    MatchesOfLines(doc);
    forall j | i - 1 < j < |ms| ensures !Named(ms[j], name) {
      assert ms[j] == MatchLine(lines[j + 1]);
    }
    assert ms[i - 1] == MatchLine(lines[i]);
    CollectLastWins(ms, name, i - 1);
  }

  /** A doc comment of whitespace only describes nothing. */
  lemma BlankDoc(doc: string)
    requires AllSpace(doc)
    ensures Describe(Some(doc)) == Description("", map[])
  {
    if doc != "" {
      StripBlank(doc);
      assert Lines(doc) == [[]];
    }
  }
}
