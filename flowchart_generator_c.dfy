/**
 * flowchart_generator.c: a C program that reads a C file line by line and
 * prints a box per line with box-drawing characters, indented by one tab per
 * nesting level. Leading preprocessor and comment lines are grouped before
 * the first function; the depth follows braces and brace-less control
 * statements and never goes below zero. The lines `fgets` returns are the
 * input, kept with their line ends; what `print_box` writes to the output
 * is a list of lines.
 */
module FlowchartGeneratorC {
  import opened Text
  import opened Layout
  import CPatterns

  /* The line predicates. `strstr(s, p) != NULL` is `Contains(s, p)`; `strchr(s, c)` is `c in s`. */

  /** `is_function_declaration`: a `(`, a `)` and a `{` anywhere on the line. */
  predicate IsFunctionDeclaration(s: string) {
    Contains(s, "(") && Contains(s, ")") && '{' in s
  }

  /** `is_preprocessor`: the first character is `#` (an empty line has only its terminator). */
  predicate IsPreprocessor(s: string) {
    s != [] && s[0] == '#'
  }

  /** The three substring tests are character tests: a `(`, a `)` and a `{` anywhere, in any order. */
  lemma FunctionDeclarationChars(s: string)
    ensures IsFunctionDeclaration(s) <==> '(' in s && ')' in s && '{' in s
  {
    ContainsChar(s, '(');
    ContainsChar(s, ')');
    assert "(" == ['('] && ")" == [')'];
  }

  /** `is_comment`: the line contains slash-star, star, or star-slash. */
  predicate IsComment(s: string) {
    Contains(s, "/*") || Contains(s, "*") || Contains(s, "*/")
  }

  /** A text containing a non-empty pattern contains the pattern's first character. */
  lemma {:induction false} ContainsFirstChar(s: string, p: string)
    requires p != [] && Contains(s, p)
    ensures p[0] in s
    decreases |s|
  {
    if StartsWith(s, p) {
      assert s[0] == p[0];
    } else {
      ContainsFirstChar(s[1..], p);
      assert s == [s[0]] + s[1..];
    }
  }

  /** The three tests come down to one: a line is a comment exactly when it holds a `*` anywhere. */
  lemma IsCommentIffStar(s: string)
    ensures IsComment(s) <==> '*' in s
  {
    ContainsChar(s, '*');
    assert "*" == ['*'];
    if Contains(s, "/*") {
      assert "/*" == "/" + "*";
      ContainsSuffixOfPattern(s, "/", "*");
    }
    if Contains(s, "*/") {
      ContainsFirstChar(s, "*/");
    }
  }

  /** The type names `is_variable_declaration` looks for, each with its trailing space. */
  const TYPES: seq<string> := ["int ", "float ", "char ", "double ", "long ", "short ", "unsigned "]

  /** `is_variable_declaration`: one of the type names anywhere, and a `;` anywhere. */
  predicate IsVariableDeclaration(s: string) {
    (exists k :: 0 <= k < |TYPES| && Contains(s, TYPES[k])) && ';' in s
  }

  /** The scan of `is_variable_declaration`, returning at the first type name found with a `;`. */
  method VariableDeclarationScan(s: string) returns (b: bool)
    ensures b == IsVariableDeclaration(s)
  {
    for i := 0 to |TYPES|
      invariant forall k :: 0 <= k < i ==> !(Contains(s, TYPES[k]) && ';' in s)
    {
      if Contains(s, TYPES[i]) && ';' in s {
        return true;
      }
    }
    return false;
  }

  /** `is_control_statement`: `if`, `for`, `while` or `else` anywhere, and no `{`. */
  predicate IsControlStatement(s: string) {
    (Contains(s, "if") || Contains(s, "for") || Contains(s, "while") || Contains(s, "else")) && '{' !in s
  }

  /** Any occurrence of one of the four keywords, in a line without `{`, makes a control statement. */
  lemma ControlKeywordFound(s: string, kw: string, k: nat)
    requires kw == "if" || kw == "for" || kw == "while" || kw == "else"
    requires k + |kw| <= |s| && s[k..k + |kw|] == kw && '{' !in s
    ensures IsControlStatement(s)
  {
    ContainsAt(s, kw, k);
  }

  /** The keywords are looked for anywhere: a call to `notify` is a control statement. */
  lemma ControlKeywordAnywhere()
    ensures IsControlStatement("notify();")
  {
    assert "notify();"[3..5] == "if";
    ContainsAt("notify();", "if", 3);
  }

  /* `print_box`. */

  /** The `colors` table of `print_box`: twelve SGR numbers. */
  const COLORS: seq<nat> := [94, 92, 93, 91, 95, 96, 33, 36, 37, 41, 42, 43]

  /** The override colour of the headed comments. */
  const PINK: nat := 95

  datatype Option<T> = None | Some(value: T)

  /** `override_color ? override_color : colors[depth % 12]`. */
  function BoxColor(depth: nat, override: Option<nat>): (c: nat)
    ensures override.None? ==> c in COLORS
    ensures override.Some? ==> c == override.value
  {
    match override
    case Some(c) => c
    case None => COLORS[depth % |COLORS|]
  }

  /** Without an override the colour repeats every twelve levels. */
  lemma BoxColorCycle(depth: nat)
    ensures BoxColor(depth + 12, None) == BoxColor(depth, None)
  {
    assert |COLORS| == 12;
    assert (depth + 12) % 12 == depth % 12;
  }

  /** `U+2500`, the horizontal line, `len + 2` times. */
  function Bar(len: nat): string {
    RepeatChar('\U{2500}', len + 2)
  }

  function TopBorder(content: string, indent: string, color: nat): Line {
    Painted(indent, color, "\U{250C}" + Bar(|content|) + "\U{2510}")
  }

  /** The content between two vertical bars, with a space either side; two spaces when it is empty. */
  function ContentRow(content: string, indent: string, color: nat): Line {
    Painted(indent, color, if |content| == 0 then "\U{2502}  \U{2502}" else "\U{2502} " + content + " \U{2502}")
  }

  function BottomBorder(content: string, indent: string, color: nat): Line {
    Painted(indent, color, "\U{2514}" + Bar(|content|) + "\U{2518}")
  }

  /** The three lines of a box, after one tab per level. */
  function BoxLines(content: string, depth: nat, override: Option<nat>): (box: seq<Line>)
    ensures |box| == 3
  {
    var indent := RepeatChar('\t', depth);
    var color := BoxColor(depth, override);
    [TopBorder(content, indent, color), ContentRow(content, indent, color), BottomBorder(content, indent, color)]
  }

  /** Every line of a box takes the depth in tabs plus the content plus four columns. */
  lemma BoxLinesWidth(content: string, depth: nat, override: Option<nat>)
    ensures forall k :: 0 <= k < 3 ==> Width(BoxLines(content, depth, override)[k]) == depth + |content| + 4
  {
  }

  /** The empty-content case draws what the general case would: it changes nothing. */
  lemma EmptyContentCase(indent: string, color: nat)
    ensures ContentRow("", indent, color) == Painted(indent, color, "\U{2502} " + "" + " \U{2502}")
  {
    assert "\U{2502} " + "" + " \U{2502}" == "\U{2502}  \U{2502}";
  }

  /** `n` copies of `piece`, concatenated by a loop as `strcat` and `fprintf` do. */
  method RepeatLoop(c: char, n: nat) returns (r: string)
    ensures r == RepeatChar(c, n)
  {
    r := [];
    for i := 0 to n
      invariant |r| == i && forall k :: 0 <= k < i ==> r[k] == c
    {
      r := r + [c];
    }
  }

  /** `print_box(out, content, depth, override_color)`. */
  method PrintBox(out: Canvas<Line>, content: string, depth: nat, override: Option<nat>)
    modifies out
    ensures out.lines == old(out.lines) + BoxLines(content, depth, override)
  {
    var color := if override.Some? then override.value else COLORS[depth % |COLORS|];
    var indent := RepeatLoop('\t', depth);
    var bar := RepeatLoop('\U{2500}', |content| + 2);
    out.Append(Painted(indent, color, "\U{250C}" + bar + "\U{2510}"));
    if |content| == 0 {
      out.Append(Painted(indent, color, "\U{2502}  \U{2502}"));
    } else {
      out.Append(Painted(indent, color, "\U{2502} " + content + " \U{2502}"));
    }
    out.Append(Painted(indent, color, "\U{2514}" + bar + "\U{2518}"));
  }

  /* Trimming a line read by `fgets`. */

  predicate IsBlank(c: char) {
    c == ' ' || c == '\t'
  }

  predicate IsLineEnd(c: char) {
    c == '\n' || c == '\r'
  }

  /** The end loop: line-end characters go, but never the first character. */
  function TrimEnd(s: string): (r: string)
    ensures |r| <= |s| && (s != [] ==> r != [])
    decreases |s|
  {
    if |s| > 1 && IsLineEnd(s[|s| - 1]) then TrimEnd(s[..|s| - 1]) else s
  }

  /** `TrimEnd` keeps a prefix, stops at a character that is not a line end, and drops only line ends. */
  lemma {:induction false} TrimEndPrefix(s: string)
    ensures TrimEnd(s) == s[..|TrimEnd(s)|]
    ensures |TrimEnd(s)| > 1 ==> !IsLineEnd(TrimEnd(s)[|TrimEnd(s)| - 1])
    ensures forall i :: |TrimEnd(s)| <= i < |s| ==> IsLineEnd(s[i])
    decreases |s|
  {
    if |s| > 1 && IsLineEnd(s[|s| - 1]) {
      TrimEndPrefix(s[..|s| - 1]);
      assert s[..|s| - 1][..|TrimEnd(s)|] == s[..|TrimEnd(s)|];
    }
  }

  /** The two trimming loops of `process_code`: leading blanks and tabs, then line ends. */
  function Trim(raw: string): string {
    TrimEnd(raw[CPatterns.RunOf(raw, IsBlank)..])
  }

  /**
   * The trimmed line is the text after the leading blanks and tabs, up to
   * trailing line ends: a slice of the raw line that drops only those.
   */
  lemma TrimSlice(raw: string)
    ensures var n := CPatterns.RunOf(raw, IsBlank); var t := Trim(raw);
      n + |t| <= |raw| && t == raw[n..n + |t|] &&
      (forall i :: 0 <= i < n ==> IsBlank(raw[i])) &&
      (forall i :: n + |t| <= i < |raw| ==> IsLineEnd(raw[i])) &&
      (n < |raw| ==> t != [] && !IsBlank(t[0]))
  {
    var n := CPatterns.RunOf(raw, IsBlank);
    TrimEndPrefix(raw[n..]);
    var t := Trim(raw);
    assert forall i :: n + |t| <= i < |raw| ==> raw[i] == raw[n..][i - n];
    if n < |raw| {
      assert t[0] == raw[n..][0];
    }
  }

  /** A line holding only its line end keeps it: the end loop never removes the first character. */
  lemma BlankLineKeepsNewline()
    ensures Trim("\n") == "\n" && Trim("  \n") == "\n"
  {
    assert CPatterns.RunOf("\n", IsBlank) == 0;
    CPatterns.RunOfStops("  \n", IsBlank, 2);
    assert "  \n"[2..] == "\n";
  }

  /** The two trimming loops, on indices. */
  method TrimLine(raw: string) returns (s: string)
    ensures s == Trim(raw)
  {
    var start := 0;
    while start < |raw| && IsBlank(raw[start])
      invariant start <= |raw| && forall k :: 0 <= k < start ==> IsBlank(raw[k])
    {
      start := start + 1;
    }
    CPatterns.RunOfStops(raw, IsBlank, start);
    s := raw[start..];
    while |s| > 1 && IsLineEnd(s[|s| - 1])
      invariant TrimEnd(s) == TrimEnd(raw[start..])
    {
      s := s[..|s| - 1];
    }
  }

  /* `process_code`. */

  /** The variables of `process_code`; `out` is what has been written. */
  datatype State = State(
    depth: int,
    inHeadedComments: bool,
    headedCommentsDone: bool,
    controlPending: bool,
    isStartOfFunction: bool,
    headedCommentBlock: string,
    out: seq<Line>)

  /**
   * The loop invariant: the depth is never negative, comments are gathered
   * only before the grouping is done, and a function start is seen only
   * once it is done.
   */
  predicate Valid(st: State) {
    st.depth >= 0 &&
    (st.inHeadedComments ==> !st.headedCommentsDone) &&
    (st.isStartOfFunction ==> st.headedCommentsDone)
  }

  const INITIAL: State := State(0, false, false, false, false, [], [])

  /** One `print_box(stdout, …)` call. */
  function Box(st: State, content: string, depth: nat, override: Option<nat>): (r: State)
    ensures r.out == st.out + BoxLines(content, depth, override)
  {
    st.(out := st.out + BoxLines(content, depth, override))
  }

  /**
   * From line 109 on: the headed comments are flushed by the first line
   * that is not a comment, and the first function header ends the grouping.
   */
  function Grouping(st: State, s: string): (r: State)
    requires Valid(st) && (st.headedCommentsDone || !IsComment(s))
    ensures Valid(r) && r.depth == st.depth && r.controlPending == st.controlPending
  {
    var st1 :=
      if st.inHeadedComments && !IsComment(s)
      then Box(st, st.headedCommentBlock, 0, Some(PINK)).(headedCommentsDone := true, inHeadedComments := false)
      else st;
    if !st1.headedCommentsDone && IsFunctionDeclaration(s)
    then (if |st1.headedCommentBlock| > 0 then Box(st1, st1.headedCommentBlock, 0, Some(PINK)) else st1)
           .(headedCommentsDone := true, isStartOfFunction := true)
    else st1
  }

  /** From line 124 on: declarations at depth 0, then the depth state machine. */
  function Body(st: State, s: string): (r: State)
    requires Valid(st)
    ensures Valid(r)
    ensures r.depth == st.depth || r.depth == st.depth + 1 || r.depth == Max(0, st.depth - 1)
  {
    if st.isStartOfFunction && IsVariableDeclaration(s) then Box(st, s, 0, None)
    else if IsControlStatement(s) then Box(st, s, st.depth, None).(controlPending := true)
    else if st.controlPending && '{' in s then Box(st, s, st.depth, None).(depth := st.depth + 1, controlPending := false)
    else if st.controlPending then Box(st, s, st.depth + 1, None).(controlPending := false)
    else if '{' in s && '}' !in s then Box(st, s, st.depth, None).(depth := st.depth + 1)
    else if '}' in s && '{' !in s then
      var d := if st.depth > 0 then st.depth - 1 else 0;
      Box(st.(depth := d), s, d, None)
    else Box(st, s, st.depth, None)
  }

  /** One iteration of the `while (fgets(…))` loop on the trimmed line `s`. */
  function Step(st: State, s: string): (r: State)
    requires Valid(st)
    ensures Valid(r)
    ensures r.depth == st.depth || r.depth == st.depth + 1 || r.depth == Max(0, st.depth - 1)
  {
    if !st.headedCommentsDone && IsPreprocessor(s) then Box(st, s, 0, None)
    else if !st.headedCommentsDone && IsComment(s) then
      st.(headedCommentBlock := st.headedCommentBlock + s + "\n", inHeadedComments := true)
    else Body(Grouping(st, s), s)
  }

  /** The state after the loop has read `lines`. */
  function Run(lines: seq<string>): (st: State)
    ensures Valid(st) && st.depth >= 0
    decreases |lines|
  {
    if lines == [] then INITIAL else Step(Run(lines[..|lines| - 1]), Trim(lines[|lines| - 1]))
  }

  /** What `process_code` writes for a file whose `fgets` lines are `lines`. */
  function ProcessCodeOutput(lines: seq<string>): seq<Line> {
    Run(lines).out
  }

  /** One `print_box` call of the loop. */
  method BoxStep(out: Canvas<Line>, st: State, content: string, depth: nat, override: Option<nat>) returns (r: State)
    requires out.lines == st.out
    modifies out
    ensures r == Box(st, content, depth, override) && out.lines == r.out
  {
    PrintBox(out, content, depth, override);
    r := st.(out := out.lines);
  }

  /** Lines 109-121. */
  method GroupingStep(out: Canvas<Line>, st: State, s: string) returns (r: State)
    requires Valid(st) && (st.headedCommentsDone || !IsComment(s)) && out.lines == st.out
    modifies out
    ensures r == Grouping(st, s) && out.lines == r.out
  {
    r := st;
    if st.inHeadedComments && !IsComment(s) {
      r := BoxStep(out, r, st.headedCommentBlock, 0, Some(PINK));
      r := r.(headedCommentsDone := true, inHeadedComments := false);
    }
    if !r.headedCommentsDone && IsFunctionDeclaration(s) {
      if |r.headedCommentBlock| > 0 {
        r := BoxStep(out, r, r.headedCommentBlock, 0, Some(PINK));
      }
      r := r.(headedCommentsDone := true, isStartOfFunction := true);
    }
  }

  /** Lines 124-166. */
  method BodyStep(out: Canvas<Line>, st: State, s: string) returns (r: State)
    requires Valid(st) && out.lines == st.out
    modifies out
    ensures r == Body(st, s) && out.lines == r.out
  {
    var isDecl := VariableDeclarationScan(s);
    if st.isStartOfFunction && isDecl {
      r := BoxStep(out, st, s, 0, None);
    } else if IsControlStatement(s) {
      r := BoxStep(out, st, s, st.depth, None);
      r := r.(controlPending := true);
    } else if st.controlPending && '{' in s {
      r := BoxStep(out, st, s, st.depth, None);
      r := r.(depth := st.depth + 1, controlPending := false);
    } else if st.controlPending {
      r := BoxStep(out, st, s, st.depth + 1, None);
      r := r.(controlPending := false);
    } else if '{' in s && '}' !in s {
      r := BoxStep(out, st, s, st.depth, None);
      r := r.(depth := st.depth + 1);
    } else if '}' in s && '{' !in s {
      var d := if st.depth > 0 then st.depth - 1 else 0;
      r := BoxStep(out, st.(depth := d), s, d, None);
    } else {
      r := BoxStep(out, st, s, st.depth, None);
    }
  }

  /** One iteration of the reading loop. */
  method ProcessLine(out: Canvas<Line>, st: State, raw: string) returns (r: State)
    requires Valid(st) && out.lines == st.out
    modifies out
    ensures r == Step(st, Trim(raw)) && out.lines == r.out
  {
    var s := TrimLine(raw);
    if !st.headedCommentsDone && IsPreprocessor(s) {
      r := BoxStep(out, st, s, 0, None);
    } else if !st.headedCommentsDone && IsComment(s) {
      r := st.(headedCommentBlock := st.headedCommentBlock + s + "\n", inHeadedComments := true);
    } else {
      r := GroupingStep(out, st, s);
      r := BodyStep(out, r, s);
    }
  }

  /** `process_code`, on the lines of an opened file. */
  method ProcessCode(lines: seq<string>) returns (output: seq<Line>)
    ensures output == ProcessCodeOutput(lines)
  {
    var out := new Canvas<Line>();
    var st := INITIAL;
    for i := 0 to |lines|
      invariant st == Run(lines[..i]) && out.lines == st.out
    {
      assert lines[..i + 1][..i] == lines[..i];
      st := ProcessLine(out, st, lines[i]);
    }
    assert lines[..|lines|] == lines;
    output := out.lines;
  }

  /* Properties of `process_code`. */

  /** When the depth changes it goes up by one or down by one, clamped at zero: it is never negative. */
  lemma {:induction false} DepthNeverNegative(lines: seq<string>)
    ensures Run(lines).depth >= 0
    ensures lines != [] ==> var before := Run(lines[..|lines| - 1]).depth; var after := Run(lines).depth;
      after == before || after == before + 1 || after == Max(0, before - 1)
  {
    if lines != [] {
      var st := Run(lines[..|lines| - 1]);
      assert Run(lines) == Step(st, Trim(lines[|lines| - 1]));
    }
  }

  /** The grouping, once done, is never undone, and the function-start flag no longer changes. */
  lemma GroupingDoneStays(st: State, s: string)
    requires Valid(st) && st.headedCommentsDone
    ensures Step(st, s).headedCommentsDone && Step(st, s).isStartOfFunction == st.isStartOfFunction
  {
  }

  /**
   * Before the grouping is done a preprocessor line is boxed at depth 0 in
   * the colour of depth 0, whatever the depth, and a comment line is only
   * gathered.
   */
  lemma BeforeGrouping(st: State, s: string)
    requires Valid(st) && !st.headedCommentsDone
    ensures IsPreprocessor(s) ==> Step(st, s) == st.(out := st.out + BoxLines(s, 0, None))
    ensures !IsPreprocessor(s) && IsComment(s) ==>
      Step(st, s).out == st.out && Step(st, s).headedCommentBlock == st.headedCommentBlock + s + "\n"
  {
  }

  /**
   * As written, the line that flushes the headed comments finishes the
   * grouping before the function test, so a function header there does not
   * start a function and the declarations after it are not drawn at depth 0.
   */
  lemma FlushSkipsFunctionStart(st: State, s: string)
    requires Valid(st) && st.inHeadedComments && !IsComment(s) && !IsPreprocessor(s)
    ensures Step(st, s).headedCommentsDone && !Step(st, s).isStartOfFunction
  {
  }

  /** Without headed comments, the first function header starts the function. */
  lemma FunctionHeaderStarts(st: State, s: string)
    requires Valid(st) && !st.headedCommentsDone && !st.inHeadedComments
    requires !IsComment(s) && !IsPreprocessor(s) && IsFunctionDeclaration(s)
    ensures Step(st, s).headedCommentsDone && Step(st, s).isStartOfFunction
  {
  }

  /**
   * A pending control statement is resolved by the next line that reaches
   * the test: with a `{` it is boxed at the depth and the depth goes up;
   * without, it is boxed one level deeper and the depth stays.
   */
  lemma PendingControl(st: State, s: string)
    requires Valid(st) && st.controlPending
    requires !(st.isStartOfFunction && IsVariableDeclaration(s)) && !IsControlStatement(s)
    ensures var r := Body(st, s);
      !r.controlPending &&
      ('{' in s ==> r.depth == st.depth + 1 && r.out == st.out + BoxLines(s, st.depth, None)) &&
      ('{' !in s ==> r.depth == st.depth && r.out == st.out + BoxLines(s, st.depth + 1, None))
  {
  }

  /** An opening line is boxed at the old depth before the depth goes up. */
  lemma OpeningBoxedBeforeIncrement(st: State, s: string)
    requires Valid(st) && !st.controlPending && '{' in s && '}' !in s
    requires !(st.isStartOfFunction && IsVariableDeclaration(s))
    ensures var r := Body(st, s);
      r.depth == st.depth + 1 && r.out == st.out + BoxLines(s, st.depth, None)
  {
  }

  /** A closing line lowers the depth first, clamped at zero, and is boxed at the new depth. */
  lemma ClosingBoxedAfterDecrement(st: State, s: string)
    requires Valid(st) && !st.controlPending && '}' in s && '{' !in s && !IsControlStatement(s)
    requires !(st.isStartOfFunction && IsVariableDeclaration(s))
    ensures var r := Body(st, s);
      r.depth == Max(0, st.depth - 1) && r.out == st.out + BoxLines(s, Max(0, st.depth - 1), None)
  {
  }
}
