/**
 * flowchart.py: the earliest C generator. Every statement becomes a box of
 * five output lines carrying its source line number, followed by a pipe and
 * an arrow labelled with the nesting depth. The depth follows braces and
 * control headers; it is not kept from going below zero.
 */
module Flowchart {
  import opened Text
  import opened Layout

  /** `NESTING_COLORS`: SGR numbers for depths 0 to 5. */
  const NESTING_COLORS: seq<nat> := [94, 92, 93, 91, 95, 96]

  /** `get_arrow_color_for_depth`: the table entry, or no colour for any other depth. */
  function ArrowColor(depth: int): (c: nat)
    ensures c in NESTING_COLORS || c == RESET
    ensures c == RESET <==> !(0 <= depth < |NESTING_COLORS|)
  {
    if 0 <= depth < |NESTING_COLORS| then NESTING_COLORS[depth] else RESET
  }

  /** The six depths of the table have six different colours; every other depth, also a negative one, has none. */
  lemma ArrowColorLevels(d: int, e: int)
    ensures 0 <= d < 6 && 0 <= e < 6 && d != e ==> ArrowColor(d) != ArrowColor(e)
    ensures 0 <= d < 6 ==> ArrowColor(d) != RESET
    ensures (d < 0 || 6 <= d) ==> ArrowColor(d) == RESET
  {
  }

  /* `process_code_line`. */

  /** `stmt_length`: the text plus twelve columns. */
  function StmtLength(stmt: string): int {
    |stmt| + 12
  }

  /** `" " * (nesting_depth * 10)`: empty for a negative depth. */
  function Shift(depth: int): string {
    Spaces(depth * 10)
  }

  /** An output line without colour. */
  function PlainLine(s: string): (l: Line)
    ensures Width(l) == |s| && l != []
  {
    var l := [Txt(s)];
    assert l[1..] == [];
    l
  }

  function Border(stmt: string, depth: int): Line {
    PlainLine(Shift(depth) + "+" + RepeatChar('-', StmtLength(stmt)) + "+")
  }

  /** The text padded by eight columns between bars, then the line-number tag. */
  function ContentLine(stmt: string, depth: int, lineNumber: int): Line {
    PlainLine(Shift(depth) + "| " + LJust(stmt, |stmt| + 8) + " |  " + LineTag(lineNumber))
  }

  /** `f"Line {line_number}"`. */
  function LineTag(lineNumber: int): string {
    "Line " + IntToString(lineNumber)
  }

  /** `f"v {nesting_depth}"`. */
  function DepthTag(depth: int): string {
    "v " + IntToString(depth)
  }

  /** A text ends with whatever was appended last. */
  lemma EndsWithAppended(a: string, t: string)
    ensures EndsWith(a + t, t)
  {
    assert (a + t)[|a + t| - |t|..] == t;
  }

  function PipeLine(depth: int): Line {
    PlainLine(Shift(depth) + Spaces(20) + "|")
  }

  /** The arrow, in the colour of the depth and labelled with it. */
  function ArrowLine(depth: int): Line {
    Painted(Shift(depth), ArrowColor(depth), Spaces(20) + DepthTag(depth))
  }

  /** The five entries of one statement. */
  function BoxEntries(stmt: string, depth: int, lineNumber: int): (e: seq<Line>)
    ensures |e| == 5 && e[0] == e[2]
  {
    [Border(stmt, depth), ContentLine(stmt, depth, lineNumber), Border(stmt, depth), PipeLine(depth), ArrowLine(depth)]
  }

  /** What `process_code_line` appends: the five entries, after an empty line exactly when they do not fit. */
  function BoxRows(stmt: string, depth: int, lineNumber: int, current: int): (rows: seq<Line>)
    ensures |rows| == if Wraps(current, StmtLength(stmt)) then 6 else 5
    ensures rows[0] == [] <==> Wraps(current, StmtLength(stmt))
    ensures rows[|rows| - 5..] == BoxEntries(stmt, depth, lineNumber)
  {
    (if Wraps(current, StmtLength(stmt)) then [[]] else []) + BoxEntries(stmt, depth, lineNumber)
  }

  /**
   * The borders are two columns wider than the barred text between them;
   * the content line ends with the line number and the arrow with the depth.
   */
  lemma BoxEntriesShape(stmt: string, depth: int, lineNumber: int)
    ensures var e := BoxEntries(stmt, depth, lineNumber);
      e[0] == e[2] &&
      Width(e[0]) == |Shift(depth)| + |stmt| + 14 &&
      Width(e[1]) == |Shift(depth)| + |stmt| + 19 + |IntToString(lineNumber)| &&
      EndsWith(e[1][0].s, "Line " + IntToString(lineNumber)) &&
      e[4][1] == Esc(ArrowColor(depth)) && EndsWith(e[4][2].s, "v " + IntToString(depth))
  {
    EndsWithAppended(Shift(depth) + "| " + LJust(stmt, |stmt| + 8) + " |  ", LineTag(lineNumber));
    EndsWithAppended(Spaces(20), DepthTag(depth));
  }

  /** The five appends of `process_code_line`. */
  method AppendEntries(fc: Canvas<Line>, stmt: string, depth: int, lineNumber: int)
    modifies fc
    ensures fc.lines == old(fc.lines) + BoxEntries(stmt, depth, lineNumber)
  {
    fc.Append(Border(stmt, depth));
    fc.Append(ContentLine(stmt, depth, lineNumber));
    fc.Append(Border(stmt, depth));
    fc.Append(PipeLine(depth));
    fc.Append(ArrowLine(depth));
  }

  /** `process_code_line(flowchart, stmt, nesting_depth, line_number, current_width)`. */
  method ProcessCodeLine(fc: Canvas<Line>, stmt: string, depth: int, lineNumber: int, current: int)
    returns (width: int)
    modifies fc
    ensures fc.lines == old(fc.lines) + BoxRows(stmt, depth, lineNumber, current)
    ensures width == Advance(current, StmtLength(stmt))
  {
    var stmtLength := |stmt| + 12;
    var cw := current;
    if cw + stmtLength > MAX_LINE_WIDTH {
      fc.Append([]);
      cw := 0;
    }
    AppendEntries(fc, stmt, depth, lineNumber);
    width := cw + stmtLength;
  }

  /* The loop of `generate_flowchart_from_c_code`. */

  /**
   * The variables of the loop: `brace_stack` holds only `{` markers and is
   * kept as its length; `unmatched` counts the error messages printed for a
   * `}` with nothing to close.
   */
  datatype State = State(
    depth: int,
    braces: nat,
    lineNumber: int,
    insideComment: bool,
    commentBlock: seq<string>,
    skipNextLine: bool,
    currentWidth: int,
    unmatched: nat,
    flowchart: seq<Line>)

  const INITIAL: State := State(0, 0, 1, false, [], false, 0, 0, [])

  const HEADER_PREFIXES: seq<string> := ["while", "for", "if", "else if", "else"]

  /** The header test: a plain prefix test, with no word boundary after the keyword. */
  predicate IsHeaderPrefix(line: string) {
    exists p :: p in HEADER_PREFIXES && StartsWith(line, p)
  }

  /** A header starts with the first letter of one of its keywords. */
  lemma HeaderPrefixFirstChar(line: string)
    requires IsHeaderPrefix(line)
    ensures line != [] && (line[0] == 'w' || line[0] == 'f' || line[0] == 'i' || line[0] == 'e')
  {
    var p :| p in HEADER_PREFIXES && StartsWith(line, p);
    assert line[0] == line[..|p|][0] == p[0];
  }

  /** One `process_code_line` call at the current depth and line number. */
  function Boxed(st: State, stmt: string): (r: State)
    ensures r.flowchart == st.flowchart + BoxRows(stmt, st.depth, st.lineNumber, st.currentWidth)
  {
    st.(flowchart := st.flowchart + BoxRows(stmt, st.depth, st.lineNumber, st.currentWidth),
        currentWidth := Advance(st.currentWidth, StmtLength(stmt)))
  }

  /** The two arrow lines drawn after a header that opens a block, at the new depth. */
  function HeaderArrows(depth: int): seq<Line> {
    [PlainLine(Spaces(depth * 10) + "   |"), PlainLine(Spaces(depth * 10) + "   v")]
  }

  /** A control header: boxed; one level deeper unless it ends with `;`; the next statement is marked. */
  function HeaderStep(st: State, line: string): (r: State)
    ensures r.skipNextLine && r.lineNumber == st.lineNumber + 1
    ensures r.depth == (if EndsWith(line, ";") then st.depth else st.depth + 1)
    ensures r.braces == st.braces && r.unmatched == st.unmatched && r.insideComment == st.insideComment
    ensures |r.flowchart| >= |st.flowchart| && r.flowchart[..|st.flowchart|] == st.flowchart
  {
    var st1 := Boxed(st, line);
    var st2 :=
      if !EndsWith(line, ";")
      then st1.(depth := st.depth + 1, flowchart := st1.flowchart + HeaderArrows(st.depth + 1))
      else st1;
    st2.(skipNextLine := true, lineNumber := st.lineNumber + 1)
  }

  /** A line inside a comment block: collected, and the block boxed as one statement at its closer. */
  function CommentStep(st: State, line: string): (r: State)
    ensures r.lineNumber == st.lineNumber + 1 && r.depth == st.depth && r.braces == st.braces
    ensures EndsWith(line, "*/") ==> !r.insideComment && r.commentBlock == []
    ensures !EndsWith(line, "*/") ==>
              r.insideComment == st.insideComment && r.commentBlock == st.commentBlock + [line] &&
              r.flowchart == st.flowchart
  {
    var block := st.commentBlock + [line];
    if EndsWith(line, "*/")
    then Boxed(st, Join("\n", block)).(insideComment := false, commentBlock := [], lineNumber := st.lineNumber + 1)
    else st.(commentBlock := block, lineNumber := st.lineNumber + 1)
  }

  /**
   * A non-blank stripped line, by the first branch that applies. The line
   * counter moves on by one, except for a `}` with nothing to close.
   */
  function LineStep(st: State, line: string): (r: State)
    ensures r.lineNumber + r.unmatched == st.lineNumber + st.unmatched + 1
  {
    if StartsWith(line, "/*") then
      st.(insideComment := true, commentBlock := st.commentBlock + [line], lineNumber := st.lineNumber + 1)
    else if st.insideComment then CommentStep(st, line)
    else if IsHeaderPrefix(line) then HeaderStep(st, line)
    else if line == "{" then st.(braces := st.braces + 1, depth := st.depth + 1, lineNumber := st.lineNumber + 1)
    else if line == "}" then
      if st.braces > 0
      then st.(braces := st.braces - 1, depth := Max(0, st.depth - 1), lineNumber := st.lineNumber + 1)
      else st.(unmatched := st.unmatched + 1)
    else if st.skipNextLine then
      Boxed(st, line).(skipNextLine := false, depth := st.depth - 1, lineNumber := st.lineNumber + 1)
    else Boxed(st, line).(lineNumber := st.lineNumber + 1)
  }

  /** One iteration of the `for` loop: a blank line only moves the counter on. */
  function Step(st: State, rawLine: string): (r: State)
    ensures r.lineNumber + r.unmatched == st.lineNumber + st.unmatched + 1
  {
    var line := Strip(rawLine);
    if line == [] then st.(lineNumber := st.lineNumber + 1) else LineStep(st, line)
  }

  /** The state after the loop has seen `lines`: every line but an unmatched `}` is counted. */
  function Run(lines: seq<string>): (st: State)
    ensures st.lineNumber + st.unmatched == |lines| + 1
    decreases |lines|
  {
    if lines == [] then INITIAL else Step(Run(lines[..|lines| - 1]), lines[|lines| - 1])
  }

  /** What `generate_flowchart_from_c_code(code)` returns; the lines are `code.strip().split('\n')`. */
  function CFlowchart(code: string): Line {
    JoinLines(Run(Split(Strip(code), '\n')).flowchart)
  }

  /** One `process_code_line` call of the loop. */
  method BoxStep(fc: Canvas<Line>, st: State, stmt: string) returns (r: State)
    requires fc.lines == st.flowchart
    modifies fc
    ensures r == Boxed(st, stmt) && fc.lines == r.flowchart
  {
    var width := ProcessCodeLine(fc, stmt, st.depth, st.lineNumber, st.currentWidth);
    r := st.(currentWidth := width, flowchart := fc.lines);
  }

  /** The header branch. */
  method HeaderLine(fc: Canvas<Line>, st: State, line: string) returns (r: State)
    requires fc.lines == st.flowchart
    modifies fc
    ensures r == HeaderStep(st, line) && fc.lines == r.flowchart
  {
    var st1 := BoxStep(fc, st, line);
    var st2 := st1;
    if !EndsWith(line, ";") {
      fc.Append(PlainLine(Spaces((st.depth + 1) * 10) + "   |"));
      fc.Append(PlainLine(Spaces((st.depth + 1) * 10) + "   v"));
      assert fc.lines == st1.flowchart + HeaderArrows(st.depth + 1);
      st2 := st1.(depth := st.depth + 1, flowchart := fc.lines);
    }
    r := st2.(skipNextLine := true, lineNumber := st.lineNumber + 1);
  }

  /** One iteration of the loop body. */
  method ProcessLine(fc: Canvas<Line>, st: State, rawLine: string) returns (r: State)
    requires fc.lines == st.flowchart
    modifies fc
    ensures r == Step(st, rawLine) && fc.lines == r.flowchart
  {
    var line := Strip(rawLine);
    if line == [] {
      return st.(lineNumber := st.lineNumber + 1);
    }
    if StartsWith(line, "/*") {
      r := st.(insideComment := true, commentBlock := st.commentBlock + [line], lineNumber := st.lineNumber + 1);
    } else if st.insideComment {
      var block := st.commentBlock + [line];
      if EndsWith(line, "*/") {
        r := BoxStep(fc, st, Join("\n", block));
        r := r.(insideComment := false, commentBlock := []);
      } else {
        r := st.(commentBlock := block);
      }
      r := r.(lineNumber := st.lineNumber + 1);
    } else if IsHeaderPrefix(line) {
      r := HeaderLine(fc, st, line);
    } else if line == "{" {
      r := st.(braces := st.braces + 1, depth := st.depth + 1, lineNumber := st.lineNumber + 1);
    } else if line == "}" {
      if st.braces > 0 {
        r := st.(braces := st.braces - 1, depth := Max(0, st.depth - 1), lineNumber := st.lineNumber + 1);
      } else {
        r := st.(unmatched := st.unmatched + 1);
      }
    } else if st.skipNextLine {
      r := BoxStep(fc, st, line);
      r := r.(skipNextLine := false, depth := st.depth - 1, lineNumber := st.lineNumber + 1);
    } else {
      r := BoxStep(fc, st, line);
      r := r.(lineNumber := st.lineNumber + 1);
    }
  }

  /** `generate_flowchart_from_c_code`. */
  method GenerateFlowchartFromCCode(code: string) returns (chart: Line)
    ensures chart == CFlowchart(code)
  {
    var lines := Split(Strip(code), '\n');
    var fc := new Canvas<Line>();
    var st := INITIAL;
    for i := 0 to |lines|
      invariant st == Run(lines[..i]) && fc.lines == st.flowchart
    {
      assert lines[..i + 1][..i] == lines[..i];
      st := ProcessLine(fc, st, lines[i]);
    }
    assert lines[..|lines|] == lines;
    chart := JoinLines(fc.lines);
  }

  /* Properties of the loop. */

  /** `{` outside a comment pushes a marker and goes one level deeper; nothing is drawn. */
  lemma OpenBrace(st: State)
    requires !st.insideComment
    ensures LineStep(st, "{") == st.(braces := st.braces + 1, depth := st.depth + 1, lineNumber := st.lineNumber + 1)
  {
    NotHeaderPrefix("{");
  }

  /**
   * `}` outside a comment with a level open closes it, the depth going down
   * but not below zero.
   */
  lemma CloseBrace(st: State)
    requires !st.insideComment && st.braces > 0
    ensures LineStep(st, "}") == st.(braces := st.braces - 1, depth := Max(0, st.depth - 1), lineNumber := st.lineNumber + 1)
  {
    NotHeaderPrefix("}");
  }

  /** `}` with nothing open only counts an error, and neither the depth nor the line counter moves. */
  lemma UnmatchedCloseBrace(st: State)
    requires !st.insideComment && st.braces == 0
    ensures LineStep(st, "}") == st.(unmatched := st.unmatched + 1)
  {
    NotHeaderPrefix("}");
  }

  /** A line starting with no header keyword's first letter is not a header. */
  lemma NotHeaderPrefix(line: string)
    requires line != [] && line[0] != 'w' && line[0] != 'f' && line[0] != 'i' && line[0] != 'e'
    ensures !IsHeaderPrefix(line)
  {
    if IsHeaderPrefix(line) {
      HeaderPrefixFirstChar(line);
    }
  }

  /**
   * A header is boxed at the current depth and marks the next statement; if
   * it does not end with `;` the depth goes up by one and two arrow lines follow.
   */
  lemma HeaderShape(st: State, line: string)
    requires !st.insideComment && IsHeaderPrefix(line)
    ensures var r := LineStep(st, line);
      r.skipNextLine && r.braces == st.braces && r.lineNumber == st.lineNumber + 1 &&
      r.depth == (if EndsWith(line, ";") then st.depth else st.depth + 1) &&
      r.flowchart == st.flowchart + BoxRows(line, st.depth, st.lineNumber, st.currentWidth)
                     + (if EndsWith(line, ";") then [] else HeaderArrows(st.depth + 1))
  {
    var p :| p in HEADER_PREFIXES && StartsWith(line, p);
    assert line[0] == p[0];
    assert !StartsWith(line, "/*");
    assert LineStep(st, line) == HeaderStep(st, line);
  }

  /** The header test has no word boundary: a call to `format` and an assignment to `iffy` are taken as headers. */
  lemma HeaderPrefixNoBoundary()
    ensures IsHeaderPrefix("format(x);") && IsHeaderPrefix("iffy = 1;")
  {
    assert StartsWith("format(x);", "for");
    assert StartsWith("iffy = 1;", "if");
  }

  /**
   * The statement after a header is boxed at the current depth and the depth
   * then goes down by one, with no clamp.
   */
  lemma MarkedStatement(st: State, line: string)
    requires !st.insideComment && st.skipNextLine && line != "{" && line != "}"
    requires !StartsWith(line, "/*") && !IsHeaderPrefix(line)
    ensures var r := LineStep(st, line);
      r.depth == st.depth - 1 && !r.skipNextLine &&
      r.flowchart == st.flowchart + BoxRows(line, st.depth, st.lineNumber, st.currentWidth)
  {
  }

  /** So the depth can go below zero: a header ending in `;` and one statement, from the start. */
  lemma DepthCanGoNegative()
    ensures LineStep(LineStep(INITIAL, "if (x);"), "y = 1;").depth == -1
  {
    assert StartsWith("if (x);", "if") && !StartsWith("if (x);", "/*");
    assert EndsWith("if (x);", ";");
    var st := HeaderStep(INITIAL, "if (x);");
    assert LineStep(INITIAL, "if (x);") == st;
    assert st.depth == 0 && st.skipNextLine && !st.insideComment;
    assert !StartsWith("y = 1;", "/*");
    NotHeaderPrefix("y = 1;");
    MarkedStatement(st, "y = 1;");
  }

  /**
   * A line that opens and closes a comment still opens a block: the next
   * line that neither opens a comment nor ends one is swallowed into it and
   * nothing is drawn.
   */
  lemma OneLineCommentSwallowsNext(st: State, comment: string, next: string)
    requires StartsWith(comment, "/*") && EndsWith(comment, "*/")
    requires !StartsWith(next, "/*") && !EndsWith(next, "*/")
    ensures var r := LineStep(LineStep(st, comment), next);
      r.insideComment && r.commentBlock == st.commentBlock + [comment, next] && r.flowchart == st.flowchart
  {
  }

  /** A comment block is boxed once, at its closing line, holding every line since its opener. */
  lemma CommentBlockBoxed(st: State, line: string)
    requires st.insideComment && !StartsWith(line, "/*") && EndsWith(line, "*/")
    ensures var r := LineStep(st, line);
      !r.insideComment && r.commentBlock == [] && r.depth == st.depth &&
      r.flowchart == st.flowchart + BoxRows(Join("\n", st.commentBlock + [line]), st.depth, st.lineNumber, st.currentWidth)
  {
  }
}
