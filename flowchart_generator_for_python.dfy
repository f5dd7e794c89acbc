/**
 * flowchart_generator_for_python.py: the terminal flowchart of a Python
 * source. Each non-blank line becomes a box indented four columns per level
 * of the indentation stack, in the colour of its depth; docstring and `#`
 * lines are boxed in gray. A `#` comment after a control line or under a
 * dedent re-synchronises the depth.
 */
module FlowchartGeneratorForPython {
  import opened Text
  import opened Layout
  import opened Indentation

  /** `NESTING_COLORS[0]` .. `NESTING_COLORS[12]`, as SGR numbers. */
  const NESTING_COLORS: seq<nat> := [94, 92, 93, 91, 95, 96, 33, 36, 37, 41, 42, 43, 44]

  /** The table has one more key, `'default'`, so `len(NESTING_COLORS)` is 14. */
  const TABLE_KEYS: nat := |NESTING_COLORS| + 1

  /** `NESTING_COLORS[8]`, used for comments and docstrings. */
  const GRAY: nat := 37

  /**
   * `get_arrow_color_for_depth`: `NESTING_COLORS.get(depth % 14, RESET)`. The
   * modulus counts the `'default'` key, so residue 13 finds no numbered entry
   * and falls back to RESET.
   */
  function ArrowColor(depth: int): (c: nat)
    ensures c in NESTING_COLORS || c == RESET
    ensures c == RESET <==> depth % 14 == 13
  {
    var k := depth % TABLE_KEYS;
    if k < |NESTING_COLORS| then NESTING_COLORS[k] else RESET
  }

  /** The colour of a depth repeats every 14 levels. */
  lemma ArrowColorPeriodic(depth: int)
    ensures ArrowColor(depth + 14) == ArrowColor(depth)
  {
    assert (depth + 14) % 14 == depth % 14;
  }

  const CONTROL_KEYWORDS: seq<string> := ["if", "elif", "else", "for", "while", "try", "except", "finally"]

  /** `re.match(r'^\s*(if|elif|else|for|while|try|except|finally)\b', line)`. */
  predicate IsControlStatement(line: string) {
    exists kw :: kw in CONTROL_KEYWORDS && KeywordAt(LStrip(line), kw)
  }

  /** A control statement's first non-blank character is the first letter of a keyword. */
  lemma ControlStatementFirstChar(line: string)
    requires IsControlStatement(line)
    ensures var s := LStrip(line); s != [] && (s[0] == 'i' || s[0] == 'e' || s[0] == 'f' || s[0] == 'w' || s[0] == 't')
  {
    var kw :| kw in CONTROL_KEYWORDS && KeywordAt(LStrip(line), kw);
    assert LStrip(line)[0] == LStrip(line)[..|kw|][0] == kw[0];
  }

  /**
   * Conversely, a keyword after any blanks, at the end of the line or
   * followed by a character outside `\w`, makes a control statement.
   */
  lemma ControlKeywordMatches(ws: string, kw: string, rest: string)
    requires forall i :: 0 <= i < |ws| ==> IsSpace(ws[i])
    requires kw in CONTROL_KEYWORDS && (rest == [] || !IsWordChar(rest[0]))
    ensures IsControlStatement(ws + kw + rest)
  {
    assert ws + kw + rest == ws + (kw + rest);
    assert !IsSpace((kw + rest)[0]) by { assert (kw + rest)[0] == kw[0]; }
    LStripBlankPrefix(ws, kw + rest);
    assert (kw + rest)[..|kw|] == kw;
  }

  /** `box_width`: the text plus two columns of padding and a border each side. */
  function BoxWidth(stmt: string): int {
    |stmt| + 6
  }

  /**
   * The three lines `print_box` draws: border, content, border. Border and
   * content take the same number of columns: the indentation plus
   * `len(stmt) + 8`.
   */
  function BoxLines(stmt: string, depth: int, color: nat): (box: seq<Line>)
    ensures |box| == 3 && box[0] == box[2]
    ensures Width(box[0]) == Width(box[1]) == |Spaces(depth * 4)| + |stmt| + 8
    ensures box[0] != [] && box[1] != []
  {
    var indent := Spaces(depth * 4);
    var w := BoxWidth(stmt);
    var border := Painted(indent, color, "+" + RepeatChar('-', w) + "+");
    [border, Painted(indent, color, "|  " + LJust(stmt, w - 4) + "  |"), border]
  }

  /**
   * What `print_box` appends: the box, preceded by one empty line exactly
   * when the box does not fit on the current row.
   */
  function PrintBoxRows(stmt: string, depth: int, current: int, color: nat): (rows: seq<Line>)
    ensures |rows| == if Wraps(current, BoxWidth(stmt)) then 4 else 3
    ensures rows[0] == [] <==> Wraps(current, BoxWidth(stmt))
    ensures rows[|rows| - 3..] == BoxLines(stmt, depth, color)
  {
    (if Wraps(current, BoxWidth(stmt)) then [[]] else []) + BoxLines(stmt, depth, color)
  }

  /** `print_box(flowchart, stmt, depth, current_width, color)`. */
  method PrintBox(fc: Canvas<Line>, stmt: string, depth: int, current: int, color: nat)
    returns (width: int)
    modifies fc
    ensures fc.lines == old(fc.lines) + PrintBoxRows(stmt, depth, current, color)
    ensures width == Advance(current, BoxWidth(stmt))
  {
    var indent := Spaces(depth * 4);
    var boxWidth := |stmt| + 6;
    var cw := current;
    if cw + boxWidth > MAX_LINE_WIDTH {
      fc.Append([]);
      cw := 0;
    }
    var border := Painted(indent, color, "+" + RepeatChar('-', boxWidth) + "+");
    fc.Append(border);
    fc.Append(Painted(indent, color, "|  " + LJust(stmt, boxWidth - 4) + "  |"));
    fc.Append(border);
    width := cw + boxWidth;
  }

  /** The variables of `generate_flowchart_from_python` between two lines. */
  datatype PassState = PassState(
    indentStack: seq<int>,
    depth: int,
    currentWidth: int,
    insideMultilineComment: bool,
    lastWasControl: bool,
    flowchart: seq<Line>)

  /** The loop invariant: a well-formed stack and `depth == len(indent_stack) - 1`. */
  predicate Valid(st: PassState) {
    Increasing(st.indentStack) && st.depth == |st.indentStack| - 1
  }

  const INITIAL: PassState := PassState([0], 0, 0, false, false, [])

  const TRIPLE_DOUBLE: string := "\"\"\""
  const TRIPLE_SINGLE: string := "'''"

  /** One `print_box` call at the current depth: one box, perhaps after a wrap. */
  function Boxed(st: PassState, stmt: string, color: nat): (r: PassState)
    ensures r.flowchart == st.flowchart + PrintBoxRows(stmt, st.depth, st.currentWidth, color)
    ensures r.currentWidth == Advance(st.currentWidth, BoxWidth(stmt))
    ensures r.indentStack == st.indentStack && r.depth == st.depth
  {
    st.(flowchart := st.flowchart + PrintBoxRows(stmt, st.depth, st.currentWidth, color),
        currentWidth := Advance(st.currentWidth, BoxWidth(stmt)))
  }

  /** The pop loop, `depth` going down once per level popped. */
  function Popped(st: PassState, indent: nat): (r: PassState)
    requires Valid(st)
    ensures Valid(r) && r.indentStack == PopWhileLess(st.indentStack, indent)
    ensures r.flowchart == st.flowchart && r.currentWidth == st.currentWidth
  {
    var s := PopWhileLess(st.indentStack, indent);
    st.(indentStack := s, depth := st.depth - (|st.indentStack| - |s|))
  }

  /** `if indent > indent_stack[-1]: indent_stack.append(indent); depth += 1`. */
  function Pushed(st: PassState, indent: nat): (r: PassState)
    requires Valid(st)
    ensures Valid(r)
    ensures r.flowchart == st.flowchart && r.currentWidth == st.currentWidth
  {
    if indent > Top(st.indentStack)
    then st.(indentStack := st.indentStack + [indent], depth := st.depth + 1)
    else st
  }

  /**
   * Docstring mode is on: the line is boxed in gray at the current depth, the
   * stack is untouched, and the mode ends when the line holds a triple quote.
   */
  function DocstringLine(st: PassState, stripped: string): (r: PassState)
    requires Valid(st)
    ensures Valid(r)
    ensures r.indentStack == st.indentStack && r.depth == st.depth
    ensures r.flowchart == st.flowchart + PrintBoxRows(stripped, st.depth, st.currentWidth, GRAY)
    ensures !r.insideMultilineComment <==>
              !st.insideMultilineComment || Contains(stripped, TRIPLE_DOUBLE) || Contains(stripped, TRIPLE_SINGLE)
  {
    var closes := Contains(stripped, TRIPLE_DOUBLE) || Contains(stripped, TRIPLE_SINGLE);
    Boxed(st, stripped, GRAY).(insideMultilineComment := if closes then false else st.insideMultilineComment)
  }

  /** A line starting with a triple quote toggles the mode; the same line is not checked for a closer. */
  function DocstringOpen(st: PassState, stripped: string): (r: PassState)
    requires Valid(st)
    ensures Valid(r)
    ensures r.indentStack == st.indentStack && r.depth == st.depth
    ensures r.insideMultilineComment == !st.insideMultilineComment
    ensures r.flowchart == st.flowchart + PrintBoxRows(stripped, st.depth, st.currentWidth, GRAY)
  {
    Boxed(st.(insideMultilineComment := !st.insideMultilineComment), stripped, GRAY)
  }

  /**
   * A `#` comment: it pops only when its indentation is below the top of the
   * stack (or when it follows a control line), never pushes, and leaves
   * `last_was_control` off.
   */
  function CommentLine(st: PassState, stripped: string, indent: nat): (r: PassState)
    requires Valid(st)
    ensures Valid(r)
    ensures |r.indentStack| <= |st.indentStack| && r.indentStack == st.indentStack[..|r.indentStack|]
    ensures indent >= Top(st.indentStack) ==> r.indentStack == st.indentStack
    ensures !r.lastWasControl
    ensures r.insideMultilineComment == st.insideMultilineComment
    ensures r.flowchart == st.flowchart + PrintBoxRows(stripped, r.depth, st.currentWidth, GRAY)
  {
    var resync := indent < Top(st.indentStack) || st.lastWasControl;
    var st1 := if resync then Popped(st, indent).(lastWasControl := false) else st;
    Boxed(st1, stripped, GRAY)
  }

  /**
   * A code line: the stack keeps the levels shallower than the line and then
   * the line's own indentation, and the line is boxed at the new depth in the
   * colour of that depth.
   */
  function CodeLine(st: PassState, stripped: string, indent: nat): (r: PassState)
    requires Valid(st)
    ensures Valid(r)
    ensures r.indentStack == Reindent(st.indentStack, indent)
    ensures r.insideMultilineComment == st.insideMultilineComment
    ensures r.lastWasControl == IsControlStatement(stripped)
    ensures r.flowchart == st.flowchart + PrintBoxRows(stripped, r.depth, st.currentWidth, ArrowColor(r.depth))
  {
    var st1 := Pushed(Popped(st, indent), indent);
    Boxed(st1, stripped, ArrowColor(st1.depth)).(lastWasControl := IsControlStatement(stripped))
  }

  /** A non-blank line, by the first branch of the loop body that applies. */
  function LineStep(st: PassState, stripped: string, indent: nat): (r: PassState)
    requires Valid(st)
    ensures Valid(r)
  {
    if st.insideMultilineComment then DocstringLine(st, stripped)
    else if StartsWith(stripped, TRIPLE_SINGLE) || StartsWith(stripped, TRIPLE_DOUBLE) then DocstringOpen(st, stripped)
    else if StartsWith(stripped, "#") then CommentLine(st, stripped, indent)
    else CodeLine(st, stripped, indent)
  }

  /** Whether the pass skips a line: it is blank, or a `#!` line before anything is drawn. */
  predicate Skipped(st: PassState, rawLine: string) {
    var line := RStrip(rawLine);
    Strip(line) == [] || (StartsWith(line, "#!") && |st.flowchart| == 0)
  }

  /** One iteration of the `for` loop of `generate_flowchart_from_python`. */
  function Step(st: PassState, rawLine: string): (r: PassState)
    requires Valid(st)
    ensures Valid(r)
  {
    if Skipped(st, rawLine) then st
    else LineStep(st, Strip(RStrip(rawLine)), IndentLevel(RStrip(rawLine)))
  }

  /** The state after the loop has seen `lines`; the invariant holds throughout. */
  function Run(lines: seq<string>): (st: PassState)
    ensures Valid(st) && st.depth >= 0
    decreases |lines|
  {
    if lines == [] then INITIAL else Step(Run(lines[..|lines| - 1]), lines[|lines| - 1])
  }

  /** The lines the pass reads: `code.strip().splitlines()`. */
  function SourceLines(code: string): seq<string> {
    SplitLines(Strip(code))
  }

  /** What `generate_flowchart_from_python(code)` returns. */
  function Flowchart(code: string): Line {
    JoinLines(Run(SourceLines(code)).flowchart)
  }

  /** The docstring-mode branch of the loop body. */
  method DocstringLineStep(fc: Canvas<Line>, st: PassState, stripped: string)
    returns (r: PassState)
    requires Valid(st) && st.flowchart == fc.lines
    modifies fc
    ensures r == DocstringLine(st, stripped) && fc.lines == r.flowchart
  {
    var width := PrintBox(fc, stripped, st.depth, st.currentWidth, GRAY);
    var inside := st.insideMultilineComment;
    if Contains(stripped, TRIPLE_DOUBLE) || Contains(stripped, TRIPLE_SINGLE) {
      inside := false;
    }
    r := st.(currentWidth := width, insideMultilineComment := inside, flowchart := fc.lines);
  }

  /** The triple-quote branch of the loop body. */
  method DocstringOpenStep(fc: Canvas<Line>, st: PassState, stripped: string)
    returns (r: PassState)
    requires Valid(st) && st.flowchart == fc.lines
    modifies fc
    ensures r == DocstringOpen(st, stripped) && fc.lines == r.flowchart
  {
    var width := PrintBox(fc, stripped, st.depth, st.currentWidth, GRAY);
    r := st.(currentWidth := width, insideMultilineComment := !st.insideMultilineComment, flowchart := fc.lines);
  }

  /** The `#` branch of the loop body. */
  method CommentLineStep(fc: Canvas<Line>, st: PassState, stripped: string, indent: nat)
    returns (r: PassState)
    requires Valid(st) && st.flowchart == fc.lines
    modifies fc
    ensures r == CommentLine(st, stripped, indent) && fc.lines == r.flowchart
  {
    var st1 := st;
    if indent < st.indentStack[|st.indentStack| - 1] || st.lastWasControl {
      var indentStack, depth := Dedent(st.indentStack, st.depth, indent);
      st1 := st.(indentStack := indentStack, depth := depth, lastWasControl := false);
      assert st1 == Popped(st, indent).(lastWasControl := false);
    }
    var width := PrintBox(fc, stripped, st1.depth, st1.currentWidth, GRAY);
    r := st1.(currentWidth := width, flowchart := fc.lines);
    assert r == Boxed(st1, stripped, GRAY);
  }

  /** The code-line branch of the loop body. */
  method CodeLineStep(fc: Canvas<Line>, st: PassState, stripped: string, indent: nat)
    returns (r: PassState)
    requires Valid(st) && st.flowchart == fc.lines
    modifies fc
    ensures r == CodeLine(st, stripped, indent) && fc.lines == r.flowchart
  {
    var indentStack, depth := Dedent(st.indentStack, st.depth, indent);
    if indent > indentStack[|indentStack| - 1] {
      indentStack := indentStack + [indent];
      depth := depth + 1;
    }
    var st1 := st.(indentStack := indentStack, depth := depth);
    assert st1 == Pushed(Popped(st, indent), indent);
    var width := PrintBox(fc, stripped, depth, st.currentWidth, ArrowColor(depth));
    r := st1.(currentWidth := width, flowchart := fc.lines);
    assert r == Boxed(st1, stripped, ArrowColor(depth));
    r := r.(lastWasControl := IsControlStatement(stripped));
  }

  /** One iteration of the loop body: skip the line, or take the branch that applies. */
  method ProcessLine(fc: Canvas<Line>, st: PassState, rawLine: string) returns (r: PassState)
    requires Valid(st) && st.flowchart == fc.lines
    modifies fc
    ensures r == Step(st, rawLine) && fc.lines == r.flowchart
  {
    var line := RStrip(rawLine);
    if Strip(line) == [] || (StartsWith(line, "#!") && |fc.lines| == 0) {
      return st;
    }
    var stripped := Strip(line);
    var indent := IndentLevel(line);
    if st.insideMultilineComment {
      r := DocstringLineStep(fc, st, stripped);
    } else if StartsWith(stripped, TRIPLE_SINGLE) || StartsWith(stripped, TRIPLE_DOUBLE) {
      r := DocstringOpenStep(fc, st, stripped);
    } else if StartsWith(stripped, "#") {
      r := CommentLineStep(fc, st, stripped, indent);
    } else {
      r := CodeLineStep(fc, st, stripped, indent);
    }
  }

  /** `generate_flowchart_from_python`. */
  method GenerateFlowchartFromPython(code: string) returns (chart: Line)
    ensures chart == Flowchart(code)
  {
    var lines := SourceLines(code);
    var fc := new Canvas<Line>();
    var st := INITIAL;
    for i := 0 to |lines|
      invariant st == Run(lines[..i]) && fc.lines == st.flowchart
    {
      assert lines[..i + 1][..i] == lines[..i];
      st := ProcessLine(fc, st, lines[i]);
    }
    assert lines[..|lines|] == lines;
    chart := JoinLines(fc.lines);
  }

  /* Properties of one step of the pass. */

  /**
   * A skipped line changes nothing; any other line draws exactly one box:
   * three lines, after at most one empty line.
   */
  lemma {:induction false} StepDrawsOneBox(st: PassState, rawLine: string)
    requires Valid(st)
    ensures Skipped(st, rawLine) ==> Step(st, rawLine) == st
    ensures var r := Step(st, rawLine);
      !Skipped(st, rawLine) ==>
        |r.flowchart| - |st.flowchart| in {3, 4} && r.flowchart[..|st.flowchart|] == st.flowchart
  {
    if !Skipped(st, rawLine) {
      LineStepDrawsOneBox(st, Strip(RStrip(rawLine)), IndentLevel(RStrip(rawLine)));
    }
  }

  /** Every branch of `LineStep` appends the rows of one `print_box` call. */
  lemma LineStepDrawsOneBox(st: PassState, stripped: string, indent: nat)
    requires Valid(st)
    ensures var r := LineStep(st, stripped, indent);
      |r.flowchart| - |st.flowchart| in {3, 4} && r.flowchart[..|st.flowchart|] == st.flowchart
  {
    var r := LineStep(st, stripped, indent);
    var rows := r.flowchart[|st.flowchart|..];
    assert r.flowchart == st.flowchart + rows;
  }

  /** The widths of the boxes the pass draws for `lines`, in order. */
  function DrawnWidths(lines: seq<string>): seq<int>
    decreases |lines|
  {
    if lines == [] then []
    else
      var front := lines[..|lines| - 1];
      var raw := lines[|lines| - 1];
      DrawnWidths(front) + (if Skipped(Run(front), raw) then [] else [BoxWidth(Strip(RStrip(raw)))])
  }

  /**
   * `current_width` is the running width of the boxes drawn so far under the
   * wrap rule, so the rows of the chart obey `RowsWrapLaw`.
   */
  lemma {:induction false} RunWidth(lines: seq<string>)
    ensures Run(lines).currentWidth == RunningWidth(DrawnWidths(lines))
    decreases |lines|
  {
    if lines != [] {
      var front := lines[..|lines| - 1];
      var raw := lines[|lines| - 1];
      RunWidth(front);
      var ws := DrawnWidths(front);
      if !Skipped(Run(front), raw) {
        var w := BoxWidth(Strip(RStrip(raw)));
        assert (ws + [w])[..|ws|] == ws;
        LineStepWidth(Run(front), Strip(RStrip(raw)), IndentLevel(RStrip(raw)));
      } else {
        assert ws + [] == ws;
      }
    }
  }

  lemma LineStepWidth(st: PassState, stripped: string, indent: nat)
    requires Valid(st)
    ensures LineStep(st, stripped, indent).currentWidth == Advance(st.currentWidth, BoxWidth(stripped))
  {
  }
}
