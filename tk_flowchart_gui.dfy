/**
 * tkinter/tk_flowchart_gui.py, without its widgets: a box that may hold
 * several lines, the Python pass, a C pass that groups a multi-line comment
 * into one box, and the choice of pass by file suffix. The colour table and
 * `get_arrow_color_for_depth` are those of the Python tool and are taken
 * from `FlowchartGeneratorForPython`.
 */
module TkFlowchartGui {
  import opened Text
  import opened Layout
  import opened Indentation
  import opened CPatterns
  import Py = FlowchartGeneratorForPython
  import Both = FlowchartGeneratorBoth

  /* `print_box` and `process_code_line`, the same code under two names. */

  /** `max(len(line) for line in lines)`. */
  function MaxLen(ls: seq<string>): (m: nat)
    requires |ls| >= 1
    ensures forall k :: 0 <= k < |ls| ==> |ls[k]| <= m
    ensures exists k :: 0 <= k < |ls| && |ls[k]| == m
    decreases |ls|
  {
    if |ls| == 1 then |ls[0]|
    else
      var m := MaxLen(ls[..|ls| - 1]);
      if |ls[|ls| - 1]| > m then |ls[|ls| - 1]| else m
  }

  /** `box_width`: the longest line of the text plus six. */
  function TkBoxWidth(stmt: string): int {
    MaxLen(Split(stmt, '\n')) + 6
  }

  /** One content line per text line, each padded to `w - 4` columns. */
  function ContentLines(parts: seq<string>, indent: string, color: nat, w: int): (rows: seq<Line>)
    ensures |rows| == |parts|
    decreases |parts|
  {
    if parts == [] then []
    else
      ContentLines(parts[..|parts| - 1], indent, color, w)
        + [Painted(indent, color, "|  " + LJust(parts[|parts| - 1], w - 4) + "  |")]
  }

  /** A content line is as wide as the indentation, its padded text and the five frame characters. */
  lemma {:induction false} ContentWidths(parts: seq<string>, indent: string, color: nat, w: int)
    ensures var rows := ContentLines(parts, indent, color, w);
      forall k :: 0 <= k < |rows| ==>
        Width(rows[k]) == |indent| + 6 + (if w - 4 > |parts[k]| then w - 4 else |parts[k]|)
    decreases |parts|
  {
    if parts != [] {
      var n := |parts| - 1;
      ContentWidths(parts[..n], indent, color, w);
      var rows := ContentLines(parts, indent, color, w);
      assert forall k :: 0 <= k < n ==> rows[k] == ContentLines(parts[..n], indent, color, w)[k];
    }
  }

  /** The box of a text of one or more lines: a border, a content line per text line, a border. */
  function TkBoxLines(stmt: string, depth: int, color: nat): (box: seq<Line>)
    ensures |box| == |Split(stmt, '\n')| + 2
  {
    var indent := Spaces(depth * 4);
    var parts := Split(stmt, '\n');
    var w := MaxLen(parts) + 6;
    var border := Painted(indent, color, "+" + RepeatChar('-', w) + "+");
    [border] + ContentLines(parts, indent, color, w) + [border]
  }

  /** Both borders are the same line, and every line of the box takes the same number of columns. */
  lemma TkBoxShape(stmt: string, depth: int, color: nat)
    ensures var box := TkBoxLines(stmt, depth, color);
      box[0] == box[|box| - 1] &&
      forall k :: 0 <= k < |box| ==> Width(box[k]) == |Spaces(depth * 4)| + TkBoxWidth(stmt) + 2
  {
    var indent := Spaces(depth * 4);
    var parts := Split(stmt, '\n');
    var w := MaxLen(parts) + 6;
    var contents := ContentLines(parts, indent, color, w);
    var border := Painted(indent, color, "+" + RepeatChar('-', w) + "+");
    var box := TkBoxLines(stmt, depth, color);
    assert box == [border] + contents + [border];
    ContentWidths(parts, indent, color, w);
    assert forall k :: 0 <= k < |contents| ==> Width(contents[k]) == |indent| + w + 2;
    assert Width(border) == |indent| + w + 2;
    assert forall k :: 1 <= k < |box| - 1 ==> box[k] == contents[k - 1];
  }

  /** What `print_box` appends: the box, after an empty line exactly when it does not fit. */
  function TkBoxRows(stmt: string, depth: int, current: int, color: nat): (rows: seq<Line>)
    ensures |rows| == |Split(stmt, '\n')| + (if Wraps(current, TkBoxWidth(stmt)) then 3 else 2)
    ensures rows[0] == [] <==> Wraps(current, TkBoxWidth(stmt))
  {
    (if Wraps(current, TkBoxWidth(stmt)) then [[]] else []) + TkBoxLines(stmt, depth, color)
  }

  /** The content lines of a box, appended one by one. */
  method AppendContent(fc: Canvas<Line>, parts: seq<string>, indent: string, color: nat, w: int)
    modifies fc
    ensures fc.lines == old(fc.lines) + ContentLines(parts, indent, color, w)
  {
    ghost var start := fc.lines;
    for k := 0 to |parts|
      invariant fc.lines == start + ContentLines(parts[..k], indent, color, w)
    {
      assert parts[..k + 1][..k] == parts[..k];
      fc.Append(Painted(indent, color, "|  " + LJust(parts[k], w - 4) + "  |"));
    }
    assert parts[..|parts|] == parts;
  }

  /** The border, the content lines and the border again. */
  method AppendBox(fc: Canvas<Line>, stmt: string, depth: int, color: nat)
    modifies fc
    ensures fc.lines == old(fc.lines) + TkBoxLines(stmt, depth, color)
  {
    var indent := Spaces(depth * 4);
    var lines := Split(stmt, '\n');
    var boxWidth := MaxLen(lines) + 6;
    var border := Painted(indent, color, "+" + RepeatChar('-', boxWidth) + "+");
    fc.Append(border);
    AppendContent(fc, lines, indent, color, boxWidth);
    fc.Append(border);
  }

  /** `print_box(flowchart, stmt, depth, current_width, color)`, also `process_code_line`. */
  method PrintBox(fc: Canvas<Line>, stmt: string, depth: int, current: int, color: nat)
    returns (width: int)
    modifies fc
    ensures fc.lines == old(fc.lines) + TkBoxRows(stmt, depth, current, color)
    ensures width == Advance(current, TkBoxWidth(stmt))
  {
    var boxWidth := MaxLen(Split(stmt, '\n')) + 6;
    var cw := current;
    if cw + boxWidth > MAX_LINE_WIDTH {
      fc.Append([]);
      cw := 0;
    }
    AppendBox(fc, stmt, depth, color);
    width := cw + boxWidth;
  }

  /** For a text of one line the box is exactly the Python tool's box. */
  lemma SingleLineBox(stmt: string, depth: int, current: int, color: nat)
    requires '\n' !in stmt
    ensures TkBoxWidth(stmt) == Py.BoxWidth(stmt)
    ensures TkBoxRows(stmt, depth, current, color) == Py.PrintBoxRows(stmt, depth, current, color)
  {
    JoinSplit([stmt], '\n');
    assert Split(stmt, '\n') == [stmt];
    assert MaxLen([stmt]) == |stmt|;
    var indent := Spaces(depth * 4);
    var w := |stmt| + 6;
    assert ContentLines([stmt], indent, color, w) ==
           [Painted(indent, color, "|  " + LJust(stmt, w - 4) + "  |")] by {
      assert [stmt][..0] == [];
    }
    assert TkBoxLines(stmt, depth, color) == Py.BoxLines(stmt, depth, color);
  }

  /** A box of separate lines joined by newlines has one content line per joined line. */
  lemma JoinedBoxRows(block: seq<string>, depth: int, current: int, color: nat)
    requires |block| >= 1 && forall k :: 0 <= k < |block| ==> '\n' !in block[k]
    ensures var rows := TkBoxRows(Join("\n", block), depth, current, color);
      |rows| == |block| + (if Wraps(current, TkBoxWidth(Join("\n", block))) then 3 else 2)
  {
    JoinSplit(block, '\n');
  }

  /* The Python pass. It keeps the Python tool's state, but a `#` line is only boxed. */

  /** A non-blank line, by the first branch that applies. */
  function PyLineStep(st: Py.PassState, stripped: string, indent: nat): (r: Py.PassState)
    requires Py.Valid(st)
    ensures Py.Valid(r)
  {
    if st.insideMultilineComment then Py.DocstringLine(st, stripped)
    else if StartsWith(stripped, Py.TRIPLE_SINGLE) || StartsWith(stripped, Py.TRIPLE_DOUBLE) then Py.DocstringOpen(st, stripped)
    else if StartsWith(stripped, "#") then Py.Boxed(st, stripped, Py.GRAY)
    else Py.CodeLine(st, stripped, indent)
  }

  /** Only blank lines are skipped; a `#!` line is drawn. */
  predicate PySkipped(rawLine: string) {
    Strip(RStrip(rawLine)) == []
  }

  function PyStep(st: Py.PassState, rawLine: string): (r: Py.PassState)
    requires Py.Valid(st)
    ensures Py.Valid(r)
  {
    if PySkipped(rawLine) then st
    else PyLineStep(st, Strip(RStrip(rawLine)), IndentLevel(RStrip(rawLine)))
  }

  function PyRun(lines: seq<string>): (st: Py.PassState)
    ensures Py.Valid(st) && st.depth >= 0
    decreases |lines|
  {
    if lines == [] then Py.INITIAL else PyStep(PyRun(lines[..|lines| - 1]), lines[|lines| - 1])
  }

  /** What `generate_flowchart_from_python(code)` returns. */
  function PythonFlowchart(code: string): Line {
    JoinLines(PyRun(Py.SourceLines(code)).flowchart)
  }

  /** A line taken from a split on newlines keeps having none once stripped. */
  lemma StrippedHasNoNewline(raw: string)
    requires '\n' !in raw
    ensures '\n' !in Strip(RStrip(raw))
  {
    RStripPrefix(raw);
    StripChars(RStrip(raw), '\n');
  }

  /** One `print_box` call at the current depth of the Python pass. */
  method BoxStep(fc: Canvas<Line>, st: Py.PassState, stripped: string, color: nat) returns (r: Py.PassState)
    requires '\n' !in stripped && st.flowchart == fc.lines
    modifies fc
    ensures r == Py.Boxed(st, stripped, color) && fc.lines == r.flowchart
  {
    SingleLineBox(stripped, st.depth, st.currentWidth, color);
    var width := PrintBox(fc, stripped, st.depth, st.currentWidth, color);
    r := st.(currentWidth := width, flowchart := fc.lines);
  }

  /** The code-line branch. */
  method CodeLineStep(fc: Canvas<Line>, st: Py.PassState, stripped: string, indent: nat) returns (r: Py.PassState)
    requires Py.Valid(st) && '\n' !in stripped && st.flowchart == fc.lines
    modifies fc
    ensures r == Py.CodeLine(st, stripped, indent) && fc.lines == r.flowchart
  {
    var indentStack, depth := Dedent(st.indentStack, st.depth, indent);
    if indent > indentStack[|indentStack| - 1] {
      indentStack := indentStack + [indent];
      depth := depth + 1;
    }
    var st1 := st.(indentStack := indentStack, depth := depth);
    assert st1 == Py.Pushed(Py.Popped(st, indent), indent);
    r := BoxStep(fc, st1, stripped, Py.ArrowColor(depth));
    r := r.(lastWasControl := Py.IsControlStatement(stripped));
  }

  /** One iteration of the loop body. */
  method PyProcessLine(fc: Canvas<Line>, st: Py.PassState, rawLine: string) returns (r: Py.PassState)
    requires Py.Valid(st) && '\n' !in rawLine && st.flowchart == fc.lines
    modifies fc
    ensures r == PyStep(st, rawLine) && fc.lines == r.flowchart
  {
    var line := RStrip(rawLine);
    if Strip(line) == [] {
      return st;
    }
    var stripped := Strip(line);
    StrippedHasNoNewline(rawLine);
    var indent := IndentLevel(line);
    if st.insideMultilineComment {
      r := BoxStep(fc, st, stripped, Py.GRAY);
      if Contains(stripped, Py.TRIPLE_DOUBLE) || Contains(stripped, Py.TRIPLE_SINGLE) {
        r := r.(insideMultilineComment := false);
      }
    } else if StartsWith(stripped, Py.TRIPLE_SINGLE) || StartsWith(stripped, Py.TRIPLE_DOUBLE) {
      r := BoxStep(fc, st.(insideMultilineComment := !st.insideMultilineComment), stripped, Py.GRAY);
    } else if StartsWith(stripped, "#") {
      r := BoxStep(fc, st, stripped, Py.GRAY);
    } else {
      r := CodeLineStep(fc, st, stripped, indent);
    }
  }

  /** The `for` loop of `generate_flowchart_from_python`. */
  method RunPython(fc: Canvas<Line>, lines: seq<string>) returns (st: Py.PassState)
    requires fc.lines == [] && forall k :: 0 <= k < |lines| ==> '\n' !in lines[k]
    modifies fc
    ensures st == PyRun(lines) && fc.lines == st.flowchart
  {
    st := Py.INITIAL;
    for i := 0 to |lines|
      invariant st == PyRun(lines[..i]) && fc.lines == st.flowchart
    {
      assert lines[..i + 1][..i] == lines[..i];
      st := PyProcessLine(fc, st, lines[i]);
    }
    assert lines[..|lines|] == lines;
  }

  /** `generate_flowchart_from_python`. */
  method GenerateFlowchartFromPython(code: string) returns (chart: Line)
    ensures chart == PythonFlowchart(code)
  {
    var fc := new Canvas<Line>();
    var st := RunPython(fc, Py.SourceLines(code));
    chart := JoinLines(fc.lines);
  }

  /**
   * A skipped line changes nothing; a docstring line, a line opening one and
   * a `#` line leave the stack and the depth alone, even under a dedent.
   */
  lemma PyStepKeepsStackOnComments(st: Py.PassState, rawLine: string)
    requires Py.Valid(st)
    ensures PySkipped(rawLine) ==> PyStep(st, rawLine) == st
    ensures var stripped := Strip(RStrip(rawLine));
      var r := PyStep(st, rawLine);
      (st.insideMultilineComment || StartsWith(stripped, Py.TRIPLE_SINGLE) || StartsWith(stripped, Py.TRIPLE_DOUBLE) ||
       StartsWith(stripped, "#")) ==>
        r.indentStack == st.indentStack && r.depth == st.depth
  {
  }

  /* The C pass: a `while` loop over an index that a comment group moves past several lines. */

  /** `nesting_depth`, `len(brace_stack)`, `current_width`, `increment_next` and the output. */
  datatype CState = CState(depth: int, braces: nat, currentWidth: int, incrementNext: bool, flowchart: seq<Line>)

  /** The invariant of the C pass: the depth is the number of open braces. */
  predicate CValid(st: CState) {
    st.depth == st.braces
  }

  const C_INITIAL: CState := CState(0, 0, 0, false, [])

  /** One `process_code_line` call at `depth`: rows are appended, and the depth, braces and flag stay. */
  function CBox(st: CState, stmt: string, depth: int, color: nat): (r: CState)
    ensures r.depth == st.depth && r.braces == st.braces && r.incrementNext == st.incrementNext
    ensures |r.flowchart| >= |st.flowchart| + 2 && r.flowchart[..|st.flowchart|] == st.flowchart
  {
    st.(flowchart := st.flowchart + TkBoxRows(stmt, depth, st.currentWidth, color),
        currentWidth := Advance(st.currentWidth, TkBoxWidth(stmt)))
  }

  /** The index of the first line from `k` on whose stripped form ends in star-slash, or the end. */
  function CommentEnd(lines: seq<string>, k: nat): (e: nat)
    requires k <= |lines|
    ensures k <= e <= |lines|
    ensures e < |lines| ==> EndsWith(Strip(lines[e]), "*/")
    ensures forall m :: k <= m < e ==> !EndsWith(Strip(lines[m]), "*/")
    decreases |lines| - k
  {
    if k == |lines| then k else if EndsWith(Strip(lines[k]), "*/") then k else CommentEnd(lines, k + 1)
  }

  /** The first closer is determined by where it is: no closer before it, and a closer at it (or the end). */
  lemma {:induction false} CommentEndAt(lines: seq<string>, k: nat, e: nat)
    requires k <= e <= |lines|
    requires forall m :: k <= m < e ==> !EndsWith(Strip(lines[m]), "*/")
    requires e == |lines| || EndsWith(Strip(lines[e]), "*/")
    ensures CommentEnd(lines, k) == e
    decreases e - k
  {
    if k < e {
      CommentEndAt(lines, k + 1, e);
    }
  }

  /** `[lines[m].strip() for m in range(a, b)]`. */
  function StrippedRange(lines: seq<string>, a: nat, b: nat): (r: seq<string>)
    requires a <= b <= |lines|
    ensures |r| == b - a
    ensures forall m :: 0 <= m < |r| ==> r[m] == Strip(lines[a + m])
    decreases b - a
  {
    if a == b then [] else StrippedRange(lines, a, b - 1) + [Strip(lines[b - 1])]
  }

  /** Where the index goes after a comment group opened at `i`: one past its closer, or the end. */
  function GroupNext(lines: seq<string>, i: nat): (j: nat)
    requires i < |lines|
    ensures i < j <= |lines|
  {
    var e := CommentEnd(lines, i + 1);
    if e < |lines| then e + 1 else |lines|
  }

  /** The lines of a comment group opened at `i`, stripped: the opener through the closer. */
  function GroupBlock(lines: seq<string>, i: nat): (block: seq<string>)
    requires i < |lines|
    ensures |block| == GroupNext(lines, i) - i && block[0] == Strip(lines[i])
  {
    [Strip(lines[i])] + StrippedRange(lines, i + 1, GroupNext(lines, i))
  }

  /** A line opening a comment that it does not close on the same line. */
  predicate OpensGroup(line: string) {
    StartsWith(line, "/*") && !EndsWith(line, "*/")
  }

  /** A control header, boxed at the current depth. */
  function HeaderStep(st: CState, line: string, next: string): (r: CState)
    requires CValid(st)
    ensures CValid(r)
  {
    var st1 := CBox(st, line, st.depth, Py.ArrowColor(st.depth));
    if next == "{" then st1.(braces := st.braces + 1, depth := st.depth + 1)
    else if !StartsWith(next, "{") then st1.(incrementNext := true)
    else st1
  }

  /** Every branch that moves the index by one line. */
  function CLineStep(st: CState, line: string, next: string): (r: CState)
    requires CValid(st)
    ensures CValid(r)
  {
    if StartsWith(line, "/*") && EndsWith(line, "*/") then CBox(st, line, st.depth, Py.GRAY)
    else if line == [] then st
    else if IsHeader(line) then HeaderStep(st, line, next)
    else if st.incrementNext then CBox(st, line, st.depth + 1, Py.ArrowColor(st.depth + 1)).(incrementNext := false)
    else if line == "{" then st.(braces := st.braces + 1, depth := st.depth + 1)
    else if line == "}" then
      if st.braces > 0 then st.(braces := st.braces - 1, depth := st.depth - 1) else st
    else CBox(st, line, st.depth, Py.ArrowColor(st.depth))
  }

  /** The position and the state between two iterations of the outer loop. */
  datatype Cursor = Cursor(next: nat, st: CState)

  /** One iteration of the outer loop at index `i`. */
  function CStep(lines: seq<string>, i: nat, st: CState): (c: Cursor)
    requires i < |lines| && CValid(st)
    ensures i < c.next <= |lines| && CValid(c.st)
  {
    var line := Strip(lines[i]);
    if OpensGroup(line)
    then Cursor(GroupNext(lines, i), CBox(st, Join("\n", GroupBlock(lines, i)), st.depth, Py.GRAY))
    else Cursor(i + 1, CLineStep(st, line, Both.NextLine(lines, i)))
  }

  /** The state at the end of the loop, started at index `i` in state `st`. */
  function CExec(lines: seq<string>, i: nat, st: CState): (r: CState)
    requires i <= |lines| && CValid(st)
    ensures CValid(r) && r.depth >= 0
    decreases |lines| - i
  {
    if i == |lines| then st
    else
      var c := CStep(lines, i, st);
      CExec(lines, c.next, c.st)
  }

  /** What `generate_flowchart_from_c_code(code)` returns. */
  function CFlowchart(code: string): Line {
    JoinLines(CExec(SplitLines(Strip(code)), 0, C_INITIAL).flowchart)
  }

  /** The inner loop that gathers a comment group opened at `i`. */
  method CollectGroup(lines: seq<string>, i: nat) returns (block: seq<string>, j: nat)
    requires i < |lines|
    ensures block == GroupBlock(lines, i) && j == GroupNext(lines, i)
  {
    block := [Strip(lines[i])];
    var k := i + 1;
    var closed := false;
    while k < |lines| && !closed
      invariant i + 1 <= k <= |lines|
      invariant closed ==> k < |lines| && EndsWith(Strip(lines[k]), "*/")
      invariant block == [Strip(lines[i])] + StrippedRange(lines, i + 1, if closed then k + 1 else k)
      invariant forall m :: i + 1 <= m < k ==> !EndsWith(Strip(lines[m]), "*/")
      decreases |lines| - k, if closed then 0 else 1
    {
      var line := Strip(lines[k]);
      block := block + [line];
      if EndsWith(line, "*/") {
        closed := true;
      } else {
        k := k + 1;
      }
    }
    CommentEndAt(lines, i + 1, k);
    j := if closed then k + 1 else k;
  }

  /** The branch of a comment group. */
  method GroupStep(fc: Canvas<Line>, lines: seq<string>, i: nat, st: CState) returns (c: Cursor)
    requires i < |lines| && CValid(st) && fc.lines == st.flowchart && OpensGroup(Strip(lines[i]))
    modifies fc
    ensures c == CStep(lines, i, st) && fc.lines == c.st.flowchart
  {
    var block, j := CollectGroup(lines, i);
    var width := PrintBox(fc, Join("\n", block), st.depth, st.currentWidth, Py.GRAY);
    c := Cursor(j, st.(currentWidth := width, flowchart := fc.lines));
  }

  /** One `process_code_line` call of the C pass. */
  method CBoxStep(fc: Canvas<Line>, st: CState, stmt: string, depth: int, color: nat) returns (r: CState)
    requires fc.lines == st.flowchart
    modifies fc
    ensures r == CBox(st, stmt, depth, color) && fc.lines == r.flowchart
  {
    var width := PrintBox(fc, stmt, depth, st.currentWidth, color);
    r := st.(currentWidth := width, flowchart := fc.lines);
  }

  /** The branches that move the index by one line. */
  method LineStep(fc: Canvas<Line>, st: CState, line: string, next: string) returns (r: CState)
    requires CValid(st) && fc.lines == st.flowchart
    modifies fc
    ensures r == CLineStep(st, line, next) && fc.lines == r.flowchart
  {
    if StartsWith(line, "/*") && EndsWith(line, "*/") {
      r := CBoxStep(fc, st, line, st.depth, Py.GRAY);
    } else if line == [] {
      r := st;
    } else if IsHeader(line) {
      r := CBoxStep(fc, st, line, st.depth, Py.ArrowColor(st.depth));
      if next == "{" {
        r := r.(braces := r.braces + 1, depth := r.depth + 1);
      } else if !StartsWith(next, "{") {
        r := r.(incrementNext := true);
      }
    } else if st.incrementNext {
      r := CBoxStep(fc, st, line, st.depth + 1, Py.ArrowColor(st.depth + 1));
      r := r.(incrementNext := false);
    } else if line == "{" {
      r := st.(braces := st.braces + 1, depth := st.depth + 1);
    } else if line == "}" {
      r := st;
      if st.braces > 0 {
        r := st.(braces := st.braces - 1, depth := st.depth - 1);
      }
    } else {
      r := CBoxStep(fc, st, line, st.depth, Py.ArrowColor(st.depth));
    }
  }

  /** The outer `while` loop. */
  method RunC(fc: Canvas<Line>, lines: seq<string>) returns (st: CState)
    requires fc.lines == []
    modifies fc
    ensures st == CExec(lines, 0, C_INITIAL) && fc.lines == st.flowchart
  {
    st := C_INITIAL;
    var i := 0;
    while i < |lines|
      invariant i <= |lines| && CValid(st) && fc.lines == st.flowchart
      invariant CExec(lines, i, st) == CExec(lines, 0, C_INITIAL)
      decreases |lines| - i
    {
      var c := LoopBody(fc, lines, i, st);
      assert CExec(lines, i, st) == CExec(lines, c.next, c.st);
      i, st := c.next, c.st;
    }
  }

  /** One iteration of the outer loop: a comment group, or a single line. */
  method LoopBody(fc: Canvas<Line>, lines: seq<string>, i: nat, st: CState) returns (c: Cursor)
    requires i < |lines| && CValid(st) && fc.lines == st.flowchart
    modifies fc
    ensures c == CStep(lines, i, st) && fc.lines == c.st.flowchart
  {
    var line := Strip(lines[i]);
    if OpensGroup(line) {
      c := GroupStep(fc, lines, i, st);
    } else {
      var next := if i + 1 < |lines| then Strip(lines[i + 1]) else "";
      var r := LineStep(fc, st, line, next);
      c := Cursor(i + 1, r);
    }
  }

  /** `generate_flowchart_from_c_code`. */
  method GenerateFlowchartFromCCode(code: string) returns (chart: Line)
    ensures chart == CFlowchart(code)
  {
    var fc := new Canvas<Line>();
    var st := RunC(fc, SplitLines(Strip(code)));
    chart := JoinLines(fc.lines);
  }

  /* Properties of the C pass. */

  /** A header keyword starts with a letter, so a header is never a comment line or a brace. */
  lemma HeaderStartsWithLetter(line: string)
    requires IsHeader(line)
    ensures line != [] && 'a' <= line[0] <= 'z'
  {
    var kw :| kw in HEADER_KEYWORDS && KeywordAt(line, kw);
    assert line[..|kw|][0] == line[0];
  }

  /**
   * As written, a header followed by a line of exactly `{` opens two levels:
   * the header pushes for the brace but moves on by one line only, and the
   * brace line, read again, pushes once more.
   */
  lemma HeaderThenBracePushesTwice(st: CState, header: string, after: string)
    requires CValid(st) && IsHeader(header) && !st.incrementNext
    ensures var st1 := CLineStep(st, header, "{");
      var r := CLineStep(st1, "{", after);
      r.depth == st.depth + 2 && r.braces == st.braces + 2 &&
      r.flowchart == st.flowchart + TkBoxRows(header, st.depth, st.currentWidth, Py.ArrowColor(st.depth))
  {
    HeaderStartsWithLetter(header);
    assert !StartsWith(header, "/*");
    assert !IsHeader("{") && !StartsWith("{", "/*");
  }

  /**
   * A header whose next line does not start with `{` is boxed at the current
   * depth and leaves a body pending, the depth unchanged.
   */
  lemma HeaderSetsPending(st: CState, header: string, next: string)
    requires CValid(st) && IsHeader(header) && !StartsWith(next, "{")
    ensures var r := CLineStep(st, header, next);
      r.incrementNext && r.depth == st.depth && r.braces == st.braces &&
      r.flowchart == st.flowchart + TkBoxRows(header, st.depth, st.currentWidth, Py.ArrowColor(st.depth))
  {
    HeaderStartsWithLetter(header);
    assert !StartsWith(header, "/*");
    assert next != "{";
  }

  /**
   * With a body pending, a line that is not empty, a header or a comment is
   * boxed one level deeper; the depth stays and the flag is cleared.
   */
  lemma PendingBodyStep(st: CState, body: string, after: string)
    requires CValid(st) && st.incrementNext
    requires body != [] && !IsHeader(body) && !StartsWith(body, "/*")
    ensures var r := CLineStep(st, body, after);
      !r.incrementNext && r.depth == st.depth && r.braces == st.braces &&
      r.flowchart == st.flowchart + TkBoxRows(body, st.depth + 1, st.currentWidth, Py.ArrowColor(st.depth + 1))
  {
  }

  /** A `}` with no open brace changes nothing. */
  lemma StrayCloseIgnored(st: CState, after: string)
    requires CValid(st) && st.braces == 0 && !st.incrementNext
    ensures CLineStep(st, "}", after) == st
  {
    assert !IsHeader("}") && !StartsWith("}", "/*");
  }

  /**
   * A comment group is one gray box at the current depth holding the opener
   * and every line through the first closer, one content line each; the loop
   * goes on after the closer.
   */
  lemma GroupIsOneBox(lines: seq<string>, i: nat, st: CState)
    requires i < |lines| && CValid(st) && OpensGroup(Strip(lines[i]))
    requires forall k :: 0 <= k < |lines| ==> '\n' !in lines[k]
    ensures var c := CStep(lines, i, st);
      var block := GroupBlock(lines, i);
      c.next == GroupNext(lines, i) && c.st.depth == st.depth && c.st.braces == st.braces &&
      c.st.flowchart == st.flowchart + TkBoxRows(Join("\n", block), st.depth, st.currentWidth, Py.GRAY) &&
      |c.st.flowchart| - |st.flowchart| >= |block| + 2
    ensures var e := CommentEnd(lines, i + 1);
      (forall m :: i < m < e ==> !EndsWith(Strip(lines[m]), "*/")) &&
      (e < |lines| ==> GroupNext(lines, i) == e + 1 && EndsWith(Strip(lines[e]), "*/"))
  {
    var block := GroupBlock(lines, i);
    forall k | 0 <= k < |block|
      ensures '\n' !in block[k]
    {
      if k == 0 {
        StripChars(lines[i], '\n');
      } else {
        StripChars(lines[i + k], '\n');
      }
    }
    JoinedBoxRows(block, st.depth, st.currentWidth, Py.GRAY);
  }

  /** A comment opened and closed on one line gets a gray box of its own. */
  lemma OneLineCommentBoxed(st: CState, line: string, next: string)
    requires CValid(st) && StartsWith(line, "/*") && EndsWith(line, "*/")
    ensures CLineStep(st, line, next) == CBox(st, line, st.depth, Py.GRAY)
  {
  }

  /* `detect_language`. */

  datatype Language = Python | C

  datatype Option<T> = None | Some(value: T)

  /** The pass for a file: by its suffix; any other file has none. */
  function DetectLanguage(path: string): (r: Option<Language>)
    ensures r == Some(Python) <==> EndsWith(path, ".py")
    ensures r == Some(C) <==> EndsWith(path, ".c")
    ensures r == None <==> !EndsWith(path, ".py") && !EndsWith(path, ".c")
  {
    if EndsWith(path, ".py") then
      assert path[|path| - 1] == 'y' by {
        assert path[|path| - 3..][2] == 'y';
      }
      Some(Python)
    else if EndsWith(path, ".c") then Some(C)
    else None
  }
}
