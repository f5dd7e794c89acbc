/**
 * flowchart_generator_both.py: one tool for Python and C sources. Its Python
 * pass is the same code as flowchart_generator_for_python.py and is
 * modelled once, in `FlowchartGeneratorForPython`. Its C pass sorts the
 * lines into buckets (comments, includes, prototypes, declarations, logic),
 * draws the buckets as titled sections, then walks the logic lines keeping
 * the brace depth.
 */
module FlowchartGeneratorBoth {
  import opened Text
  import opened Layout
  import opened CPatterns
  import Py = FlowchartGeneratorForPython

  /** `NESTING_COLORS.get(depth, RESET)`: no modulus, so a depth past the table is uncoloured. */
  function DepthColor(depth: int): (c: nat)
    ensures c in Py.NESTING_COLORS || c == RESET
    ensures c == RESET <==> !(0 <= depth < |Py.NESTING_COLORS|)
  {
    if 0 <= depth < |Py.NESTING_COLORS| then Py.NESTING_COLORS[depth] else RESET
  }

  /** Within the table the C colour agrees with the Python pass's arrow colour. */
  lemma DepthColorAgreesWithArrowColor(depth: int)
    requires 0 <= depth < |Py.NESTING_COLORS|
    ensures DepthColor(depth) == Py.ArrowColor(depth)
  {
    assert Py.TABLE_KEYS == 14;
    assert depth % 14 == depth;
  }

  /** `NESTING_COLORS[0]` and `NESTING_COLORS[4]`. */
  const BLUE: nat := 94
  const PINK: nat := 95

  /** `stmt_length`: the text plus twelve columns. */
  function CodeBoxWidth(stmt: string): int {
    |stmt| + 12
  }

  /** A drawn row: the empty wrap or section line, or a painted box line. */
  predicate DrawnRow(l: Line) {
    l == [] || |l| == 4
  }

  /**
   * The three lines `process_code_line` draws, shifted ten columns per level.
   * The content line is one column wider than the borders: its right-hand
   * padding is three spaces where the border leaves room for two.
   */
  function CodeBoxLines(stmt: string, depth: int, color: nat): (box: seq<Line>)
    ensures |box| == 3 && box[0] == box[2]
    ensures Width(box[0]) == |Spaces(depth * 10)| + |stmt| + 14
    ensures Width(box[1]) == Width(box[0]) + 1
    ensures forall k :: 0 <= k < 3 ==> |box[k]| == 4
  {
    var shift := Spaces(depth * 10);
    var border := Painted(shift, color, "+" + RepeatChar('-', CodeBoxWidth(stmt)) + "+");
    [border, Painted(shift, color, "|  " + LJust(stmt, |stmt| + 8) + "   |"), border]
  }

  /** What `process_code_line` appends: the box, after one empty line exactly when it does not fit. */
  function CodeBoxRows(stmt: string, depth: int, current: int, color: nat): (rows: seq<Line>)
    ensures |rows| == if Wraps(current, CodeBoxWidth(stmt)) then 4 else 3
    ensures rows[0] == [] <==> Wraps(current, CodeBoxWidth(stmt))
    ensures forall k :: 0 <= k < |rows| ==> DrawnRow(rows[k])
  {
    (if Wraps(current, CodeBoxWidth(stmt)) then [[]] else []) + CodeBoxLines(stmt, depth, color)
  }

  /** The last three rows are the box itself. */
  lemma CodeBoxRowsEndWithBox(stmt: string, depth: int, current: int, color: nat)
    ensures var rows := CodeBoxRows(stmt, depth, current, color);
      rows[|rows| - 3..] == CodeBoxLines(stmt, depth, color)
  {
  }

  /** `process_code_line(flowchart, stmt, nesting_depth, current_width, color)`. */
  method ProcessCodeLine(fc: Canvas<Line>, stmt: string, depth: int, current: int, color: nat)
    returns (width: int)
    modifies fc
    ensures fc.lines == old(fc.lines) + CodeBoxRows(stmt, depth, current, color)
    ensures width == Advance(current, CodeBoxWidth(stmt))
  {
    var shift := Spaces(depth * 10);
    var stmtLength := |stmt| + 12;
    var cw := current;
    if cw + stmtLength > MAX_LINE_WIDTH {
      fc.Append([]);
      cw := 0;
    }
    var border := Painted(shift, color, "+" + RepeatChar('-', stmtLength) + "+");
    fc.Append(border);
    fc.Append(Painted(shift, color, "|  " + LJust(stmt, |stmt| + 8) + "   |"));
    fc.Append(border);
    width := cw + stmtLength;
  }

  /** Rows drawn so far and the running width. */
  datatype Drawn = Drawn(rows: seq<Line>, width: int)

  /**
   * One box per item, left to right, at one depth and colour, the running
   * width carried from box to box. Each box adds three rows, or four after
   * a wrap.
   */
  function BoxAll(items: seq<string>, depth: int, color: nat, current: int): Drawn
    decreases |items|
  {
    if items == [] then Drawn([], current)
    else
      var d := BoxAll(items[..|items| - 1], depth, color, current);
      var stmt := items[|items| - 1];
      Drawn(d.rows + CodeBoxRows(stmt, depth, d.width, color), Advance(d.width, CodeBoxWidth(stmt)))
  }

  /**
   * Each box adds three rows, or four after a wrap; every row is a wrap line
   * or a painted box line; the running width ends within the wrap law.
   */
  lemma {:induction false} BoxAllShape(items: seq<string>, depth: int, color: nat, current: int)
    ensures var d := BoxAll(items, depth, color, current);
      3 * |items| <= |d.rows| <= 4 * |items| &&
      (forall k :: 0 <= k < |d.rows| ==> DrawnRow(d.rows[k])) &&
      (items == [] ==> d.width == current) &&
      (items != [] ==> d.width <= Max(MAX_LINE_WIDTH, CodeBoxWidth(items[|items| - 1])))
    decreases |items|
  {
    if items != [] {
      BoxAllShape(items[..|items| - 1], depth, color, current);
    }
  }

  /** The `for` loops of the section output: `process_code_line` on every item. */
  method ProcessCodeLines(fc: Canvas<Line>, items: seq<string>, depth: int, color: nat, current: int)
    returns (width: int)
    modifies fc
    ensures fc.lines == old(fc.lines) + BoxAll(items, depth, color, current).rows
    ensures width == BoxAll(items, depth, color, current).width
  {
    width := current;
    for i := 0 to |items|
      invariant fc.lines == old(fc.lines) + BoxAll(items[..i], depth, color, current).rows
      invariant width == BoxAll(items[..i], depth, color, current).width
    {
      assert items[..i + 1][..i] == items[..i];
      width := ProcessCodeLine(fc, items[i], depth, width, color);
    }
    assert items[..|items|] == items;
  }

  /** The stripped parts that are not empty, in order. */
  function NonEmptyStripped(parts: seq<string>): (r: seq<string>)
    ensures |r| <= |parts|
    ensures forall k :: 0 <= k < |r| ==> r[k] != []
    decreases |parts|
  {
    if parts == [] then []
    else
      var front := NonEmptyStripped(parts[..|parts| - 1]);
      var last := Strip(parts[|parts| - 1]);
      if last == [] then front else front + [last]
  }

  /** Every kept item is the stripped form of one of the parts. */
  lemma {:induction false} NonEmptyStrippedFrom(parts: seq<string>)
    ensures forall k :: 0 <= k < |NonEmptyStripped(parts)| ==>
              exists j :: 0 <= j < |parts| && NonEmptyStripped(parts)[k] == Strip(parts[j])
    decreases |parts|
  {
    if parts != [] {
      var front := parts[..|parts| - 1];
      NonEmptyStrippedFrom(front);
      var kept := NonEmptyStripped(front);
      var r := NonEmptyStripped(parts);
      forall k | 0 <= k < |r|
        ensures exists j :: 0 <= j < |parts| && r[k] == Strip(parts[j])
      {
        if k < |kept| {
          assert r[k] == kept[k];
          var j :| 0 <= j < |front| && kept[k] == Strip(front[j]);
          assert front[j] == parts[j];
        } else {
          assert r[k] == Strip(parts[|parts| - 1]);
        }
      }
    } else {
      assert NonEmptyStripped(parts) == [];
    }
  }

  /** `[s.strip() for s in line.split(";") if s.strip()]`. */
  function Statements(line: string): seq<string> {
    NonEmptyStripped(Split(line, ';'))
  }

  /** Every statement is non-empty, holds no `;` and has no whitespace at either end. */
  lemma StatementsAreClean(line: string)
    ensures forall k :: 0 <= k < |Statements(line)| ==>
              var s := Statements(line)[k];
              s != [] && ';' !in s && !IsSpace(s[0]) && !IsSpace(s[|s| - 1])
  {
    var parts := Split(line, ';');
    NonEmptyStrippedFrom(parts);
    forall k | 0 <= k < |Statements(line)|
      ensures ';' !in Statements(line)[k]
    {
      var j :| 0 <= j < |parts| && Statements(line)[k] == Strip(parts[j]);
      StripChars(parts[j], ';');
    }
  }

  /** The loop of `process_multiple_statements_on_same_line` over the raw parts. */
  function PartBoxes(parts: seq<string>, depth: int, color: nat, current: int): Drawn
    decreases |parts|
  {
    if parts == [] then Drawn([], current)
    else
      var d := PartBoxes(parts[..|parts| - 1], depth, color, current);
      var stmt := Strip(parts[|parts| - 1]);
      if stmt == [] then d
      else Drawn(d.rows + CodeBoxRows(stmt, depth, d.width, color), Advance(d.width, CodeBoxWidth(stmt)))
  }

  /** Skipping the empty parts as they come is boxing the non-empty ones in order. */
  lemma {:induction false} PartBoxesAreStatementBoxes(parts: seq<string>, depth: int, color: nat, current: int)
    ensures PartBoxes(parts, depth, color, current) == BoxAll(NonEmptyStripped(parts), depth, color, current)
    decreases |parts|
  {
    if parts != [] {
      var front := parts[..|parts| - 1];
      PartBoxesAreStatementBoxes(front, depth, color, current);
      var kept := NonEmptyStripped(front);
      var stmt := Strip(parts[|parts| - 1]);
      if stmt != [] {
        assert (kept + [stmt])[..|kept|] == kept;
      }
    }
  }

  /** `process_multiple_statements_on_same_line`: one box per statement of the line. */
  method ProcessMultipleStatements(fc: Canvas<Line>, line: string, depth: int, current: int, color: nat)
    returns (width: int)
    modifies fc
    ensures fc.lines == old(fc.lines) + BoxAll(Statements(line), depth, color, current).rows
    ensures width == BoxAll(Statements(line), depth, color, current).width
  {
    var statements := Split(line, ';');
    width := current;
    ghost var start := fc.lines;
    for i := 0 to |statements|
      invariant fc.lines == start + PartBoxes(statements[..i], depth, color, current).rows
      invariant width == PartBoxes(statements[..i], depth, color, current).width
    {
      assert statements[..i + 1][..i] == statements[..i];
      var stmt := Strip(statements[i]);
      if stmt != [] {
        width := ProcessCodeLine(fc, stmt, depth, width, color);
      }
    }
    assert statements[..|statements|] == statements;
    PartBoxesAreStatementBoxes(statements, depth, color, current);
  }

  /* The first pass: sorting the lines into buckets, first match wins. */

  datatype Buckets = Buckets(
    comments: seq<string>,
    includes: seq<string>,
    functions: seq<string>,
    declarations: seq<string>,
    codeLines: seq<string>,
    insideComment: bool,
    commentBlock: seq<string>)

  const NO_BUCKETS: Buckets := Buckets([], [], [], [], [], false, [])

  // One line of the bucket loop. A line starting with slash-star always opens
  // a block, even when it also ends with star-slash; a block is filed as one
  // comment, its lines joined by newlines, at the first line ending in
  // star-slash.
  function ClassifyStep(b: Buckets, raw: string): Buckets {
    var line := Strip(raw);
    if line == [] then b
    else if StartsWith(line, "/*") then b.(insideComment := true, commentBlock := b.commentBlock + [line])
    else if b.insideComment then
      if EndsWith(line, "*/")
      then b.(comments := b.comments + [Join("\n", b.commentBlock + [line])], insideComment := false, commentBlock := [])
      else b.(commentBlock := b.commentBlock + [line])
    else if StartsWith(line, "#include") then b.(includes := b.includes + [line])
    else if IsPrototype(line) && !IsMallocAssignment(line) then b.(functions := b.functions + [line])
    else if IsDeclaration(line) then b.(declarations := b.declarations + [line])
    else b.(codeLines := b.codeLines + [line])
  }

  function Classify(lines: seq<string>): Buckets
    decreases |lines|
  {
    if lines == [] then NO_BUCKETS else ClassifyStep(Classify(lines[..|lines| - 1]), lines[|lines| - 1])
  }

  /** The bucket loop of `generate_flowchart_from_c_code`. */
  method ClassifyLines(lines: seq<string>) returns (b: Buckets)
    ensures b == Classify(lines)
  {
    b := NO_BUCKETS;
    for i := 0 to |lines|
      invariant b == Classify(lines[..i])
    {
      assert lines[..i + 1][..i] == lines[..i];
      var line := Strip(lines[i]);
      if line == [] {
        continue;
      }
      if StartsWith(line, "/*") {
        b := b.(insideComment := true, commentBlock := b.commentBlock + [line]);
      } else if b.insideComment {
        var block := b.commentBlock + [line];
        b := b.(commentBlock := block);
        if EndsWith(line, "*/") {
          b := b.(comments := b.comments + [Join("\n", block)], insideComment := false, commentBlock := []);
        }
      } else if StartsWith(line, "#include") {
        b := b.(includes := b.includes + [line]);
      } else if IsPrototype(line) && !IsMallocAssignment(line) {
        b := b.(functions := b.functions + [line]);
      } else if IsDeclaration(line) {
        b := b.(declarations := b.declarations + [line]);
      } else {
        b := b.(codeLines := b.codeLines + [line]);
      }
    }
    assert lines[..|lines|] == lines;
  }

  /** The number of source lines held in filed comments: one per newline-separated part. */
  function CommentLineCount(comments: seq<string>): nat
    decreases |comments|
  {
    if comments == [] then 0
    else CommentLineCount(comments[..|comments| - 1]) + |Split(comments[|comments| - 1], '\n')|
  }

  /** The number of lines the buckets hold, an open comment block included. */
  function Filed(b: Buckets): nat {
    CommentLineCount(b.comments) + |b.commentBlock| + |b.includes| + |b.functions| + |b.declarations| + |b.codeLines|
  }

  function NonBlankCount(lines: seq<string>): nat
    decreases |lines|
  {
    if lines == [] then 0
    else NonBlankCount(lines[..|lines| - 1]) + (if Strip(lines[|lines| - 1]) == [] then 0 else 1)
  }

  /** No line held in the open comment block contains a newline. */
  predicate BlockHasNoNewline(b: Buckets) {
    forall k :: 0 <= k < |b.commentBlock| ==> '\n' !in b.commentBlock[k]
  }

  /** One line of the bucket loop files that line once, if it is not blank. */
  lemma ClassifyStepFilesLine(b: Buckets, raw: string)
    requires '\n' !in raw && BlockHasNoNewline(b)
    ensures Filed(ClassifyStep(b, raw)) == Filed(b) + (if Strip(raw) == [] then 0 else 1)
    ensures BlockHasNoNewline(ClassifyStep(b, raw))
  {
    var line := Strip(raw);
    StripChars(raw, '\n');
    if line != [] && !StartsWith(line, "/*") {
      if b.insideComment && EndsWith(line, "*/") {
        var block := b.commentBlock + [line];
        JoinSplit(block, '\n');
        var cs := b.comments + [Join("\n", block)];
        assert cs[..|cs| - 1] == b.comments;
      } else if !b.insideComment && !StartsWith(line, "#include") {
        if IsPrototype(line) && !IsMallocAssignment(line) {
          assert ClassifyStep(b, raw) == b.(functions := b.functions + [line]);
        } else if IsDeclaration(line) {
          assert ClassifyStep(b, raw) == b.(declarations := b.declarations + [line]);
        } else {
          assert ClassifyStep(b, raw) == b.(codeLines := b.codeLines + [line]);
        }
      }
    }
  }

  /**
   * Every non-blank line is filed exactly once: into the open comment block
   * (and then into one comment), or into exactly one of the other buckets.
   */
  lemma {:induction false} ClassifyFilesEveryLine(lines: seq<string>)
    requires forall k :: 0 <= k < |lines| ==> '\n' !in lines[k]
    ensures Filed(Classify(lines)) == NonBlankCount(lines)
    ensures BlockHasNoNewline(Classify(lines))
    decreases |lines|
  {
    if lines != [] {
      var front := lines[..|lines| - 1];
      ClassifyFilesEveryLine(front);
      ClassifyStepFilesLine(Classify(front), lines[|lines| - 1]);
    }
  }

  // A line that opens a comment block never closes it, even when it ends
  // with star-slash.
  lemma OpeningLineNeverCloses(b: Buckets, raw: string)
    requires StartsWith(Strip(raw), "/*")
    ensures ClassifyStep(b, raw).insideComment
    ensures ClassifyStep(b, raw).comments == b.comments
    ensures ClassifyStep(b, raw).commentBlock == b.commentBlock + [Strip(raw)]
  {
  }

  /**
   * The declaration pattern only asks for a word, whitespace and a word, so
   * any other statement or header of that shape, such as `return 0;` or
   * `else if (x)`, is filed among the declarations unless it is a prototype.
   */
  lemma TwoWordLineIsDeclaration(b: Buckets, s: string, a: nat, d: nat)
    requires !b.insideComment && 0 < a && a + 1 < d <= |s|
    requires !IsSpace(s[0]) && !IsSpace(s[|s| - 1]) && s[0] != '/' && s[0] != '#'
    requires AllIn(s, IsWordChar, 0, a) && s[a] == ' ' && AllIn(s, IsWordChar, a + 1, d)
    requires !IsPrototype(s)
    ensures ClassifyStep(b, s).declarations == b.declarations + [s]
  {
    StripUnchanged(s);
    FirstCharDiffers(s, "/*");
    FirstCharDiffers(s, "#include");
    DeclHeadIsDeclaration(s, a, a + 1, a + 1, d);
  }

  /* The sections drawn from the buckets. */

  function TitleLine(title: string): Line {
    [Txt(title)]
  }

  /** A titled section: the title, one box per item, then an empty line. */
  function Section(d: Drawn, title: string, items: seq<string>, depth: int, color: nat): Drawn {
    var boxes := BoxAll(items, depth, color, d.width);
    Drawn(d.rows + [TitleLine(title)] + boxes.rows + [[]], boxes.width)
  }

  /** The declaration section: the first declaration pink at depth 0, the rest gray at depth 1. */
  function DeclarationSection(d: Drawn, declarations: seq<string>): Drawn
    requires declarations != []
  {
    var first := CodeBoxRows(declarations[0], 0, d.width, PINK);
    var rest := BoxAll(declarations[1..], 1, Py.GRAY, Advance(d.width, CodeBoxWidth(declarations[0])));
    Drawn(d.rows + [TitleLine("Function Declaration:")] + first + [[], TitleLine("Variable Declarations:")]
          + rest.rows + [[]], rest.width)
  }

  /** Every section in its fixed order; the running width is carried across sections. */
  function Sections(b: Buckets): Drawn {
    var d0 := Drawn([], 0);
    var d1 := if b.comments != [] then Section(d0, "Comments:", b.comments, 0, Py.GRAY) else d0;
    var d2 := if b.includes != [] then Section(d1, "Preprocessor Directives:", b.includes, 0, BLUE) else d1;
    var d3 := if b.declarations != [] then DeclarationSection(d2, b.declarations) else d2;
    var d4 := if b.functions != [] then Section(d3, "Function Declarations:", b.functions, 0, BLUE) else d3;
    Drawn(d4.rows + [TitleLine("Function Logic Starts:")], d4.width)
  }

  /** A section adds its own title and no other: its boxes are never a title line. */
  lemma SectionAddsTitle(d: Drawn, title: string, items: seq<string>, depth: int, color: nat, t: string)
    ensures TitleLine(t) in Section(d, title, items, depth, color).rows <==> TitleLine(t) in d.rows || t == title
  {
    BoxAllShape(items, depth, color, d.width);
    var boxes := BoxAll(items, depth, color, d.width);
    assert TitleLine(t) !in boxes.rows;
    assert Section(d, title, items, depth, color).rows == d.rows + ([TitleLine(title)] + boxes.rows + [[]]);
  }

  /** The declaration section adds its two titles and no other. */
  lemma DeclarationSectionAddsTitles(d: Drawn, declarations: seq<string>, t: string)
    requires declarations != []
    ensures TitleLine(t) in DeclarationSection(d, declarations).rows <==>
            TitleLine(t) in d.rows || t == "Function Declaration:" || t == "Variable Declarations:"
  {
    var first := CodeBoxRows(declarations[0], 0, d.width, PINK);
    var start := Advance(d.width, CodeBoxWidth(declarations[0]));
    BoxAllShape(declarations[1..], 1, Py.GRAY, start);
    var rest := BoxAll(declarations[1..], 1, Py.GRAY, start);
    assert TitleLine(t) !in first;
    assert TitleLine(t) !in rest.rows;
    assert DeclarationSection(d, declarations).rows ==
           d.rows + ([TitleLine("Function Declaration:")] + first + [[], TitleLine("Variable Declarations:")] + rest.rows + [[]]);
  }

  /** Which titles the sections hold, for any title `t`. */
  lemma SectionsTitles(b: Buckets, t: string)
    ensures TitleLine(t) in Sections(b).rows <==>
            (t == "Comments:" && b.comments != []) ||
            (t == "Preprocessor Directives:" && b.includes != []) ||
            ((t == "Function Declaration:" || t == "Variable Declarations:") && b.declarations != []) ||
            (t == "Function Declarations:" && b.functions != []) ||
            t == "Function Logic Starts:"
  {
    var d0 := Drawn([], 0);
    var d1 := if b.comments != [] then Section(d0, "Comments:", b.comments, 0, Py.GRAY) else d0;
    var d2 := if b.includes != [] then Section(d1, "Preprocessor Directives:", b.includes, 0, BLUE) else d1;
    var d3 := if b.declarations != [] then DeclarationSection(d2, b.declarations) else d2;
    if b.comments != [] { SectionAddsTitle(d0, "Comments:", b.comments, 0, Py.GRAY, t); }
    if b.includes != [] { SectionAddsTitle(d1, "Preprocessor Directives:", b.includes, 0, BLUE, t); }
    if b.declarations != [] { DeclarationSectionAddsTitles(d2, b.declarations, t); }
    if b.functions != [] { SectionAddsTitle(d3, "Function Declarations:", b.functions, 0, BLUE, t); }
  }

  /**
   * A section title appears exactly when its bucket is non-empty, and the
   * section list always ends with the logic title.
   */
  lemma SectionTitles(b: Buckets)
    ensures TitleLine("Comments:") in Sections(b).rows <==> b.comments != []
    ensures TitleLine("Preprocessor Directives:") in Sections(b).rows <==> b.includes != []
    ensures TitleLine("Variable Declarations:") in Sections(b).rows <==> b.declarations != []
    ensures TitleLine("Function Declarations:") in Sections(b).rows <==> b.functions != []
    ensures Sections(b).rows[|Sections(b).rows| - 1] == TitleLine("Function Logic Starts:")
  {
    SectionsTitles(b, "Comments:");
    SectionsTitles(b, "Preprocessor Directives:");
    SectionsTitles(b, "Variable Declarations:");
    SectionsTitles(b, "Function Declarations:");
  }

  /** One titled section: its title, its boxes, then an empty line. */
  method EmitSection(fc: Canvas<Line>, d: Drawn, title: string, items: seq<string>, depth: int, color: nat)
    returns (r: Drawn)
    requires fc.lines == d.rows
    modifies fc
    ensures r == Section(d, title, items, depth, color) && fc.lines == r.rows
  {
    fc.Append(TitleLine(title));
    var width := ProcessCodeLines(fc, items, depth, color, d.width);
    fc.Append([]);
    r := Drawn(fc.lines, width);
  }

  /** The declaration section, whose first item is drawn apart from the rest. */
  method EmitDeclarationSection(fc: Canvas<Line>, d: Drawn, declarations: seq<string>) returns (r: Drawn)
    requires declarations != [] && fc.lines == d.rows
    modifies fc
    ensures r == DeclarationSection(d, declarations) && fc.lines == r.rows
  {
    fc.Append(TitleLine("Function Declaration:"));
    var width := ProcessCodeLine(fc, declarations[0], 0, d.width, PINK);
    fc.Append([]);
    fc.Append(TitleLine("Variable Declarations:"));
    width := ProcessCodeLines(fc, declarations[1..], 1, Py.GRAY, width);
    fc.Append([]);
    r := Drawn(fc.lines, width);
  }

  /** The section output of `generate_flowchart_from_c_code`. */
  method EmitSections(fc: Canvas<Line>, b: Buckets) returns (width: int)
    requires fc.lines == []
    modifies fc
    ensures fc.lines == Sections(b).rows && width == Sections(b).width
  {
    var d := Drawn([], 0);
    if b.comments != [] {
      d := EmitSection(fc, d, "Comments:", b.comments, 0, Py.GRAY);
    }
    if b.includes != [] {
      d := EmitSection(fc, d, "Preprocessor Directives:", b.includes, 0, BLUE);
    }
    if b.declarations != [] {
      d := EmitDeclarationSection(fc, d, b.declarations);
    }
    if b.functions != [] {
      d := EmitSection(fc, d, "Function Declarations:", b.functions, 0, BLUE);
    }
    fc.Append(TitleLine("Function Logic Starts:"));
    width := d.width;
  }

  /* The logic pass over the lines left in `code_lines`. */

  /** `nesting_depth`, `len(brace_stack)`, `current_width`, `increment_next` and the output. */
  datatype LogicState = LogicState(depth: int, braces: nat, currentWidth: int, incrementNext: bool, flowchart: seq<Line>)

  /** The invariant of the logic pass: the depth is one more than the open braces. */
  predicate LogicValid(st: LogicState) {
    st.depth == 1 + st.braces
  }

  /** The `next_line` lookahead: the following line stripped, or empty at the end. */
  function NextLine(code: seq<string>, i: nat): string
    requires i < |code|
  {
    if i + 1 < |code| then Strip(code[i + 1]) else ""
  }

  /** One `process_code_line` call. */
  function DrawBox(st: LogicState, stmt: string, depth: int): LogicState {
    st.(flowchart := st.flowchart + CodeBoxRows(stmt, depth, st.currentWidth, DepthColor(depth)),
        currentWidth := Advance(st.currentWidth, CodeBoxWidth(stmt)))
  }

  /** One `process_multiple_statements_on_same_line` call at the current depth. */
  function DrawStatements(st: LogicState, line: string): LogicState {
    var d := BoxAll(Statements(line), st.depth, DepthColor(st.depth), st.currentWidth);
    st.(flowchart := st.flowchart + d.rows, currentWidth := d.width)
  }

  /**
   * A control header: boxed at the current depth. A next line of exactly
   * `{` opens a block; a next line not starting with `{` makes the following
   * line an implicit body.
   */
  function HeaderStep(st: LogicState, line: string, next: string): (r: LogicState)
    requires LogicValid(st)
    ensures LogicValid(r)
  {
    var st1 := DrawBox(st, line, st.depth);
    if next == "{" then st1.(braces := st.braces + 1, depth := st.depth + 1)
    else if !StartsWith(next, "{") then st1.(incrementNext := true)
    else st1
  }

  /** The iteration of the `while` loop for `line`, whose successor is `next`. */
  function LogicStep(st: LogicState, line: string, next: string): (r: LogicState)
    requires LogicValid(st)
    ensures LogicValid(r)
  {
    if IsHeader(line) then HeaderStep(st, line, next)
    else if st.incrementNext then DrawBox(st, line, st.depth + 1).(incrementNext := false)
    else if line == "{" then st
    else if line == "}" then
      if st.braces > 0 then st.(braces := st.braces - 1, depth := st.depth - 1) else st
    else DrawStatements(st, line)
  }

  /** The state after the first `n` logic lines. */
  function LogicRun(code: seq<string>, n: nat, init: LogicState): (st: LogicState)
    requires n <= |code| && LogicValid(init)
    ensures LogicValid(st) && st.depth >= 1
    decreases n
  {
    if n == 0 then init else LogicStep(LogicRun(code, n - 1, init), Strip(code[n - 1]), NextLine(code, n - 1))
  }

  /** The logic pass starts at depth 1 with no open brace, below the sections. */
  function LogicStart(d: Drawn): LogicState {
    LogicState(1, 0, d.width, false, d.rows)
  }

  /** What `generate_flowchart_from_c_code(code)` returns. */
  function CFlowchart(code: string): Line {
    var b := Classify(Split(Strip(code), '\n'));
    JoinLines(LogicRun(b.codeLines, |b.codeLines|, LogicStart(Sections(b))).flowchart)
  }

  /** The header branch of the loop body. */
  method HeaderLineStep(fc: Canvas<Line>, st: LogicState, line: string, next: string) returns (r: LogicState)
    requires LogicValid(st) && fc.lines == st.flowchart
    modifies fc
    ensures r == HeaderStep(st, line, next) && fc.lines == r.flowchart
  {
    var width := ProcessCodeLine(fc, line, st.depth, st.currentWidth, DepthColor(st.depth));
    r := st.(currentWidth := width, flowchart := fc.lines);
    assert r == DrawBox(st, line, st.depth);
    if next == "{" {
      r := r.(braces := r.braces + 1, depth := r.depth + 1);
    } else if !StartsWith(next, "{") {
      r := r.(incrementNext := true);
    }
  }

  /** The loop body for one logic line. */
  method LogicLine(fc: Canvas<Line>, st: LogicState, line: string, next: string) returns (r: LogicState)
    requires LogicValid(st) && fc.lines == st.flowchart
    modifies fc
    ensures r == LogicStep(st, line, next) && fc.lines == r.flowchart
  {
    if IsHeader(line) {
      r := HeaderLineStep(fc, st, line, next);
    } else if st.incrementNext {
      var width := ProcessCodeLine(fc, line, st.depth + 1, st.currentWidth, DepthColor(st.depth + 1));
      r := st.(currentWidth := width, flowchart := fc.lines, incrementNext := false);
      assert r == DrawBox(st, line, st.depth + 1).(incrementNext := false);
    } else if line == "{" {
      r := st;
    } else if line == "}" {
      r := st;
      if st.braces > 0 {
        r := st.(braces := st.braces - 1, depth := st.depth - 1);
      }
    } else {
      var width := ProcessMultipleStatements(fc, line, st.depth, st.currentWidth, DepthColor(st.depth));
      r := st.(currentWidth := width, flowchart := fc.lines);
      assert r == DrawStatements(st, line);
    }
  }

  /** The `while` loop of the logic pass over the code lines. */
  method RunLogic(fc: Canvas<Line>, codeLines: seq<string>, init: LogicState) returns (st: LogicState)
    requires LogicValid(init) && fc.lines == init.flowchart
    modifies fc
    ensures st == LogicRun(codeLines, |codeLines|, init) && fc.lines == st.flowchart
  {
    st := init;
    var i := 0;
    while i < |codeLines|
      invariant i <= |codeLines|
      invariant st == LogicRun(codeLines, i, init) && fc.lines == st.flowchart
    {
      var line := Strip(codeLines[i]);
      var next := if i + 1 < |codeLines| then Strip(codeLines[i + 1]) else "";
      assert LogicRun(codeLines, i + 1, init) == LogicStep(st, line, next);
      st := LogicLine(fc, st, line, next);
      i := i + 1;
    }
  }

  /** `generate_flowchart_from_c_code`. */
  method GenerateFlowchartFromCCode(code: string) returns (chart: Line)
    ensures chart == CFlowchart(code)
  {
    var b := ClassifyLines(Split(Strip(code), '\n'));
    var fc := new Canvas<Line>();
    var width := EmitSections(fc, b);
    var st := RunLogic(fc, b.codeLines, LogicState(1, 0, width, false, fc.lines));
    chart := JoinLines(fc.lines);
  }

  /* Properties of the logic pass. */

  /**
   * A header whose next line is exactly `{`: the header is boxed at the
   * current depth, the brace line is consumed without a box, and the depth
   * goes up by one.
   */
  lemma HeaderThenBrace(st: LogicState, header: string, after: string)
    requires LogicValid(st) && IsHeader(header) && !st.incrementNext
    ensures var r := LogicStep(LogicStep(st, header, "{"), "{", after);
      r.depth == st.depth + 1 && r.braces == st.braces + 1 && !r.incrementNext &&
      r.flowchart == st.flowchart + CodeBoxRows(header, st.depth, st.currentWidth, DepthColor(st.depth))
  {
    assert !IsHeader("{");
  }

  /**
   * A header whose next line neither is a header nor starts with `{`: that
   * next line is boxed one level deeper and the depth is unchanged.
   */
  lemma HeaderImplicitBody(st: LogicState, header: string, body: string, after: string)
    requires LogicValid(st) && IsHeader(header) && !IsHeader(body) && !StartsWith(body, "{")
    ensures var st1 := LogicStep(st, header, body);
      var r := LogicStep(st1, body, after);
      r.depth == st.depth && r.braces == st.braces && !r.incrementNext &&
      r.flowchart == st1.flowchart + CodeBoxRows(body, st.depth + 1, st1.currentWidth, DepthColor(st.depth + 1))
  {
  }

  /**
   * With a body pending, any line that is not a header, a `{` or `}` line
   * included, is boxed one level deeper and clears the flag; no brace is counted.
   */
  lemma PendingBodyStep(st: LogicState, body: string, after: string)
    requires LogicValid(st) && st.incrementNext && !IsHeader(body)
    ensures var r := LogicStep(st, body, after);
      !r.incrementNext && r.depth == st.depth && r.braces == st.braces &&
      r.flowchart == st.flowchart + CodeBoxRows(body, st.depth + 1, st.currentWidth, DepthColor(st.depth + 1))
  {
  }

  /** A lone `{` not consumed by a header, and a `}` with no open brace, change nothing. */
  lemma StrayBracesIgnored(st: LogicState, after: string)
    requires LogicValid(st) && !st.incrementNext
    ensures LogicStep(st, "{", after) == st
    ensures st.braces == 0 ==> LogicStep(st, "}", after) == st
  {
    assert !IsHeader("{") && !IsHeader("}");
  }
}
