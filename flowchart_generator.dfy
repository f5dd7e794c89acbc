/**
 * flowchart_generator.py: the two passes of the terminal tools, drawn as
 * HTML. A box is three `<span>` entries of a list of strings, a wrap is a
 * `<br>` entry, and the list is concatenated inside a `<pre>` element. The
 * C pass also knows `switch`, `case` and `default`, files `//` lines as
 * comments and never takes a control line for a declaration; the Python
 * pass boxes `#` lines without touching the indentation stack.
 */
module FlowchartGenerator {
  import opened Text
  import opened Layout
  import opened CPatterns
  import opened Indentation
  import Both = FlowchartGeneratorBoth

  /* `escape_html`, that is `html.escape(text)` with its default `quote=True`. */

  predicate IsHtmlSpecial(c: char) {
    c == '&' || c == '<' || c == '>' || c == '"' || c == '\''
  }

  /** The replacement `html.escape` writes for one character. */
  function EscapeChar(c: char): (r: string)
    ensures IsHtmlSpecial(c) ==> |r| >= 4 && r[0] == '&' && r[|r| - 1] == ';'
    ensures !IsHtmlSpecial(c) ==> r == [c]
  {
    if c == '&' then "&amp;"
    else if c == '<' then "&lt;"
    else if c == '>' then "&gt;"
    else if c == '"' then "&quot;"
    else if c == '\'' then "&#x27;"
    else [c]
  }

  function EscapeHtml(s: string): (r: string)
    ensures |r| >= |s|
    decreases |s|
  {
    if s == [] then [] else EscapeChar(s[0]) + EscapeHtml(s[1..])
  }

  /** No character of `r` can open or close a tag or an attribute value. */
  predicate MarkupFree(r: string) {
    forall i :: 0 <= i < |r| ==> r[i] != '<' && r[i] != '>' && r[i] != '"' && r[i] != '\''
  }

  /** The escaped text never carries markup into the page. */
  lemma {:induction false} EscapeHtmlMarkupFree(s: string)
    ensures MarkupFree(EscapeHtml(s))
    decreases |s|
  {
    if s != [] {
      EscapeHtmlMarkupFree(s[1..]);
      var e := EscapeChar(s[0]);
      assert MarkupFree(e);
      var r := EscapeHtml(s);
      assert r == e + EscapeHtml(s[1..]);
      forall i | 0 <= i < |r|
        ensures r[i] != '<' && r[i] != '>' && r[i] != '"' && r[i] != '\''
      {
        if i >= |e| {
          assert r[i] == EscapeHtml(s[1..])[i - |e|];
        }
      }
    }
  }

  /** Text without special characters is left as it is. */
  lemma {:induction false} EscapeHtmlPlain(s: string)
    requires forall i :: 0 <= i < |s| ==> !IsHtmlSpecial(s[i])
    ensures EscapeHtml(s) == s
    decreases |s|
  {
    if s != [] {
      EscapeHtmlPlain(s[1..]);
      assert s == [s[0]] + s[1..];
    }
  }

  /**
   * The reading a browser gives the five entities `html.escape` writes,
   * left to right; any other character stands for itself.
   */
  function UnescapeHtml(s: string): string
    decreases |s|
  {
    if s == [] then []
    else if StartsWith(s, "&amp;") then "&" + UnescapeHtml(s[5..])
    else if StartsWith(s, "&lt;") then "<" + UnescapeHtml(s[4..])
    else if StartsWith(s, "&gt;") then ">" + UnescapeHtml(s[4..])
    else if StartsWith(s, "&quot;") then "\"" + UnescapeHtml(s[6..])
    else if StartsWith(s, "&#x27;") then "'" + UnescapeHtml(s[6..])
    else [s[0]] + UnescapeHtml(s[1..])
  }

  /** Reading one escaped character back. */
  lemma UnescapeFront(c: char, rest: string)
    ensures UnescapeHtml(EscapeChar(c) + rest) == [c] + UnescapeHtml(rest)
  {
    var e := EscapeChar(c);
    var t := e + rest;
    assert t[..|e|] == e && t[|e|..] == rest;
    if !IsHtmlSpecial(c) {
      assert t[0] == c && t[1..] == rest;
      assert !StartsWith(t, "&amp;") && !StartsWith(t, "&lt;") && !StartsWith(t, "&gt;");
      assert !StartsWith(t, "&quot;") && !StartsWith(t, "&#x27;");
    } else if c == '<' || c == '>' {
      assert t[1] == e[1];
      assert !StartsWith(t, "&amp;");
    } else if c == '"' {
      assert t[1] == 'q';
      assert !StartsWith(t, "&amp;") && !StartsWith(t, "&lt;") && !StartsWith(t, "&gt;");
    } else if c == '\'' {
      assert t[1] == '#';
      assert !StartsWith(t, "&amp;") && !StartsWith(t, "&lt;") && !StartsWith(t, "&gt;");
      assert !StartsWith(t, "&quot;");
    }
  }

  /** Escaping loses nothing: the page shows exactly the original text. */
  lemma {:induction false} EscapeRoundTrip(s: string)
    ensures UnescapeHtml(EscapeHtml(s)) == s
    decreases |s|
  {
    if s != [] {
      EscapeRoundTrip(s[1..]);
      UnescapeFront(s[0], EscapeHtml(s[1..]));
      assert s == [s[0]] + s[1..];
    }
  }

  /* `html_box`. */

  const BOX_BACKGROUND_COLOR: string := "#1e1e1e"

  /** The wrap marker, which is also the empty line closing a section. */
  const WRAP: string := "<br>"

  const SPAN_CLOSE: string := "</span><br>"

  /** `"&nbsp;" * (depth * 4)`. */
  function Indent(depth: int): string {
    Repeat("&nbsp;", depth * 4)
  }

  /** One box line: the indentation, then `body` in a span of the given text colour. */
  function SpanLine(indent: string, color: string, body: string): (e: string)
    ensures EndsWith(e, SPAN_CLOSE)
  {
    var e := indent + "<span style='background-color:" + BOX_BACKGROUND_COLOR + "; color:" + color + ";'>" + body + SPAN_CLOSE;
    assert e[|e| - |SPAN_CLOSE|..] == SPAN_CLOSE;
    e
  }

  /** An entry a box writes. */
  predicate IsBoxEntry(e: string) {
    EndsWith(e, SPAN_CLOSE)
  }

  /** `box_width`: measured on the escaped text, so an entity counts as several columns. */
  function HtmlBoxWidth(stmt: string): int {
    |EscapeHtml(stmt)| + 6
  }

  /** Border, content, border; the content holds the escaped text. */
  function HtmlBoxLines(stmt: string, depth: int, color: string): (box: seq<string>)
    ensures |box| == 3 && box[0] == box[2]
    ensures IsBoxEntry(box[0]) && IsBoxEntry(box[1]) && IsBoxEntry(box[2])
  {
    var text := EscapeHtml(stmt);
    var w := |text| + 6;
    var border := SpanLine(Indent(depth), color, "+" + RepeatChar('-', w) + "+");
    [border, SpanLine(Indent(depth), color, "|  " + LJust(text, w - 6) + "  |"), border]
  }

  /** What `html_box` appends: the box, after a `<br>` exactly when it does not fit. */
  function HtmlBoxEntries(stmt: string, depth: int, current: int, color: string): (e: seq<string>)
    ensures |e| == if Wraps(current, HtmlBoxWidth(stmt)) then 4 else 3
    ensures e[0] == WRAP <==> Wraps(current, HtmlBoxWidth(stmt))
    ensures e[|e| - 3] == e[|e| - 1]
  {
    (if Wraps(current, HtmlBoxWidth(stmt)) then [WRAP] else []) + HtmlBoxLines(stmt, depth, color)
  }

  /** `html_box(flowchart, stmt, depth, current_width, color)`. */
  method HtmlBox(fc: Canvas<string>, stmt: string, depth: int, current: int, color: string)
    returns (width: int)
    modifies fc
    ensures fc.lines == old(fc.lines) + HtmlBoxEntries(stmt, depth, current, color)
    ensures width == Advance(current, HtmlBoxWidth(stmt))
  {
    var text := EscapeHtml(stmt);
    var indent := Indent(depth);
    var boxWidth := |text| + 6;
    var cw := current;
    if cw + boxWidth > MAX_LINE_WIDTH {
      fc.Append(WRAP);
      cw := 0;
    }
    var border := SpanLine(indent, color, "+" + RepeatChar('-', boxWidth) + "+");
    var content := SpanLine(indent, color, "|  " + LJust(text, boxWidth - 6) + "  |");
    fc.Extend([border, content, border]);
    width := cw + boxWidth;
  }

  /* Colours. */

  /** `HTML_NESTING_COLORS[0]` .. `HTML_NESTING_COLORS[9]`. */
  const HTML_NESTING_COLORS: seq<string> :=
    ["#1E90FF", "#32CD32", "#FFD700", "#FF4500", "#8A2BE2", "#00CED1", "#FFA500", "#20B2AA", "#D3D3D3", "#A9A9A9"]

  const DEFAULT_COLOR: string := "#FFFFFF"
  const COMMENT_COLOR: string := "#A9A9A9"

  /** `str(None)`: what an f-string writes for the colour of a key the table lacks. */
  const NONE: string := "None"

  /** `HTML_NESTING_COLORS.get(depth, fallback)`. */
  function ColorGet(depth: int, fallback: string): string {
    if 0 <= depth < |HTML_NESTING_COLORS| then HTML_NESTING_COLORS[depth] else fallback
  }

  /* The C pass: the buckets, first match wins. */

  // One line of the bucket loop. It differs from flowchart_generator_both.py
  // in two places: a `//` line is a comment, and a control line is never a
  // declaration.
  function ClassifyStep(b: Both.Buckets, raw: string): Both.Buckets {
    var line := Strip(raw);
    if line == [] then b
    else if StartsWith(line, "/*") then b.(insideComment := true, commentBlock := b.commentBlock + [line])
    else if b.insideComment then
      if EndsWith(line, "*/")
      then b.(comments := b.comments + [Join("\n", b.commentBlock + [line])], insideComment := false, commentBlock := [])
      else b.(commentBlock := b.commentBlock + [line])
    else if StartsWith(line, "//") then b.(comments := b.comments + [line])
    else if StartsWith(line, "#include") then b.(includes := b.includes + [line])
    else if IsPrototype(line) && !IsMallocAssignment(line) then b.(functions := b.functions + [line])
    else if IsDeclaration(line) && !IsControlLine(line) then b.(declarations := b.declarations + [line])
    else b.(codeLines := b.codeLines + [line])
  }

  function Classify(lines: seq<string>): Both.Buckets
    decreases |lines|
  {
    if lines == [] then Both.NO_BUCKETS else ClassifyStep(Classify(lines[..|lines| - 1]), lines[|lines| - 1])
  }

  /** The bucket loop of `generate_flowchart_from_c_code`. */
  method ClassifyLines(lines: seq<string>) returns (b: Both.Buckets)
    ensures b == Classify(lines)
  {
    b := Both.NO_BUCKETS;
    for i := 0 to |lines|
      invariant b == Classify(lines[..i])
    {
      assert lines[..i + 1][..i] == lines[..i];
      var line := Strip(lines[i]);
      if line == [] {
        continue;
      }
      if StartsWith(line, "/*") {
        b := b.(insideComment := true, commentBlock := b.commentBlock + [line]);
      } else if b.insideComment {
        var block := b.commentBlock + [line];
        b := b.(commentBlock := block);
        if EndsWith(line, "*/") {
          b := b.(comments := b.comments + [Join("\n", block)], insideComment := false, commentBlock := []);
        }
      } else if StartsWith(line, "//") {
        b := b.(comments := b.comments + [line]);
      } else if StartsWith(line, "#include") {
        b := b.(includes := b.includes + [line]);
      } else if IsPrototype(line) && !IsMallocAssignment(line) {
        b := b.(functions := b.functions + [line]);
      } else if IsDeclaration(line) && !IsControlLine(line) {
        b := b.(declarations := b.declarations + [line]);
      } else {
        b := b.(codeLines := b.codeLines + [line]);
      }
    }
    assert lines[..|lines|] == lines;
  }

  /** One line of the bucket loop files that line once, if it is not blank. */
  lemma ClassifyStepFilesLine(b: Both.Buckets, raw: string)
    requires '\n' !in raw && Both.BlockHasNoNewline(b)
    ensures Both.Filed(ClassifyStep(b, raw)) == Both.Filed(b) + (if Strip(raw) == [] then 0 else 1)
    ensures Both.BlockHasNoNewline(ClassifyStep(b, raw))
  {
    var line := Strip(raw);
    StripChars(raw, '\n');
    if line != [] && !StartsWith(line, "/*") {
      if b.insideComment && EndsWith(line, "*/") {
        var block := b.commentBlock + [line];
        JoinSplit(block, '\n');
        var cs := b.comments + [Join("\n", block)];
        assert cs[..|cs| - 1] == b.comments;
      } else if !b.insideComment && StartsWith(line, "//") {
        JoinSplit([line], '\n');
        var cs := b.comments + [line];
        assert cs[..|cs| - 1] == b.comments;
      } else if !b.insideComment && !StartsWith(line, "#include") {
        if IsPrototype(line) && !IsMallocAssignment(line) {
          assert ClassifyStep(b, raw) == b.(functions := b.functions + [line]);
        } else if IsDeclaration(line) && !IsControlLine(line) {
          assert ClassifyStep(b, raw) == b.(declarations := b.declarations + [line]);
        } else {
          assert ClassifyStep(b, raw) == b.(codeLines := b.codeLines + [line]);
        }
      }
    }
  }

  /** Every non-blank line is filed exactly once. */
  lemma {:induction false} ClassifyFilesEveryLine(lines: seq<string>)
    requires forall k :: 0 <= k < |lines| ==> '\n' !in lines[k]
    ensures Both.Filed(Classify(lines)) == Both.NonBlankCount(lines)
    ensures Both.BlockHasNoNewline(Classify(lines))
    decreases |lines|
  {
    if lines != [] {
      var front := lines[..|lines| - 1];
      ClassifyFilesEveryLine(front);
      ClassifyStepFilesLine(Classify(front), lines[|lines| - 1]);
    }
  }

  /**
   * Outside a comment block a `//` line is filed as a comment of its own,
   * and a control line never lands among the declarations.
   */
  lemma ClassifyStepVariantRules(b: Both.Buckets, raw: string)
    ensures var line := Strip(raw);
      !b.insideComment && StartsWith(line, "//") ==> ClassifyStep(b, raw).comments == b.comments + [line]
    ensures IsControlLine(Strip(raw)) ==> ClassifyStep(b, raw).declarations == b.declarations
  {
    var line := Strip(raw);
    if StartsWith(line, "//") {
      assert line[..2] == "//";
      assert !StartsWith(line, "/*") by {
        assert line[..2][1] == '/';
      }
    }
  }

  /* The sections. */

  /** Entries written so far and the running width. */
  datatype Drawn = Drawn(entries: seq<string>, width: int)

  /** One `html_box` per item, left to right, the running width carried along. */
  function BoxAll(items: seq<string>, depth: int, color: string, current: int): Drawn
    decreases |items|
  {
    if items == [] then Drawn([], current)
    else
      BoxOne(BoxAll(items[..|items| - 1], depth, color, current), items[|items| - 1], depth, color)
  }

  /** One more `html_box` at the running width. */
  function BoxOne(d: Drawn, stmt: string, depth: int, color: string): Drawn {
    Drawn(d.entries + HtmlBoxEntries(stmt, depth, d.width, color), Advance(d.width, HtmlBoxWidth(stmt)))
  }

  /** Each item adds three entries, or four after a wrap; each is a wrap or a box entry. */
  lemma {:induction false} BoxAllShape(items: seq<string>, depth: int, color: string, current: int)
    ensures var d := BoxAll(items, depth, color, current);
      3 * |items| <= |d.entries| <= 4 * |items| &&
      (forall k :: 0 <= k < |d.entries| ==> d.entries[k] == WRAP || IsBoxEntry(d.entries[k])) &&
      (items == [] ==> d.width == current) &&
      (items != [] ==> d.width <= Max(MAX_LINE_WIDTH, HtmlBoxWidth(items[|items| - 1])))
    decreases |items|
  {
    if items != [] {
      BoxAllShape(items[..|items| - 1], depth, color, current);
    }
  }

  /** Boxing one more item appends its entries at the running width. */
  lemma BoxAllNext(items: seq<string>, i: nat, depth: int, color: string, current: int)
    requires i < |items|
    ensures BoxAll(items[..i + 1], depth, color, current) == BoxOne(BoxAll(items[..i], depth, color, current), items[i], depth, color)
  {
    assert items[..i + 1][..i] == items[..i];
  }

  /** `html_box` on one more item of a section. */
  method HtmlBoxNext(fc: Canvas<string>, ghost start: seq<string>, ghost d: Drawn, current: int, stmt: string, depth: int, color: string)
    returns (width: int)
    requires fc.lines == start + d.entries && current == d.width
    modifies fc
    ensures fc.lines == start + BoxOne(d, stmt, depth, color).entries
    ensures width == BoxOne(d, stmt, depth, color).width
  {
    width := HtmlBox(fc, stmt, depth, current, color);
    assert start + d.entries + HtmlBoxEntries(stmt, depth, d.width, color) ==
           start + (d.entries + HtmlBoxEntries(stmt, depth, d.width, color));
  }

  /** The `for` loops of the sections: `html_box` on every item. */
  method HtmlBoxes(fc: Canvas<string>, items: seq<string>, depth: int, color: string, current: int)
    returns (width: int)
    modifies fc
    ensures fc.lines == old(fc.lines) + BoxAll(items, depth, color, current).entries
    ensures width == BoxAll(items, depth, color, current).width
  {
    width := current;
    ghost var start := fc.lines;
    for i := 0 to |items|
      invariant fc.lines == start + BoxAll(items[..i], depth, color, current).entries
      invariant width == BoxAll(items[..i], depth, color, current).width
    {
      BoxAllNext(items, i, depth, color, current);
      width := HtmlBoxNext(fc, start, BoxAll(items[..i], depth, color, current), width, items[i], depth, color);
    }
    assert items[..|items|] == items;
  }

  /** A section header, `<b>title</b><br>`. */
  function Title(title: string): string {
    "<b>" + title + "</b><br>"
  }

  const COMMENTS_HEADER: string := Title("Comments:")
  const INCLUDES_HEADER: string := Title("Preprocessor Directives:")
  const DECLARATION_HEADER: string := Title("Function Declaration:")
  /** The variable-declaration header is written as one entry after a line break. */
  const VARIABLES_HEADER: string := WRAP + Title("Variable Declarations:")
  const FUNCTIONS_HEADER: string := Title("Function Declarations:")
  const LOGIC_HEADER: string := Title("Function Logic Starts:")

  /** A header is neither a wrap nor a box entry: it ends in `</b><br>`. */
  lemma TitleIsNotBox(title: string)
    ensures Title(title) != WRAP && !IsBoxEntry(Title(title))
  {
    var t := Title(title);
    assert t[|t| - 6] == 'b';
    assert SPAN_CLOSE[|SPAN_CLOSE| - 6] == 'n';
  }

  lemma VariablesHeaderIsNotBox()
    ensures VARIABLES_HEADER != WRAP && !IsBoxEntry(VARIABLES_HEADER)
  {
    var t := VARIABLES_HEADER;
    assert t[|t| - 6] == 'b';
    assert SPAN_CLOSE[|SPAN_CLOSE| - 6] == 'n';
  }

  /** The headers are pairwise different. */
  lemma HeadersDistinct()
    ensures |COMMENTS_HEADER| == 20 && |INCLUDES_HEADER| == 35 && |DECLARATION_HEADER| == 32
    ensures |VARIABLES_HEADER| == 37 && |FUNCTIONS_HEADER| == 33 && |LOGIC_HEADER| == 33
    ensures FUNCTIONS_HEADER != LOGIC_HEADER
  {
    assert FUNCTIONS_HEADER[12] == 'D' && LOGIC_HEADER[12] == 'L';
  }

  /** A titled section: the header, one box per item, then a `<br>`. */
  function Section(d: Drawn, header: string, items: seq<string>, depth: int, color: string): Drawn {
    var boxes := BoxAll(items, depth, color, d.width);
    Drawn(d.entries + [header] + boxes.entries + [WRAP], boxes.width)
  }

  /** The declaration section: the first declaration at depth 0, the rest at depth 1. */
  function DeclarationSection(d: Drawn, declarations: seq<string>): Drawn
    requires declarations != []
  {
    var first := HtmlBoxEntries(declarations[0], 0, d.width, ColorGet(0, NONE));
    var rest := BoxAll(declarations[1..], 1, ColorGet(1, NONE), Advance(d.width, HtmlBoxWidth(declarations[0])));
    Drawn(d.entries + [DECLARATION_HEADER] + first + [VARIABLES_HEADER] + rest.entries + [WRAP], rest.width)
  }

  /** Every section in its fixed order, then the logic header; `nesting_depth` is 0 throughout. */
  function Sections(b: Both.Buckets): Drawn {
    var d0 := Drawn([], 0);
    var d1 := if b.comments != [] then Section(d0, COMMENTS_HEADER, b.comments, 0, COMMENT_COLOR) else d0;
    var d2 := if b.includes != [] then Section(d1, INCLUDES_HEADER, b.includes, 0, ColorGet(0, NONE)) else d1;
    var d3 := if b.declarations != [] then DeclarationSection(d2, b.declarations) else d2;
    var d4 := if b.functions != [] then Section(d3, FUNCTIONS_HEADER, b.functions, 0, ColorGet(0, NONE)) else d3;
    Drawn(d4.entries + [LOGIC_HEADER], d4.width)
  }

  /** Among entries that are not boxes or wraps, a section adds only its header. */
  lemma SectionAddsHeader(d: Drawn, header: string, items: seq<string>, depth: int, color: string, e: string)
    requires e != WRAP && !IsBoxEntry(e)
    ensures e in Section(d, header, items, depth, color).entries <==> e in d.entries || e == header
  {
    BoxAllShape(items, depth, color, d.width);
    var boxes := BoxAll(items, depth, color, d.width);
    assert e !in boxes.entries;
    InOneHeader(e, d.entries, header, boxes.entries);
  }

  lemma InOneHeader(e: string, prefix: seq<string>, h: string, a: seq<string>)
    requires e != WRAP && e !in a
    ensures e in prefix + [h] + a + [WRAP] <==> e in prefix || e == h
  {
    assert prefix + [h] + a + [WRAP] == prefix + ([h] + a + [WRAP]);
  }

  /** The declaration section adds its two headers. */
  lemma DeclarationSectionAddsHeaders(d: Drawn, declarations: seq<string>, e: string)
    requires declarations != [] && e != WRAP && !IsBoxEntry(e)
    ensures e in DeclarationSection(d, declarations).entries <==>
            e in d.entries || e == DECLARATION_HEADER || e == VARIABLES_HEADER
  {
    var first := HtmlBoxEntries(declarations[0], 0, d.width, ColorGet(0, NONE));
    var start := Advance(d.width, HtmlBoxWidth(declarations[0]));
    BoxAllShape(declarations[1..], 1, ColorGet(1, NONE), start);
    var rest := BoxAll(declarations[1..], 1, ColorGet(1, NONE), start);
    assert e !in first;
    assert e !in rest.entries;
    InTwoHeaders(e, d.entries, DECLARATION_HEADER, first, VARIABLES_HEADER, rest.entries);
  }

  /** Membership in entries that add two headers and boxes that do not hold `e`. */
  lemma InTwoHeaders(e: string, prefix: seq<string>, h1: string, a: seq<string>, h2: string, b: seq<string>)
    requires e != WRAP && e !in a && e !in b
    ensures e in prefix + [h1] + a + [h2] + b + [WRAP] <==> e in prefix || e == h1 || e == h2
  {
    assert prefix + [h1] + a + [h2] + b + [WRAP] == prefix + ([h1] + a + [h2] + b + [WRAP]);
  }

  /** A section drawn only for a non-empty bucket adds its header exactly when the bucket is non-empty. */
  lemma OptionalSectionAddsHeader(d: Drawn, header: string, items: seq<string>, depth: int, color: string, e: string)
    requires e != WRAP && !IsBoxEntry(e)
    ensures e in (if items != [] then Section(d, header, items, depth, color) else d).entries <==>
            e in d.entries || (e == header && items != [])
  {
    if items != [] { SectionAddsHeader(d, header, items, depth, color, e); }
  }

  lemma SectionsHeaders(b: Both.Buckets, e: string)
    requires e != WRAP && !IsBoxEntry(e)
    ensures e in Sections(b).entries <==>
            (e == COMMENTS_HEADER && b.comments != []) ||
            (e == INCLUDES_HEADER && b.includes != []) ||
            ((e == DECLARATION_HEADER || e == VARIABLES_HEADER) && b.declarations != []) ||
            (e == FUNCTIONS_HEADER && b.functions != []) ||
            e == LOGIC_HEADER
  {
    var d0 := Drawn([], 0);
    var d1 := if b.comments != [] then Section(d0, COMMENTS_HEADER, b.comments, 0, COMMENT_COLOR) else d0;
    var d2 := if b.includes != [] then Section(d1, INCLUDES_HEADER, b.includes, 0, ColorGet(0, NONE)) else d1;
    var d3 := if b.declarations != [] then DeclarationSection(d2, b.declarations) else d2;
    var d4 := if b.functions != [] then Section(d3, FUNCTIONS_HEADER, b.functions, 0, ColorGet(0, NONE)) else d3;
    OptionalSectionAddsHeader(d0, COMMENTS_HEADER, b.comments, 0, COMMENT_COLOR, e);
    OptionalSectionAddsHeader(d1, INCLUDES_HEADER, b.includes, 0, ColorGet(0, NONE), e);
    if b.declarations != [] { DeclarationSectionAddsHeaders(d2, b.declarations, e); }
    OptionalSectionAddsHeader(d3, FUNCTIONS_HEADER, b.functions, 0, ColorGet(0, NONE), e);
    assert Sections(b).entries == d4.entries + [LOGIC_HEADER];
    ChainHeaders(e, d1.entries, d2.entries, d3.entries, d4.entries,
                 COMMENTS_HEADER, INCLUDES_HEADER, DECLARATION_HEADER, VARIABLES_HEADER, FUNCTIONS_HEADER, LOGIC_HEADER,
                 b.comments != [], b.includes != [], b.declarations != [], b.functions != []);
  }

  /** Chains the four stages of the sections: each stage adds its own headers and nothing else. */
  lemma ChainHeaders(e: string, s1: seq<string>, s2: seq<string>, s3: seq<string>, s4: seq<string>,
                     h1: string, h2: string, h3: string, h3b: string, h4: string, h5: string,
                     p1: bool, p2: bool, p3: bool, p4: bool)
    requires e in s1 <==> (e == h1 && p1)
    requires e in s2 <==> e in s1 || (e == h2 && p2)
    requires e in s3 <==> e in s2 || ((e == h3 || e == h3b) && p3)
    requires e in s4 <==> e in s3 || (e == h4 && p4)
    ensures e in s4 + [h5] <==> (e == h1 && p1) || (e == h2 && p2) || ((e == h3 || e == h3b) && p3) || (e == h4 && p4) || e == h5
  {
  }

  /** A header appears exactly when its bucket is non-empty; the logic header always ends the sections. */
  lemma SectionHeaders(b: Both.Buckets)
    ensures COMMENTS_HEADER in Sections(b).entries <==> b.comments != []
    ensures INCLUDES_HEADER in Sections(b).entries <==> b.includes != []
    ensures VARIABLES_HEADER in Sections(b).entries <==> b.declarations != []
    ensures FUNCTIONS_HEADER in Sections(b).entries <==> b.functions != []
    ensures Sections(b).entries[|Sections(b).entries| - 1] == LOGIC_HEADER
  {
    CommentsHeader(b);
    IncludesHeader(b);
    VariablesHeader(b);
    FunctionsHeader(b);
  }

  lemma CommentsHeader(b: Both.Buckets)
    ensures COMMENTS_HEADER in Sections(b).entries <==> b.comments != []
  {
    TitleIsNotBox("Comments:");
    HeadersDistinct();
    SectionsHeaders(b, COMMENTS_HEADER);
  }

  lemma IncludesHeader(b: Both.Buckets)
    ensures INCLUDES_HEADER in Sections(b).entries <==> b.includes != []
  {
    TitleIsNotBox("Preprocessor Directives:");
    HeadersDistinct();
    SectionsHeaders(b, INCLUDES_HEADER);
  }

  lemma VariablesHeader(b: Both.Buckets)
    ensures VARIABLES_HEADER in Sections(b).entries <==> b.declarations != []
  {
    VariablesHeaderIsNotBox();
    HeadersDistinct();
    SectionsHeaders(b, VARIABLES_HEADER);
  }

  lemma FunctionsHeader(b: Both.Buckets)
    ensures FUNCTIONS_HEADER in Sections(b).entries <==> b.functions != []
  {
    TitleIsNotBox("Function Declarations:");
    HeadersDistinct();
    SectionsHeaders(b, FUNCTIONS_HEADER);
  }

  /** One titled section. */
  method EmitSection(fc: Canvas<string>, d: Drawn, header: string, items: seq<string>, depth: int, color: string)
    returns (r: Drawn)
    requires fc.lines == d.entries
    modifies fc
    ensures r == Section(d, header, items, depth, color) && fc.lines == r.entries
  {
    fc.Append(header);
    var width := HtmlBoxes(fc, items, depth, color, d.width);
    fc.Append(WRAP);
    r := Drawn(fc.lines, width);
  }

  /** The declaration section. */
  method EmitDeclarationSection(fc: Canvas<string>, d: Drawn, declarations: seq<string>) returns (r: Drawn)
    requires declarations != [] && fc.lines == d.entries
    modifies fc
    ensures r == DeclarationSection(d, declarations) && fc.lines == r.entries
  {
    fc.Append(DECLARATION_HEADER);
    var width := HtmlBox(fc, declarations[0], 0, d.width, ColorGet(0, NONE));
    fc.Append(VARIABLES_HEADER);
    width := HtmlBoxes(fc, declarations[1..], 1, ColorGet(1, NONE), width);
    fc.Append(WRAP);
    r := Drawn(fc.lines, width);
  }

  /** The section output of `generate_flowchart_from_c_code`. */
  method EmitSections(fc: Canvas<string>, b: Both.Buckets) returns (width: int)
    requires fc.lines == []
    modifies fc
    ensures fc.lines == Sections(b).entries && width == Sections(b).width
  {
    var d := Drawn([], 0);
    if b.comments != [] {
      d := EmitSection(fc, d, COMMENTS_HEADER, b.comments, 0, COMMENT_COLOR);
    }
    if b.includes != [] {
      d := EmitSection(fc, d, INCLUDES_HEADER, b.includes, 0, ColorGet(0, NONE));
    }
    if b.declarations != [] {
      d := EmitDeclarationSection(fc, d, b.declarations);
    }
    if b.functions != [] {
      d := EmitSection(fc, d, FUNCTIONS_HEADER, b.functions, 0, ColorGet(0, NONE));
    }
    fc.Append(LOGIC_HEADER);
    width := d.width;
  }

  /* The logic pass, with `switch` and `case`. */

  /** `nesting_depth`, `len(brace_stack)`, `current_width`, `increment_next` and the output. */
  datatype LogicState = LogicState(depth: int, braces: nat, currentWidth: int, incrementNext: bool, flowchart: seq<string>)

  /** The invariant of the logic pass: the depth is one more than the open braces and switches. */
  predicate LogicValid(st: LogicState) {
    st.depth == 1 + st.braces
  }

  function NextLine(code: seq<string>, i: nat): string
    requires i < |code|
  {
    if i + 1 < |code| then Strip(code[i + 1]) else ""
  }

  /** One `html_box` call at `depth`, in the colour of that depth. */
  function DrawBox(st: LogicState, stmt: string, depth: int): LogicState {
    st.(flowchart := st.flowchart + HtmlBoxEntries(stmt, depth, st.currentWidth, ColorGet(depth, NONE)),
        currentWidth := Advance(st.currentWidth, HtmlBoxWidth(stmt)))
  }

  /** `^switch\b`: boxed at the current depth, then a level is opened as if by a brace. */
  function SwitchStep(st: LogicState, line: string): (r: LogicState)
    requires LogicValid(st)
    ensures LogicValid(r)
  {
    DrawBox(st, line, st.depth).(braces := st.braces + 1, depth := st.depth + 1)
  }

  /** A control header, as in the terminal tool. */
  function HeaderStep(st: LogicState, line: string, next: string): (r: LogicState)
    requires LogicValid(st)
    ensures LogicValid(r)
  {
    var st1 := DrawBox(st, line, st.depth);
    if next == "{" then st1.(braces := st.braces + 1, depth := st.depth + 1)
    else if !StartsWith(next, "{") then st1.(incrementNext := true)
    else st1
  }

  predicate IsCaseLine(line: string) {
    KeywordAt(line, "case") || KeywordAt(line, "default")
  }

  /** Which branch of the loop body a line takes, in the order the loop tests them. */
  datatype LineKind = SwitchKind | CaseKind | HeaderKind | BodyKind

  function KindOf(line: string): LineKind {
    if KeywordAt(line, "switch") then SwitchKind
    else if IsCaseLine(line) then CaseKind
    else if IsHeader(line) then HeaderKind
    else BodyKind
  }

  /** The iteration of the `while` loop for `line`, whose successor is `next`. */
  function LogicStep(st: LogicState, line: string, next: string): (r: LogicState)
    requires LogicValid(st)
    ensures LogicValid(r)
  {
    match KindOf(line)
    case SwitchKind => SwitchStep(st, line)
    case CaseKind => DrawBox(st, line, st.depth + 1)
    case HeaderKind => HeaderStep(st, line, next)
    case BodyKind => BodyStep(st, line)
  }

  /** The branches after the keyword tests: the pending implicit body, braces, and any other line. */
  function BodyStep(st: LogicState, line: string): (r: LogicState)
    requires LogicValid(st)
    ensures LogicValid(r)
  {
    if st.incrementNext then DrawBox(st, line, st.depth + 1).(incrementNext := false)
    else if line == "{" then st
    else if line == "}" then
      if st.braces > 0 then st.(braces := st.braces - 1, depth := st.depth - 1) else st
    else DrawBox(st, line, st.depth)
  }

  function LogicRun(code: seq<string>, n: nat, init: LogicState): (st: LogicState)
    requires n <= |code| && LogicValid(init)
    ensures LogicValid(st) && st.depth >= 1
    decreases n
  {
    if n == 0 then init else LogicStep(LogicRun(code, n - 1, init), Strip(code[n - 1]), NextLine(code, n - 1))
  }

  function LogicStart(d: Drawn): LogicState {
    LogicState(1, 0, d.width, false, d.entries)
  }

  const PRE_OPEN: string := "<pre style='font-family: monospace'>"
  const PRE_CLOSE: string := "</pre>"

  /** The returned page: every entry, concatenated inside one `<pre>` element. */
  function Page(entries: seq<string>): string {
    PRE_OPEN + Join("", entries) + PRE_CLOSE
  }

  /** The page opens and closes the `<pre>` element around the entries. */
  lemma PageFrame(entries: seq<string>)
    ensures StartsWith(Page(entries), PRE_OPEN) && EndsWith(Page(entries), PRE_CLOSE)
    ensures Page(entries)[|PRE_OPEN|..|Page(entries)| - |PRE_CLOSE|] == Join("", entries)
  {
    var p := Page(entries);
    assert p == PRE_OPEN + (Join("", entries) + PRE_CLOSE);
    assert p[..|PRE_OPEN|] == PRE_OPEN;
    assert p[|p| - |PRE_CLOSE|..] == PRE_CLOSE;
  }

  /** What `generate_flowchart_from_c_code(code)` returns. */
  function CFlowchart(code: string): string {
    var b := Classify(SplitLines(Strip(code)));
    Page(LogicRun(b.codeLines, |b.codeLines|, LogicStart(Sections(b))).flowchart)
  }

  /** The branches that draw one box at `depth` and change nothing else but the flag. */
  method DrawBoxStep(fc: Canvas<string>, st: LogicState, line: string, depth: int) returns (r: LogicState)
    requires fc.lines == st.flowchart
    modifies fc
    ensures r == DrawBox(st, line, depth) && fc.lines == r.flowchart
  {
    var width := HtmlBox(fc, line, depth, st.currentWidth, ColorGet(depth, NONE));
    r := st.(currentWidth := width, flowchart := fc.lines);
  }

  /** The header branch of the loop body. */
  method HeaderLine(fc: Canvas<string>, st: LogicState, line: string, next: string) returns (r: LogicState)
    requires LogicValid(st) && fc.lines == st.flowchart && KindOf(line) == HeaderKind
    modifies fc
    ensures r == LogicStep(st, line, next) && fc.lines == r.flowchart
  {
    r := DrawBoxStep(fc, st, line, st.depth);
    if next == "{" {
      r := r.(braces := r.braces + 1, depth := r.depth + 1);
    } else if !StartsWith(next, "{") {
      r := r.(incrementNext := true);
    }
  }

  /** The `switch` branch of the loop body. */
  method SwitchLine(fc: Canvas<string>, st: LogicState, line: string, next: string) returns (r: LogicState)
    requires LogicValid(st) && fc.lines == st.flowchart && KindOf(line) == SwitchKind
    modifies fc
    ensures r == LogicStep(st, line, next) && fc.lines == r.flowchart
  {
    r := DrawBoxStep(fc, st, line, st.depth);
    r := r.(braces := r.braces + 1, depth := r.depth + 1);
  }

  /** The `case` and `default` branch of the loop body. */
  method CaseLine(fc: Canvas<string>, st: LogicState, line: string, next: string) returns (r: LogicState)
    requires LogicValid(st) && fc.lines == st.flowchart && KindOf(line) == CaseKind
    modifies fc
    ensures r == LogicStep(st, line, next) && fc.lines == r.flowchart
  {
    assert LogicStep(st, line, next) == DrawBox(st, line, st.depth + 1);
    r := DrawBoxStep(fc, st, line, st.depth + 1);
  }

  /** The loop body after the keyword tests. */
  method BodyLine(fc: Canvas<string>, st: LogicState, line: string, next: string) returns (r: LogicState)
    requires LogicValid(st) && fc.lines == st.flowchart && KindOf(line) == BodyKind
    modifies fc
    ensures r == LogicStep(st, line, next) && fc.lines == r.flowchart
  {
    if st.incrementNext {
      r := DrawBoxStep(fc, st, line, st.depth + 1);
      r := r.(incrementNext := false);
    } else if line == "{" {
      r := st;
    } else if line == "}" {
      r := st;
      if st.braces > 0 {
        r := st.(braces := st.braces - 1, depth := st.depth - 1);
      }
    } else {
      r := DrawBoxStep(fc, st, line, st.depth);
    }
  }

  /** The loop body for one logic line. */
  method LogicLine(fc: Canvas<string>, st: LogicState, line: string, next: string) returns (r: LogicState)
    requires LogicValid(st) && fc.lines == st.flowchart
    modifies fc
    ensures r == LogicStep(st, line, next) && fc.lines == r.flowchart
  {
    var kind := KindOf(line);
    match kind
    case SwitchKind =>
      r := SwitchLine(fc, st, line, next);
    case CaseKind =>
      r := CaseLine(fc, st, line, next);
    case HeaderKind =>
      r := HeaderLine(fc, st, line, next);
    case BodyKind =>
      r := BodyLine(fc, st, line, next);
  }

  /** The `while` loop of the logic pass. */
  method RunLogic(fc: Canvas<string>, codeLines: seq<string>, init: LogicState) returns (st: LogicState)
    requires LogicValid(init) && fc.lines == init.flowchart
    modifies fc
    ensures st == LogicRun(codeLines, |codeLines|, init) && fc.lines == st.flowchart
  {
    st := init;
    var i := 0;
    while i < |codeLines|
      invariant i <= |codeLines|
      invariant st == LogicRun(codeLines, i, init) && fc.lines == st.flowchart
    {
      var line := Strip(codeLines[i]);
      var next := if i + 1 < |codeLines| then Strip(codeLines[i + 1]) else "";
      assert LogicRun(codeLines, i + 1, init) == LogicStep(st, line, next);
      st := LogicLine(fc, st, line, next);
      i := i + 1;
    }
  }

  /** `generate_flowchart_from_c_code`. */
  method GenerateFlowchartFromCCode(code: string) returns (page: string)
    ensures page == CFlowchart(code)
  {
    var b := ClassifyLines(SplitLines(Strip(code)));
    var fc := new Canvas<string>();
    var width := EmitSections(fc, b);
    var st := RunLogic(fc, b.codeLines, LogicState(1, 0, width, false, fc.lines));
    page := PRE_OPEN + Join("", fc.lines) + PRE_CLOSE;
  }

  /* Properties of the logic pass. */

  /** A `switch` line is boxed at the current depth and opens one level. */
  lemma SwitchOpensLevel(st: LogicState, line: string, next: string)
    requires LogicValid(st) && KeywordAt(line, "switch")
    ensures var r := LogicStep(st, line, next);
      r.depth == st.depth + 1 && r.braces == st.braces + 1 && r.incrementNext == st.incrementNext &&
      r.flowchart == st.flowchart + HtmlBoxEntries(line, st.depth, st.currentWidth, ColorGet(st.depth, NONE))
  {
  }

  /** A `case` or `default` line is boxed one level deeper and leaves the depth alone. */
  lemma CaseBoxedDeeper(st: LogicState, line: string, next: string)
    requires LogicValid(st) && IsCaseLine(line)
    ensures var r := LogicStep(st, line, next);
      r.depth == st.depth && r.braces == st.braces && r.incrementNext == st.incrementNext &&
      r.flowchart == st.flowchart + HtmlBoxEntries(line, st.depth + 1, st.currentWidth, ColorGet(st.depth + 1, NONE))
  {
    if KeywordAt(line, "switch") {
      KeywordFirstChar(line, "switch");
      if KeywordAt(line, "case") {
        KeywordFirstChar(line, "case");
      } else {
        KeywordFirstChar(line, "default");
      }
      assert false;
    }
  }

  lemma KeywordFirstChar(line: string, kw: string)
    requires KeywordAt(line, kw) && kw != []
    ensures line[0] == kw[0]
  {
    assert line[..|kw|][0] == line[0];
  }

  /**
   * A header whose next line is exactly `{`: the header is boxed, the brace
   * line is consumed without a box, and the depth goes up by one.
   */
  lemma HeaderThenBrace(st: LogicState, header: string, after: string)
    requires LogicValid(st) && IsHeader(header) && !KeywordAt(header, "switch") && !IsCaseLine(header)
    requires !st.incrementNext
    ensures var r := LogicStep(LogicStep(st, header, "{"), "{", after);
      r.depth == st.depth + 1 && r.braces == st.braces + 1 && !r.incrementNext &&
      r.flowchart == st.flowchart + HtmlBoxEntries(header, st.depth, st.currentWidth, ColorGet(st.depth, NONE))
  {
    assert !IsHeader("{") && !KeywordAt("{", "switch") && !IsCaseLine("{");
  }

  /**
   * A header whose next line starts with neither `{` nor a keyword of its own:
   * that line is boxed one level deeper and the depth is unchanged.
   */
  lemma HeaderImplicitBody(st: LogicState, header: string, body: string, after: string)
    requires LogicValid(st) && IsHeader(header) && !KeywordAt(header, "switch") && !IsCaseLine(header)
    requires !IsHeader(body) && !KeywordAt(body, "switch") && !IsCaseLine(body) && !StartsWith(body, "{")
    ensures var st1 := LogicStep(st, header, body);
      var r := LogicStep(st1, body, after);
      r.depth == st.depth && r.braces == st.braces && !r.incrementNext &&
      r.flowchart == st1.flowchart + HtmlBoxEntries(body, st.depth + 1, st1.currentWidth, ColorGet(st.depth + 1, NONE))
  {
    var st1 := LogicStep(st, header, body);
    assert st1 == HeaderStep(st, header, body);
    assert st1.incrementNext && st1.depth == st.depth && st1.braces == st.braces;
    assert LogicStep(st1, body, after) == BodyStep(st1, body);
  }

  /**
   * `switch` is checked before the pending implicit body: a `switch` that is
   * the body of a braceless header is boxed at the header's depth, and the
   * body flag stays set for the line after it.
   */
  lemma SwitchBodyKeepsFlag(st: LogicState, line: string, next: string)
    requires LogicValid(st) && st.incrementNext && KeywordAt(line, "switch")
    ensures var r := LogicStep(st, line, next);
      r.incrementNext && r.depth == st.depth + 1 &&
      r.flowchart == st.flowchart + HtmlBoxEntries(line, st.depth, st.currentWidth, ColorGet(st.depth, NONE))
  {
  }

  /**
   * With a body pending, a line that is not a `switch`, `case`, `default` or
   * header line, a `{` or `}` line included, is boxed one level deeper and
   * clears the flag; no brace is counted.
   */
  lemma PendingBodyStep(st: LogicState, body: string, after: string)
    requires LogicValid(st) && st.incrementNext
    requires !KeywordAt(body, "switch") && !IsCaseLine(body) && !IsHeader(body)
    ensures var r := LogicStep(st, body, after);
      !r.incrementNext && r.depth == st.depth && r.braces == st.braces &&
      r.flowchart == st.flowchart + HtmlBoxEntries(body, st.depth + 1, st.currentWidth, ColorGet(st.depth + 1, NONE))
  {
    assert KindOf(body) == BodyKind;
  }

  /** A lone `{` not consumed by a header, and a `}` with no open level, change nothing. */
  lemma StrayBracesIgnored(st: LogicState, after: string)
    requires LogicValid(st) && !st.incrementNext
    ensures LogicStep(st, "{", after) == st
    ensures st.braces == 0 ==> LogicStep(st, "}", after) == st
  {
    assert !IsHeader("{") && !KeywordAt("{", "switch") && !IsCaseLine("{");
    assert !IsHeader("}") && !KeywordAt("}", "switch") && !IsCaseLine("}");
  }

  /* The Python pass. */

  /** The variables of `generate_flowchart_from_python` between two lines. */
  datatype PyState = PyState(
    indentStack: seq<int>,
    depth: int,
    currentWidth: int,
    insideMultilineComment: bool,
    flowchart: seq<string>)

  predicate PyValid(st: PyState) {
    Increasing(st.indentStack) && st.depth == |st.indentStack| - 1
  }

  const PY_INITIAL: PyState := PyState([0], 0, 0, false, [])

  const TRIPLE_DOUBLE: string := "\"\"\""
  const TRIPLE_SINGLE: string := "'''"

  /** One `html_box` call at the current depth. */
  function PyBoxed(st: PyState, stmt: string, color: string): (r: PyState)
    ensures r.flowchart == st.flowchart + HtmlBoxEntries(stmt, st.depth, st.currentWidth, color)
    ensures r.indentStack == st.indentStack && r.depth == st.depth
    ensures r.insideMultilineComment == st.insideMultilineComment
  {
    st.(flowchart := st.flowchart + HtmlBoxEntries(stmt, st.depth, st.currentWidth, color),
        currentWidth := Advance(st.currentWidth, HtmlBoxWidth(stmt)))
  }

  /** Docstring mode: boxed in the comment colour; a triple quote ends the mode. */
  function DocstringLine(st: PyState, stripped: string): (r: PyState)
    requires PyValid(st)
    ensures PyValid(r)
    ensures r.indentStack == st.indentStack && r.depth == st.depth
    ensures !r.insideMultilineComment <==>
              !st.insideMultilineComment || Contains(stripped, TRIPLE_DOUBLE) || Contains(stripped, TRIPLE_SINGLE)
  {
    var closes := Contains(stripped, TRIPLE_DOUBLE) || Contains(stripped, TRIPLE_SINGLE);
    PyBoxed(st, stripped, COMMENT_COLOR).(insideMultilineComment := if closes then false else st.insideMultilineComment)
  }

  /** A line starting with a triple quote toggles the mode and is boxed. */
  function DocstringOpen(st: PyState, stripped: string): (r: PyState)
    requires PyValid(st)
    ensures PyValid(r)
    ensures r.indentStack == st.indentStack && r.depth == st.depth
    ensures r.insideMultilineComment == !st.insideMultilineComment
  {
    PyBoxed(st.(insideMultilineComment := !st.insideMultilineComment), stripped, COMMENT_COLOR)
  }

  /** The pop loop and the push of a code line, `depth` following the stack. */
  function Reindented(st: PyState, indent: nat): (r: PyState)
    requires PyValid(st)
    ensures PyValid(r) && r.indentStack == Reindent(st.indentStack, indent)
    ensures r.flowchart == st.flowchart && r.currentWidth == st.currentWidth
    ensures r.insideMultilineComment == st.insideMultilineComment
  {
    var s := PopWhileLess(st.indentStack, indent);
    var popped := st.(indentStack := s, depth := st.depth - (|st.indentStack| - |s|));
    if indent > Top(s) then popped.(indentStack := s + [indent], depth := popped.depth + 1) else popped
  }

  /** A code line: re-indented, then boxed at the new depth, white past the table. */
  function CodeLine(st: PyState, stripped: string, indent: nat): (r: PyState)
    requires PyValid(st)
    ensures PyValid(r)
    ensures r.indentStack == Reindent(st.indentStack, indent)
    ensures r.insideMultilineComment == st.insideMultilineComment
    ensures r.flowchart == st.flowchart + HtmlBoxEntries(stripped, r.depth, st.currentWidth, ColorGet(r.depth, DEFAULT_COLOR))
  {
    var st1 := Reindented(st, indent);
    PyBoxed(st1, stripped, ColorGet(st1.depth, DEFAULT_COLOR))
  }

  /** A non-blank line, by the first branch that applies. */
  function PyLineStep(st: PyState, stripped: string, indent: nat): (r: PyState)
    requires PyValid(st)
    ensures PyValid(r)
  {
    if st.insideMultilineComment then DocstringLine(st, stripped)
    else if StartsWith(stripped, TRIPLE_SINGLE) || StartsWith(stripped, TRIPLE_DOUBLE) then DocstringOpen(st, stripped)
    else if StartsWith(stripped, "#") then PyBoxed(st, stripped, COMMENT_COLOR)
    else CodeLine(st, stripped, indent)
  }

  /** Only blank lines are skipped; unlike the terminal tools, a `#!` line is drawn. */
  predicate PySkipped(rawLine: string) {
    Strip(RStrip(rawLine)) == []
  }

  /** One iteration of the `for` loop; the indentation is read from the raw line. */
  function PyStep(st: PyState, rawLine: string): (r: PyState)
    requires PyValid(st)
    ensures PyValid(r)
  {
    if PySkipped(rawLine) then st
    else PyLineStep(st, Strip(RStrip(rawLine)), IndentLevel(rawLine))
  }

  function PyRun(lines: seq<string>): (st: PyState)
    ensures PyValid(st) && st.depth >= 0
    decreases |lines|
  {
    if lines == [] then PY_INITIAL else PyStep(PyRun(lines[..|lines| - 1]), lines[|lines| - 1])
  }

  /** What `generate_flowchart_from_python(code)` returns. */
  function PyFlowchart(code: string): string {
    Page(PyRun(SplitLines(Strip(code))).flowchart)
  }

  /** The code-line branch of the loop body. */
  method CodeLineStep(fc: Canvas<string>, st: PyState, stripped: string, indent: nat) returns (r: PyState)
    requires PyValid(st) && st.flowchart == fc.lines
    modifies fc
    ensures r == CodeLine(st, stripped, indent) && fc.lines == r.flowchart
  {
    var indentStack, depth := Dedent(st.indentStack, st.depth, indent);
    if indent > indentStack[|indentStack| - 1] {
      indentStack := indentStack + [indent];
      depth := depth + 1;
    }
    var color := ColorGet(depth, DEFAULT_COLOR);
    var width := HtmlBox(fc, stripped, depth, st.currentWidth, color);
    r := st.(indentStack := indentStack, depth := depth, currentWidth := width, flowchart := fc.lines);
  }

  /** The branches that only draw a comment box. */
  method CommentBoxStep(fc: Canvas<string>, st: PyState, stripped: string, inside: bool) returns (r: PyState)
    requires st.flowchart == fc.lines
    modifies fc
    ensures r == PyBoxed(st, stripped, COMMENT_COLOR).(insideMultilineComment := inside) && fc.lines == r.flowchart
  {
    var width := HtmlBox(fc, stripped, st.depth, st.currentWidth, COMMENT_COLOR);
    r := st.(currentWidth := width, insideMultilineComment := inside, flowchart := fc.lines);
  }

  /** One iteration of the loop body. */
  method PyProcessLine(fc: Canvas<string>, st: PyState, rawLine: string) returns (r: PyState)
    requires PyValid(st) && st.flowchart == fc.lines
    modifies fc
    ensures r == PyStep(st, rawLine) && fc.lines == r.flowchart
  {
    var line := RStrip(rawLine);
    if Strip(line) == [] {
      return st;
    }
    var stripped := Strip(line);
    var indent := IndentLevel(rawLine);
    if st.insideMultilineComment {
      var inside := true;
      if Contains(stripped, TRIPLE_DOUBLE) || Contains(stripped, TRIPLE_SINGLE) {
        inside := false;
      }
      r := CommentBoxStep(fc, st, stripped, inside);
    } else if StartsWith(stripped, TRIPLE_SINGLE) || StartsWith(stripped, TRIPLE_DOUBLE) {
      r := CommentBoxStep(fc, st, stripped, !st.insideMultilineComment);
    } else if StartsWith(stripped, "#") {
      r := CommentBoxStep(fc, st, stripped, st.insideMultilineComment);
    } else {
      r := CodeLineStep(fc, st, stripped, indent);
    }
  }

  /** The `for` loop of `generate_flowchart_from_python`. */
  method RunPython(fc: Canvas<string>, lines: seq<string>) returns (st: PyState)
    requires fc.lines == []
    modifies fc
    ensures st == PyRun(lines) && fc.lines == st.flowchart
  {
    st := PY_INITIAL;
    for i := 0 to |lines|
      invariant st == PyRun(lines[..i]) && fc.lines == st.flowchart
    {
      assert lines[..i + 1][..i] == lines[..i];
      st := PyProcessLine(fc, st, lines[i]);
    }
    assert lines[..|lines|] == lines;
  }

  /** `generate_flowchart_from_python`. */
  method GenerateFlowchartFromPython(code: string) returns (page: string)
    ensures page == PyFlowchart(code)
  {
    var lines := SplitLines(Strip(code));
    var fc := new Canvas<string>();
    var st := RunPython(fc, lines);
    page := PRE_OPEN + Join("", fc.lines) + PRE_CLOSE;
  }

  /**
   * A skipped line changes nothing. Any other line draws one box; a line in
   * or opening a docstring, and a `#` line, leave the stack and the depth as
   * they were.
   */
  lemma PyStepShape(st: PyState, rawLine: string)
    requires PyValid(st)
    ensures PySkipped(rawLine) ==> PyStep(st, rawLine) == st
    ensures var r := PyStep(st, rawLine);
      !PySkipped(rawLine) ==>
        |r.flowchart| - |st.flowchart| in {3, 4} && r.flowchart[..|st.flowchart|] == st.flowchart
    ensures var stripped := Strip(RStrip(rawLine));
      var r := PyStep(st, rawLine);
      (st.insideMultilineComment || StartsWith(stripped, TRIPLE_SINGLE) || StartsWith(stripped, TRIPLE_DOUBLE) ||
       StartsWith(stripped, "#")) ==>
        r.indentStack == st.indentStack && r.depth == st.depth
  {
    if !PySkipped(rawLine) {
      var r := PyStep(st, rawLine);
      var rows := r.flowchart[|st.flowchart|..];
      assert r.flowchart == st.flowchart + rows;
    }
  }
}
