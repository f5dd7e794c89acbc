# Code to box diagram generators, modelled in Dafny

The repository turns a C or Python source file into a "flowchart": a column of
text boxes, one per statement, shifted right by nesting depth and coloured by
depth. There are six near-duplicate generators:

- `flowchart.py`, the first C tool: five-line boxes with a line-number tag and
  a coloured arrow.
- `flowchart_generator_for_python.py`: a Python tool driven by an indentation
  stack, with docstring and `#`-comment handling.
- `flowchart_generator_both.py`: that Python pass, plus a C pass. The C pass
  sorts the lines into buckets (comments, includes, prototypes, declarations,
  logic), draws the buckets as titled sections, then walks the logic lines
  tracking brace depth.
- `flowchart_generator.py`: both passes again, drawn as HTML `<span>` entries
  inside a `<pre>` element. Its C pass also handles `switch`, `case` and
  `default`.
- `tkinter/tk_flowchart_gui.py`: multi-line boxes, a C pass that groups a
  multi-line comment into one box, and a choice of pass by file suffix.
- `flowchart_generator.c`: a C program that prints a box per line with
  box-drawing characters. Its depth follows braces and brace-less control
  statements.

Every generator makes one forward pass over the lines. It keeps a little
integer and stack state and appends output lines to a list. Each box emitter
uses the same wrap rule: a box that would take the running row width past 100
columns is preceded by an empty line (or `<br>`), and the running width
restarts.

The model keeps each tool as it is written; the variants are not unified.

- Each box emitter is a `method` that appends to a `Layout.Canvas` (the
  mutated `flowchart` list). It is proved against a pure function giving the
  appended rows.
- Each generator loop is a `method` whose loop invariant ties the state to a
  fold function over the lines read so far (`Run`, `LogicRun`, `CExec`).
- The properties of each step are lemmas about those fold functions.

Shared pieces:

- `Text`: Python's string operations, written out over `seq<char>`
  (`strip`, `rstrip`, `lstrip`, `split`, `join`, `ljust`, `str(n)`).
- `Layout`: output lines, with terminal colour escapes kept as opaque `Esc`
  tokens of zero width. It also holds the wrap rule and the row law it
  implies.
- `Indentation`: the Python indentation stack.
- `CPatterns`: the regular expressions of the C classifiers, written as
  greedy scans over one line. The declaration pattern also has an
  independent definition by explicit split points, and the scan is proved
  to agree with it (`CPatterns.IsDeclarationCorrect`). The `malloc` pattern
  has a characterisation by the position of its `=`
  (`CPatterns.MallocAssignmentAt`). The other patterns are given by their
  scans only.

The Python pass of `flowchart_generator_both.py` is the same code as
`flowchart_generator_for_python.py` (its lines 34-113 against 15-97). Both
are modelled once, by `FlowchartGeneratorForPython`. The Python pass of the
Tk tool reuses its state and step functions.

Where the code does something its names and comments do not suggest, the
model follows the code:

- In `flowchart.py` the depth can go below zero. A header ending in `;`
  followed by one statement leaves depth -1 (`Flowchart.DepthCanGoNegative`).
- In `tkinter/tk_flowchart_gui.py` a header followed by a line of exactly `{`
  opens two levels, not one (`TkFlowchartGui.HeaderThenBracePushesTwice`).
- In `flowchart_generator_both.py` the content line of a box is one column
  wider than its borders (`FlowchartGeneratorBoth.CodeBoxLines`).
- In `flowchart_generator.c`, the line that flushes the headed comments ends
  the grouping before the function test. A function header on that line
  therefore never starts a function (`FlowchartGeneratorC.FlushSkipsFunctionStart`).

## Model

| member | source | states |
|---|---|---|
| Text.LStrip | flowchart_generator_both.py:159 | the leading half of `strip()`: no longer than the input, starts with a non-space, and keeps the last character |
| Text.LStripSuffix | flowchart_generator_both.py:159 | what the leading half of `strip()` keeps is a suffix of the input and everything it drops is whitespace |
| Text.LStripBlankPrefix | flowchart_generator_for_python.py:36 | conversely, `lstrip` drops exactly a blank prefix placed before a non-blank character |
| Text.RStrip | flowchart_generator_both.py:65 | `rstrip()` result ends with a non-space and keeps the first character |
| Text.RStripPrefix | flowchart_generator_both.py:65 | what `rstrip` keeps is a prefix of the input and everything it drops is whitespace |
| Text.Strip | flowchart_generator_both.py:159 | `strip()` leaves no whitespace at either end |
| Text.StripEmpty | flowchart_generator_both.py:161 | a line strips to nothing exactly when every character is whitespace (the blank-line test) |
| Text.LStripChar | flowchart_generator_for_python.py:16 | `lstrip(' ')` drops exactly the leading run of the one character |
| Text.ContainsChar | flowchart_generator.c:51 | `strstr` with a one-character pattern finds exactly the characters that occur |
| Text.Split | flowchart_generator_both.py:141 | `split` gives at least one part and no part holds the separator |
| Text.SplitJoin | flowchart_generator_both.py:141 | joining the parts of a split with the separator restores the text |
| Text.JoinSplit | tkinter/tk_flowchart_gui.py:148 | splitting a join of separator-free parts returns the parts |
| Text.SplitLines | flowchart_generator_for_python.py:39 | `splitlines` at `'\n'`: newline-free lines, and none exactly for empty text |
| Text.SplitLinesJoin | flowchart_generator_for_python.py:39 | joining the lines with newlines restores the text, less one final newline |
| Text.StripChars | tkinter/tk_flowchart_gui.py:136 | stripping only removes characters, so a newline-free line stays newline-free |
| Text.RepeatChar | flowchart_generator_for_python.py:29 | `c * n` is `n` copies of `c`, empty for `n <= 0` |
| Text.LJust | flowchart_generator_for_python.py:30 | `ljust(w)` keeps the text as a prefix and pads with spaces to `max(w, len)` |
| Text.NatToString | flowchart.py:35 | `str(n)` for `n >= 0`: decimal digits, no leading zero, whose decimal value (`DecimalValue`) is `n` |
| Text.IntToString | flowchart.py:41 | `str(n)` is non-empty and starts with `-` exactly for a negative depth or line number |
| Text.IntToStringValue | flowchart.py:41 | after the `-` of a negative number, `str(n)` is decimal digits whose value is `abs(n)` |
| Layout.Painted | flowchart_generator_for_python.py:29 | a coloured line takes the indent plus body columns; escapes take none |
| Layout.WidthAppend | flowchart_generator_for_python.py:29-31 | the visible width of a concatenation is the sum of the widths |
| Layout.Advance | flowchart_generator_for_python.py:24-33 | wrap law: the returned running width is at most `max(100, box width)` |
| Layout.Canvas.constructor | flowchart_generator_for_python.py:40 | `flowchart = []` |
| Layout.Canvas.Append | flowchart_generator_for_python.py:26 | `append` adds exactly one line at the end |
| Layout.Canvas.Extend | flowchart_generator.py:35 | `extend` adds the given lines at the end, in order |
| Layout.Rows | flowchart_generator_for_python.py:24-26 | the rows the wrap rule forms: there is always at least one |
| Layout.RowsFlatten | flowchart_generator_for_python.py:24-33 | the rows hold every box, in order |
| Layout.RowsLastWidth | flowchart_generator_for_python.py:24-33 | the running width is the width of the last row |
| Layout.RowsWrapLaw | flowchart_generator_for_python.py:24-33 | no row is wider than 100 unless it holds a single, unsplit box |
| Indentation.IndentLevel | flowchart_generator_for_python.py:15-16 | `get_indent_level` is the number of leading spaces (tabs do not count) |
| Indentation.PopWhileLess | flowchart_generator_for_python.py:83-85 | the pop loop keeps a strictly increasing prefix whose top is at most the indent, dropping only entries above it |
| Indentation.Reindent | flowchart_generator_for_python.py:83-89 | pop then push leaves a strictly increasing stack whose top is exactly the indent |
| Indentation.Dedent | flowchart_generator_for_python.py:83-85 | the `while` pop loop computes `PopWhileLess`, and depth drops once per pop |
| CPatterns.RunOf | flowchart_generator_both.py:176 | a greedy character-class run: all match, and the next one does not |
| CPatterns.RunOfStops | flowchart_generator_both.py:176 | a run is fixed by where it stops |
| CPatterns.RunAt | flowchart_generator_both.py:178 | a run counted from an offset |
| CPatterns.IsPrototype | flowchart_generator_both.py:176 | the prototype pattern: a word, whitespace, a word, optional whitespace, `(`, then a `)` with optional whitespace and `;`, reached without a newline |
| CPatterns.IsMallocAssignment | flowchart_generator_both.py:176 | the `malloc` pattern: an `=`, optional whitespace, then `malloc`, reached without a newline |
| CPatterns.MallocAssignmentAt | flowchart_generator_both.py:176 | the `malloc` scan holds exactly when some `=` position satisfies the pattern |
| CPatterns.PrototypeIsDeclaration | flowchart_generator_both.py:176-178 | every prototype line also matches the declaration pattern, so the prototype test must come first |
| CPatterns.IsDeclaration | flowchart_generator_both.py:178 | the greedy scan of the declaration pattern; `IsDeclarationCorrect` proves it equal to the pattern |
| CPatterns.DeclAssignmentSubsumed | flowchart_generator_both.py:178 | the `=` alternative of the declaration regex adds nothing to the second |
| CPatterns.DeclHeadIsDeclaration | flowchart_generator_both.py:178 | every way the regex can match is found by the greedy scan |
| CPatterns.IsDeclarationCorrect | flowchart_generator_both.py:178 | the greedy scan accepts exactly the lines the declaration regex matches |
| CPatterns.ElseIfSubsumed | flowchart_generator.py:74 | the `else\s+if` alternative is reached only when `else\b` already matched |
| CPatterns.IsHeader | flowchart_generator.py:128 | the control-header pattern, anchored at the start, each keyword followed by a word boundary |
| CPatterns.IsControlLine | flowchart_generator.py:74 | the excluded-keyword pattern; `ElseIfSubsumed` and `HeaderIsControlLine` relate it to `IsHeader` |
| CPatterns.HeaderIsControlLine | flowchart_generator.py:74 | every control header is excluded from the declarations |
| FlowchartGeneratorForPython.ArrowColor | flowchart_generator_for_python.py:6-19 | the colour is a table entry, and `RESET` exactly for depths of residue 13 mod 14 |
| FlowchartGeneratorForPython.ArrowColorPeriodic | flowchart_generator_for_python.py:18-19 | the arrow colour repeats every 14 levels |
| FlowchartGeneratorForPython.IsControlStatement | flowchart_generator_for_python.py:35-36 | one of the eight keywords after leading whitespace, followed by a word boundary |
| FlowchartGeneratorForPython.ControlStatementFirstChar | flowchart_generator_for_python.py:35-36 | a control statement's first non-blank character is `i`, `e`, `f`, `w` or `t` |
| FlowchartGeneratorForPython.ControlKeywordMatches | flowchart_generator_for_python.py:35-36 | conversely, any keyword after blanks, at the end or before a non-word character, is a control statement |
| FlowchartGeneratorForPython.BoxLines | flowchart_generator_for_python.py:21-31 | three lines with equal borders, each `indent + len(stmt) + 8` columns wide |
| FlowchartGeneratorForPython.PrintBoxRows | flowchart_generator_for_python.py:24-31 | three lines, after one `""` exactly when `current + len + 6 > 100` |
| FlowchartGeneratorForPython.PrintBox | flowchart_generator_for_python.py:21-33 | appends those rows to the list and returns the wrap-rule width |
| FlowchartGeneratorForPython.Boxed | flowchart_generator_for_python.py:61 | one box at the current depth; the stack and the depth are untouched |
| FlowchartGeneratorForPython.Popped | flowchart_generator_for_python.py:83-85 | the pop loop keeps the stack invariant and `depth == len(stack) - 1` |
| FlowchartGeneratorForPython.Pushed | flowchart_generator_for_python.py:87-89 | the push keeps the stack invariant and the depth in step |
| FlowchartGeneratorForPython.DocstringLine | flowchart_generator_for_python.py:60-64 | a line in docstring mode is boxed gray at the current depth; a triple quote ends the mode |
| FlowchartGeneratorForPython.DocstringOpen | flowchart_generator_for_python.py:66-69 | a leading triple quote toggles the mode without looking for a closer, and is boxed gray |
| FlowchartGeneratorForPython.CommentLine | flowchart_generator_for_python.py:72-80 | a `#` line may pop but never pushes, pops nothing unless dedented, clears the control flag, and is boxed gray |
| FlowchartGeneratorForPython.CodeLine | flowchart_generator_for_python.py:83-94 | a code line re-indents the stack, is boxed in its new depth's colour, and records whether it is a control statement |
| FlowchartGeneratorForPython.LineStep | flowchart_generator_for_python.py:59-95 | every branch keeps the stack invariant |
| FlowchartGeneratorForPython.Step | flowchart_generator_for_python.py:48-95 | one loop iteration keeps the stack invariant |
| FlowchartGeneratorForPython.Run | flowchart_generator_for_python.py:41-97 | after any input the stack is strictly increasing from 0 and `depth == len(stack) - 1 >= 0` |
| FlowchartGeneratorForPython.DocstringLineStep | flowchart_generator_for_python.py:60-64 | the docstring-mode branch computes `DocstringLine` on the list |
| FlowchartGeneratorForPython.DocstringOpenStep | flowchart_generator_for_python.py:66-69 | the triple-quote branch computes `DocstringOpen` |
| FlowchartGeneratorForPython.CommentLineStep | flowchart_generator_for_python.py:72-80 | the `#` branch computes `CommentLine` |
| FlowchartGeneratorForPython.CodeLineStep | flowchart_generator_for_python.py:83-95 | the code branch computes `CodeLine` |
| FlowchartGeneratorForPython.ProcessLine | flowchart_generator_for_python.py:48-95 | one iteration of the loop body computes `Step` |
| FlowchartGeneratorForPython.GenerateFlowchartFromPython | flowchart_generator_for_python.py:38-97 | the generator returns the joined lines of `Run` over `code.strip().splitlines()` |
| FlowchartGeneratorForPython.StepDrawsOneBox | flowchart_generator_for_python.py:48-95 | a blank line, or a `#!` line before any output, changes nothing; any other line adds exactly 3 or 4 lines |
| FlowchartGeneratorForPython.LineStepDrawsOneBox | flowchart_generator_for_python.py:59-95 | every branch appends exactly 3 or 4 lines and keeps the earlier output |
| FlowchartGeneratorForPython.RunWidth | flowchart_generator_for_python.py:48-95 | `current_width` is the wrap-rule running width of the boxes drawn, so the rows obey `RowsWrapLaw` |
| FlowchartGeneratorForPython.LineStepWidth | flowchart_generator_for_python.py:59-95 | each drawn line advances the running width by its own box |
| FlowchartGeneratorBoth.DepthColor | flowchart_generator_both.py:28-30 | the colour is a table entry, and `RESET` exactly for a depth outside the table |
| FlowchartGeneratorBoth.DepthColorAgreesWithArrowColor | flowchart_generator_both.py:28-30 | inside the table the C colour is the Python pass's colour |
| FlowchartGeneratorBoth.CodeBoxLines | flowchart_generator_both.py:118-127 | equal borders `shift + len + 14` wide; the content line is one column wider |
| FlowchartGeneratorBoth.CodeBoxRows | flowchart_generator_both.py:119-127 | three rows, after one empty row exactly when `current + len + 12 > 100` |
| FlowchartGeneratorBoth.CodeBoxRowsEndWithBox | flowchart_generator_both.py:125-127 | the last three rows are the box |
| FlowchartGeneratorBoth.ProcessCodeLine | flowchart_generator_both.py:117-130 | appends those rows and returns the wrap-rule width |
| FlowchartGeneratorBoth.BoxAllShape | flowchart_generator_both.py:186-187 | boxing a list adds 3 to 4 rows per item and ends within the wrap law |
| FlowchartGeneratorBoth.ProcessCodeLines | flowchart_generator_both.py:186-187 | a section's loop appends one box per item, left to right |
| FlowchartGeneratorBoth.NonEmptyStripped | flowchart_generator_both.py:134-136 | the kept parts are non-empty and no more than the parts |
| FlowchartGeneratorBoth.NonEmptyStrippedFrom | flowchart_generator_both.py:134-136 | every kept item is the stripped form of some part |
| FlowchartGeneratorBoth.Statements | flowchart_generator_both.py:133-136 | the `;`-separated pieces that are non-blank after stripping, in order |
| FlowchartGeneratorBoth.StatementsAreClean | flowchart_generator_both.py:133-136 | every statement is non-empty, `;`-free and stripped |
| FlowchartGeneratorBoth.PartBoxesAreStatementBoxes | flowchart_generator_both.py:132-138 | skipping empty parts as they come is boxing the non-empty stripped parts in order |
| FlowchartGeneratorBoth.ProcessMultipleStatements | flowchart_generator_both.py:132-138 | one box per non-empty `;`-segment, at one depth and colour |
| FlowchartGeneratorBoth.ClassifyLines | flowchart_generator_both.py:158-181 | the bucket loop computes `Classify` |
| FlowchartGeneratorBoth.ClassifyStep | flowchart_generator_both.py:158-181 | one iteration of the bucket loop, in the order of its tests |
| FlowchartGeneratorBoth.Classify | flowchart_generator_both.py:158-181 | the bucket loop over all lines; `ClassifyFilesEveryLine` states that it files each non-blank line once |
| FlowchartGeneratorBoth.ClassifyStepFilesLine | flowchart_generator_both.py:158-181 | one line adds one to the lines held in the buckets and the open block if it is non-blank, and nothing if blank |
| FlowchartGeneratorBoth.ClassifyFilesEveryLine | flowchart_generator_both.py:158-181 | the buckets hold exactly the non-blank lines |
| FlowchartGeneratorBoth.OpeningLineNeverCloses | flowchart_generator_both.py:165-167 | a `/*` line always opens a block, even when it ends with `*/` |
| FlowchartGeneratorBoth.TwoWordLineIsDeclaration | flowchart_generator_both.py:176-179 | a left-over word, space, word line that is not a prototype becomes a declaration |
| FlowchartGeneratorBoth.SectionAddsTitle | flowchart_generator_both.py:184-189 | a section adds its own title and no other |
| FlowchartGeneratorBoth.DeclarationSectionAddsTitles | flowchart_generator_both.py:200-212 | the declaration section adds exactly its two titles |
| FlowchartGeneratorBoth.Section | flowchart_generator_both.py:184-197 | a title, one box per item, and an empty line; `SectionAddsTitle` states the titles it adds |
| FlowchartGeneratorBoth.DeclarationSection | flowchart_generator_both.py:199-212 | the first declaration pink at depth 0, the rest gray at depth 1, under two titles |
| FlowchartGeneratorBoth.Sections | flowchart_generator_both.py:183-222 | each non-empty bucket as a section in fixed order, then the logic title |
| FlowchartGeneratorBoth.SectionsTitles | flowchart_generator_both.py:184-222 | which titles the sections hold, for any title |
| FlowchartGeneratorBoth.SectionTitles | flowchart_generator_both.py:184-222 | a title appears exactly when its bucket is non-empty, and "Function Logic Starts:" always ends the sections |
| FlowchartGeneratorBoth.EmitSection | flowchart_generator_both.py:184-189 | a section is drawn as `Section` states |
| FlowchartGeneratorBoth.EmitDeclarationSection | flowchart_generator_both.py:200-212 | draws `DeclarationSection`: both titles, the first declaration pink at depth 0, the rest gray at depth 1 |
| FlowchartGeneratorBoth.EmitSections | flowchart_generator_both.py:183-222 | the section output is `Sections` of the buckets |
| FlowchartGeneratorBoth.HeaderStep | flowchart_generator_both.py:230-241 | a header keeps `depth == 1 + len(brace_stack)` |
| FlowchartGeneratorBoth.LogicStep | flowchart_generator_both.py:228-260 | every branch keeps `depth == 1 + len(brace_stack)` |
| FlowchartGeneratorBoth.LogicRun | flowchart_generator_both.py:224-260 | the logic pass always has depth `1 + len(brace_stack) >= 1` |
| FlowchartGeneratorBoth.HeaderLineStep | flowchart_generator_both.py:230-241 | the header branch computes `HeaderStep` |
| FlowchartGeneratorBoth.LogicLine | flowchart_generator_both.py:228-260 | one iteration computes `LogicStep` |
| FlowchartGeneratorBoth.RunLogic | flowchart_generator_both.py:226-260 | the `while` loop computes `LogicRun` |
| FlowchartGeneratorBoth.GenerateFlowchartFromCCode | flowchart_generator_both.py:140-262 | the generator returns the joined sections and logic rows |
| FlowchartGeneratorBoth.HeaderThenBrace | flowchart_generator_both.py:230-251 | when no body is pending, header plus exact `{`: the header is boxed, the brace is consumed with no box, depth + 1 |
| FlowchartGeneratorBoth.HeaderImplicitBody | flowchart_generator_both.py:230-247 | otherwise the next non-header line is boxed at depth + 1 and the depth stays |
| FlowchartGeneratorBoth.PendingBodyStep | flowchart_generator_both.py:243-247 | with a body pending, any non-header line, braces included, is boxed at depth + 1 and clears the flag; depth and braces stay |
| FlowchartGeneratorBoth.StrayBracesIgnored | flowchart_generator_both.py:249-257 | when no body is pending, a lone `{` and a `}` on an empty stack change nothing |
| FlowchartGenerator.EscapeChar | flowchart_generator.py:16-18 | a special character becomes an entity `&...;`, any other stays |
| FlowchartGenerator.EscapeHtml | flowchart_generator.py:16-18 | escaping never shortens the text |
| FlowchartGenerator.EscapeHtmlMarkupFree | flowchart_generator.py:16-21 | the escaped text holds no `<`, `>`, `"` or `'` |
| FlowchartGenerator.EscapeHtmlPlain | flowchart_generator.py:16-18 | text without special characters is unchanged |
| FlowchartGenerator.UnescapeFront | flowchart_generator.py:16-18 | one escaped character reads back as itself |
| FlowchartGenerator.EscapeRoundTrip | flowchart_generator.py:16-18 | unescaping the escaped text gives the original |
| FlowchartGenerator.SpanLine | flowchart_generator.py:32-33 | every box entry ends with `</span><br>` |
| FlowchartGenerator.HtmlBoxLines | flowchart_generator.py:32-35 | three entries, first and last identical, all box entries |
| FlowchartGenerator.HtmlBoxEntries | flowchart_generator.py:21-35 | three entries, after `<br>` exactly when `current + len(escaped) + 6 > 100` |
| FlowchartGenerator.HtmlBox | flowchart_generator.py:20-36 | extends the list by those entries and returns the wrap-rule width |
| FlowchartGenerator.ClassifyLines | flowchart_generator.py:55-77 | the bucket loop computes `Classify` |
| FlowchartGenerator.ClassifyStep | flowchart_generator.py:55-77 | one iteration of the bucket loop, with the `//` comment and excluded-keyword rules |
| FlowchartGenerator.Classify | flowchart_generator.py:55-77 | the bucket loop over all lines; `ClassifyFilesEveryLine` states that it files each non-blank line once |
| FlowchartGenerator.ClassifyStepFilesLine | flowchart_generator.py:55-77 | each non-blank line is filed once |
| FlowchartGenerator.ClassifyFilesEveryLine | flowchart_generator.py:55-77 | the buckets hold exactly the non-blank lines |
| FlowchartGenerator.ClassifyStepVariantRules | flowchart_generator.py:68-74 | `//` lines go to comments; control lines are never declarations |
| FlowchartGenerator.BoxAllShape | flowchart_generator.py:82-83 | boxing a list adds 3 to 4 entries per item |
| FlowchartGenerator.BoxAllNext | flowchart_generator.py:82-83 | one more item appends its entries at the running width |
| FlowchartGenerator.HtmlBoxNext | flowchart_generator.py:83 | one `html_box` call of a section loop |
| FlowchartGenerator.HtmlBoxes | flowchart_generator.py:82-83 | a section's loop boxes every item, left to right |
| FlowchartGenerator.TitleIsNotBox | flowchart_generator.py:81 | a section header is neither a wrap nor a box entry |
| FlowchartGenerator.VariablesHeaderIsNotBox | flowchart_generator.py:97 | the variables header is neither a wrap nor a box entry |
| FlowchartGenerator.HeadersDistinct | flowchart_generator.py:81-110 | the six headers are pairwise different |
| FlowchartGenerator.SectionAddsHeader | flowchart_generator.py:80-84 | a section adds its own header and no other |
| FlowchartGenerator.DeclarationSectionAddsHeaders | flowchart_generator.py:94-100 | the declaration section adds exactly its two headers |
| FlowchartGenerator.InTwoHeaders | flowchart_generator.py:94-100 | membership in a section with two headers |
| FlowchartGenerator.OptionalSectionAddsHeader | flowchart_generator.py:80-107 | a section drawn only for a non-empty bucket adds its header exactly then |
| FlowchartGenerator.Section | flowchart_generator.py:80-91 | a header, one box per item, and `<br>`; `SectionAddsHeader` states the headers it adds |
| FlowchartGenerator.DeclarationSection | flowchart_generator.py:94-100 | the first declaration at depth 0, the rest at depth 1, under two headers |
| FlowchartGenerator.Sections | flowchart_generator.py:79-110 | each non-empty bucket as a section in fixed order, then the logic header |
| FlowchartGenerator.SectionsHeaders | flowchart_generator.py:80-110 | which headers the sections hold, for any header |
| FlowchartGenerator.ChainHeaders | flowchart_generator.py:80-110 | the four optional sections followed by the logic header |
| FlowchartGenerator.SectionHeaders | flowchart_generator.py:80-110 | headers appear only for non-empty buckets; "Function Logic Starts" always ends the sections |
| FlowchartGenerator.CommentsHeader | flowchart_generator.py:80-84 | the comments header appears exactly for comments |
| FlowchartGenerator.IncludesHeader | flowchart_generator.py:87-91 | the preprocessor header appears exactly for includes |
| FlowchartGenerator.VariablesHeader | flowchart_generator.py:94-100 | the variables header appears exactly for declarations |
| FlowchartGenerator.FunctionsHeader | flowchart_generator.py:103-107 | the functions header appears exactly for prototypes |
| FlowchartGenerator.EmitSection | flowchart_generator.py:80-84 | a section is drawn as `Section` states |
| FlowchartGenerator.EmitDeclarationSection | flowchart_generator.py:94-100 | `declarations[0]` is boxed at depth 0 and the rest at depth 1 |
| FlowchartGenerator.EmitSections | flowchart_generator.py:79-110 | the section output is `Sections` of the buckets |
| FlowchartGenerator.SwitchStep | flowchart_generator.py:116-121 | a `switch` keeps `depth == 1 + len(brace_stack)` |
| FlowchartGenerator.HeaderStep | flowchart_generator.py:128-139 | a header keeps the depth invariant |
| FlowchartGenerator.LogicStep | flowchart_generator.py:113-159 | every branch keeps `depth == 1 + len(brace_stack)` |
| FlowchartGenerator.BodyStep | flowchart_generator.py:141-158 | the pending body, brace and statement branches keep the invariant |
| FlowchartGenerator.LogicRun | flowchart_generator.py:111-159 | the logic pass always has depth `1 + len(brace_stack) >= 1` |
| FlowchartGenerator.PageFrame | flowchart_generator.py:161 | the page is the entries, concatenated inside `<pre style='font-family: monospace'>` ... `</pre>` |
| FlowchartGenerator.DrawBoxStep | flowchart_generator.py:158 | one `html_box` call of the logic pass |
| FlowchartGenerator.HeaderLine | flowchart_generator.py:128-139 | the header branch computes `LogicStep` |
| FlowchartGenerator.SwitchLine | flowchart_generator.py:116-121 | the `switch` branch computes `LogicStep` |
| FlowchartGenerator.CaseLine | flowchart_generator.py:123-126 | the `case`/`default` branch computes `LogicStep` |
| FlowchartGenerator.BodyLine | flowchart_generator.py:141-158 | the remaining branches compute `LogicStep` |
| FlowchartGenerator.LogicLine | flowchart_generator.py:113-159 | one iteration computes `LogicStep` |
| FlowchartGenerator.RunLogic | flowchart_generator.py:111-159 | the `while` loop computes `LogicRun` |
| FlowchartGenerator.GenerateFlowchartFromCCode | flowchart_generator.py:39-161 | the generator returns the page of the sections and logic entries |
| FlowchartGenerator.SwitchOpensLevel | flowchart_generator.py:116-121 | `switch` is boxed at the depth, then a marker is pushed and depth + 1 |
| FlowchartGenerator.CaseBoxedDeeper | flowchart_generator.py:123-126 | `case`/`default` is boxed at depth + 1, the depth unchanged |
| FlowchartGenerator.KeywordFirstChar | flowchart_generator.py:123 | a keyword match fixes the first character |
| FlowchartGenerator.HeaderThenBrace | flowchart_generator.py:128-149 | when no body is pending, header plus exact `{`: brace consumed with no box, depth + 1 |
| FlowchartGenerator.HeaderImplicitBody | flowchart_generator.py:128-145 | otherwise the next plain line is boxed at depth + 1, depth unchanged |
| FlowchartGenerator.PendingBodyStep | flowchart_generator.py:141-145 | with a body pending, a line that is not `switch`, `case`, `default` or a header, braces included, is boxed at depth + 1 and clears the flag; depth and braces stay |
| FlowchartGenerator.SwitchBodyKeepsFlag | flowchart_generator.py:116-145 | `switch` is checked before the pending body: the flag survives it |
| FlowchartGenerator.StrayBracesIgnored | flowchart_generator.py:147-155 | when no body is pending, a lone `{`, and `}` with nothing open, change nothing |
| FlowchartGenerator.PyBoxed | flowchart_generator.py:185 | one box at the current depth, the stack and the mode untouched |
| FlowchartGenerator.DocstringLine | flowchart_generator.py:184-188 | docstring mode leaves the stack and the depth alone, and ends exactly on a line holding a triple quote |
| FlowchartGenerator.DocstringOpen | flowchart_generator.py:190-193 | a leading triple quote toggles the mode, the stack and the depth untouched |
| FlowchartGenerator.Reindented | flowchart_generator.py:199-205 | pop and push keep the stack invariant with `depth == len(stack) - 1` |
| FlowchartGenerator.CodeLine | flowchart_generator.py:199-208 | a code line is boxed at its new depth, white past the table |
| FlowchartGenerator.PyLineStep | flowchart_generator.py:184-208 | every branch keeps the stack invariant |
| FlowchartGenerator.PyStep | flowchart_generator.py:176-208 | one iteration keeps the stack invariant |
| FlowchartGenerator.PyRun | flowchart_generator.py:167-210 | after any input, `depth == len(indent_stack) - 1 >= 0` |
| FlowchartGenerator.CodeLineStep | flowchart_generator.py:199-208 | the code branch computes `CodeLine` |
| FlowchartGenerator.CommentBoxStep | flowchart_generator.py:184-197 | the comment branches draw one comment-coloured box |
| FlowchartGenerator.PyProcessLine | flowchart_generator.py:176-208 | one iteration computes `PyStep` |
| FlowchartGenerator.RunPython | flowchart_generator.py:176-208 | the `for` loop computes `PyRun` |
| FlowchartGenerator.GenerateFlowchartFromPython | flowchart_generator.py:167-210 | the generator returns the page of `PyRun`'s entries |
| FlowchartGenerator.PyStepShape | flowchart_generator.py:176-208 | blank lines change nothing; other lines add 3 or 4 entries; `#` and docstring lines never change the stack |
| TkFlowchartGui.MaxLen | tkinter/tk_flowchart_gui.py:41 | the longest line: no line is longer, and one line is that long |
| TkFlowchartGui.ContentLines | tkinter/tk_flowchart_gui.py:49-50 | one content line per text line |
| TkFlowchartGui.ContentWidths | tkinter/tk_flowchart_gui.py:49-50 | each content line is `indent + 6 + max(width - 4, len(line))` columns wide |
| TkFlowchartGui.TkBoxLines | tkinter/tk_flowchart_gui.py:48-51 | `#lines + 2` lines |
| TkFlowchartGui.TkBoxShape | tkinter/tk_flowchart_gui.py:38-51 | both borders are the same line and every line of the box has the same visible width |
| TkFlowchartGui.TkBoxRows | tkinter/tk_flowchart_gui.py:39-51 | `#lines + 2` entries, plus `""` exactly on a wrap |
| TkFlowchartGui.AppendContent | tkinter/tk_flowchart_gui.py:49-50 | the content loop appends `ContentLines` |
| TkFlowchartGui.AppendBox | tkinter/tk_flowchart_gui.py:48-51 | appends the border, the content lines and the border |
| TkFlowchartGui.PrintBox | tkinter/tk_flowchart_gui.py:38-53 | appends `TkBoxRows` and returns the wrap-rule width (`process_code_line`, lines 109-124, is the same code) |
| TkFlowchartGui.SingleLineBox | tkinter/tk_flowchart_gui.py:38-53 | for a one-line text the box is the Python tool's box |
| TkFlowchartGui.JoinedBoxRows | tkinter/tk_flowchart_gui.py:40-51 | a box of joined lines has one content line per joined line |
| TkFlowchartGui.PyLineStep | tkinter/tk_flowchart_gui.py:79-104 | every branch keeps the stack invariant |
| TkFlowchartGui.PyStep | tkinter/tk_flowchart_gui.py:71-104 | one iteration keeps the stack invariant |
| TkFlowchartGui.PyRun | tkinter/tk_flowchart_gui.py:62-106 | after any input, `depth == len(indent_stack) - 1 >= 0` |
| TkFlowchartGui.StrippedHasNoNewline | tkinter/tk_flowchart_gui.py:72-76 | a line of the split stays newline-free once stripped |
| TkFlowchartGui.BoxStep | tkinter/tk_flowchart_gui.py:80 | one `print_box` call at the current depth |
| TkFlowchartGui.CodeLineStep | tkinter/tk_flowchart_gui.py:94-104 | the code branch computes the Python tool's `CodeLine` |
| TkFlowchartGui.PyProcessLine | tkinter/tk_flowchart_gui.py:71-104 | one iteration computes `PyStep` |
| TkFlowchartGui.RunPython | tkinter/tk_flowchart_gui.py:71-104 | the `for` loop computes `PyRun` |
| TkFlowchartGui.GenerateFlowchartFromPython | tkinter/tk_flowchart_gui.py:62-106 | the generator returns the joined lines of `PyRun` |
| TkFlowchartGui.PyStepKeepsStackOnComments | tkinter/tk_flowchart_gui.py:73-92 | blank lines change nothing; `#`, triple-quote and docstring lines never change the stack or the depth |
| TkFlowchartGui.CommentEnd | tkinter/tk_flowchart_gui.py:142-147 | the index of the first line from `k` that ends in `*/`, or the end |
| TkFlowchartGui.CommentEndAt | tkinter/tk_flowchart_gui.py:142-147 | the first closer is fixed by where it is |
| TkFlowchartGui.StrippedRange | tkinter/tk_flowchart_gui.py:142-144 | the stripped lines of a range |
| TkFlowchartGui.GroupNext | tkinter/tk_flowchart_gui.py:139-150 | a comment group always moves the index on |
| TkFlowchartGui.GroupBlock | tkinter/tk_flowchart_gui.py:139-148 | one stripped entry per line of the group, starting with the opener |
| TkFlowchartGui.HeaderStep | tkinter/tk_flowchart_gui.py:163-174 | a header keeps `depth == len(brace_stack)` |
| TkFlowchartGui.CLineStep | tkinter/tk_flowchart_gui.py:153-195 | every one-line branch keeps `depth == len(brace_stack)` |
| TkFlowchartGui.CStep | tkinter/tk_flowchart_gui.py:136-195 | each iteration moves the index forward and keeps the invariant |
| TkFlowchartGui.CValid | tkinter/tk_flowchart_gui.py:129-192 | the invariant of the C pass: the depth equals the number of open braces |
| TkFlowchartGui.CBox | tkinter/tk_flowchart_gui.py:109-124 | one `process_code_line` call: rows only appended, depth, braces and flag unchanged |
| TkFlowchartGui.OpensGroup | tkinter/tk_flowchart_gui.py:139 | a line opening a comment it does not close |
| TkFlowchartGui.CExec | tkinter/tk_flowchart_gui.py:134-196 | at the end, `depth == len(brace_stack) >= 0` |
| TkFlowchartGui.CollectGroup | tkinter/tk_flowchart_gui.py:139-150 | the inner loop gathers `GroupBlock` and stops at `GroupNext` |
| TkFlowchartGui.GroupStep | tkinter/tk_flowchart_gui.py:139-151 | the comment-group branch computes `CStep` |
| TkFlowchartGui.CBoxStep | tkinter/tk_flowchart_gui.py:194 | one `process_code_line` call of the C pass |
| TkFlowchartGui.LineStep | tkinter/tk_flowchart_gui.py:153-195 | the one-line branches compute `CLineStep` |
| TkFlowchartGui.RunC | tkinter/tk_flowchart_gui.py:134-196 | the outer `while` loop computes `CExec` |
| TkFlowchartGui.LoopBody | tkinter/tk_flowchart_gui.py:135-195 | one iteration of the outer loop computes `CStep` |
| TkFlowchartGui.GenerateFlowchartFromCCode | tkinter/tk_flowchart_gui.py:126-197 | the generator returns the joined lines of `CExec` |
| TkFlowchartGui.HeaderStartsWithLetter | tkinter/tk_flowchart_gui.py:163 | a header starts with a lower-case letter, so it is never a comment or a brace line |
| TkFlowchartGui.HeaderThenBracePushesTwice | tkinter/tk_flowchart_gui.py:163-186 | when no body is pending, header plus exact `{` pushes twice, depth + 2, only the header boxed |
| TkFlowchartGui.HeaderSetsPending | tkinter/tk_flowchart_gui.py:163-174 | a header not followed by `{` is boxed and leaves a body pending |
| TkFlowchartGui.PendingBodyStep | tkinter/tk_flowchart_gui.py:176-180 | the pending body is boxed at depth + 1, depth unchanged, flag cleared |
| TkFlowchartGui.StrayCloseIgnored | tkinter/tk_flowchart_gui.py:187-192 | when no body is pending, `}` on an empty stack has no effect |
| TkFlowchartGui.GroupIsOneBox | tkinter/tk_flowchart_gui.py:139-151 | a `/*` group is one gray box of its lines through the first `*/`, one content line each |
| TkFlowchartGui.OneLineCommentBoxed | tkinter/tk_flowchart_gui.py:154-157 | a one-line `/* ... */` gets a gray box of its own |
| TkFlowchartGui.DetectLanguage | tkinter/tk_flowchart_gui.py:229-234 | `.py` gives Python, `.c` gives C, anything else gives none, each exactly |
| Flowchart.ArrowColor | flowchart.py:17-18 | a table colour for the six table depths, and the reset code exactly for the others |
| Flowchart.ArrowColorLevels | flowchart.py:7-18 | the six table depths have six different colours; every other depth has none |
| Flowchart.PlainLine | flowchart.py:34 | an uncoloured line is as wide as its text |
| Flowchart.BoxRows | flowchart.py:25-42 | five entries, after `""` exactly when `current + len + 12 > 100` |
| Flowchart.BoxEntries | flowchart.py:33-42 | `process_code_line` appends five lines, the first and third the same border |
| Flowchart.BoxEntriesShape | flowchart.py:34-42 | equal borders `shift + len + 14` wide; the content line ends with `Line N`; the arrow is painted in the depth's colour and ends with the depth |
| Flowchart.AppendEntries | flowchart.py:34-42 | the five appends |
| Flowchart.ProcessCodeLine | flowchart.py:20-46 | appends `BoxRows` and returns the wrap-rule width |
| Flowchart.Boxed | flowchart.py:131 | one `process_code_line` call at the current depth and line number |
| Flowchart.LineStep | flowchart.py:68-133 | each line raises `line_number + unmatched` by one: an unmatched `}` is counted as an error instead of a line |
| Flowchart.Step | flowchart.py:64-70 | one iteration, blank lines included, raises `line_number + unmatched` by one |
| Flowchart.Run | flowchart.py:61-133 | after `n` lines, `line_number + unmatched == n + 1` |
| Flowchart.BoxStep | flowchart.py:131 | one `process_code_line` call of the loop |
| Flowchart.IsHeaderPrefix | flowchart.py:91 | the five `startswith` tests, with no word boundary |
| Flowchart.HeaderPrefixFirstChar | flowchart.py:91 | a header starts with `w`, `f`, `i` or `e` |
| Flowchart.NotHeaderPrefix | flowchart.py:91 | conversely, a line starting with any other character is not a header |
| Flowchart.HeaderStep | flowchart.py:91-103 | a header marks the next line, goes one level deeper unless it ends in `;`, keeps braces, errors and the comment flag, and only appends |
| Flowchart.CommentStep | flowchart.py:79-88 | inside a comment, a line ending in `*/` closes the block; any other line is added to it and nothing is drawn |
| Flowchart.HeaderLine | flowchart.py:91-103 | the header branch computes `HeaderStep` |
| Flowchart.ProcessLine | flowchart.py:64-133 | one iteration computes `Step` |
| Flowchart.GenerateFlowchartFromCCode | flowchart.py:48-135 | the generator returns the joined lines of `Run` |
| Flowchart.OpenBrace | flowchart.py:106-110 | `{` pushes a marker and goes one level deeper |
| Flowchart.CloseBrace | flowchart.py:113-121 | with a brace open, `}` pops it and lowers the depth, clamped at 0 |
| Flowchart.UnmatchedCloseBrace | flowchart.py:113-118 | with nothing to close, only the error count changes; not even the line number advances |
| Flowchart.HeaderShape | flowchart.py:91-103 | a header is boxed and marks the next line; without `;` it goes deeper and adds two arrows |
| Flowchart.HeaderPrefixNoBoundary | flowchart.py:91 | the header test has no word boundary: `format(x);` and `iffy = 1;` are headers |
| Flowchart.MarkedStatement | flowchart.py:124-129 | the statement after a header is boxed, then depth - 1 with no clamp |
| Flowchart.DepthCanGoNegative | flowchart.py:91-129 | depth -1 after `if (x);` and one statement |
| Flowchart.OneLineCommentSwallowsNext | flowchart.py:73-88 | a one-line `/* */` still opens a block and swallows the next line |
| Flowchart.CommentBlockBoxed | flowchart.py:80-88 | a comment block is boxed once, at its closer, holding all its lines |
| FlowchartGeneratorC.IsFunctionDeclaration | flowchart_generator.c:50-52 | `is_function_declaration`: the three substring tests |
| FlowchartGeneratorC.FunctionDeclarationChars | flowchart_generator.c:50-52 | the test holds exactly when `(`, `)` and `{` all occur, in any order |
| FlowchartGeneratorC.IsPreprocessor | flowchart_generator.c:54-56 | `is_preprocessor`: the first character is `#` |
| FlowchartGeneratorC.IsComment | flowchart_generator.c:58-60 | `is_comment`: the three substring tests |
| FlowchartGeneratorC.ContainsFirstChar | flowchart_generator.c:59 | a text holding a pattern holds its first character |
| FlowchartGeneratorC.IsCommentIffStar | flowchart_generator.c:58-60 | `is_comment` holds exactly when the line contains `*` |
| FlowchartGeneratorC.IsVariableDeclaration | flowchart_generator.c:62-70 | `is_variable_declaration`: one of the seven type names with its space, and a `;`, anywhere |
| FlowchartGeneratorC.VariableDeclarationScan | flowchart_generator.c:62-70 | the scan returns 1 exactly when one of the seven type names and a `;` occur |
| FlowchartGeneratorC.IsControlStatement | flowchart_generator.c:72-76 | `is_control_statement`: one of four keywords anywhere, and no `{` |
| FlowchartGeneratorC.ControlKeywordFound | flowchart_generator.c:72-76 | any occurrence of a keyword in a line without `{` makes a control statement |
| FlowchartGeneratorC.ControlKeywordAnywhere | flowchart_generator.c:72-76 | keywords are substrings anywhere: `notify();` is a control statement |
| FlowchartGeneratorC.BoxColor | flowchart_generator.c:12-27 | the override if given, else an entry of the twelve-colour table |
| FlowchartGeneratorC.BoxColorCycle | flowchart_generator.c:27 | without an override the colour repeats every twelve levels |
| FlowchartGeneratorC.BoxLines | flowchart_generator.c:29-47 | three lines |
| FlowchartGeneratorC.BoxLinesWidth | flowchart_generator.c:29-47 | every line is `depth + len + 4` wide |
| FlowchartGeneratorC.EmptyContentCase | flowchart_generator.c:37-42 | the empty-content branch draws what the general one would |
| FlowchartGeneratorC.RepeatLoop | flowchart_generator.c:34 | the `fprintf` loop writes `n` copies of the character |
| FlowchartGeneratorC.PrintBox | flowchart_generator.c:9-48 | writes the three lines of `BoxLines` |
| FlowchartGeneratorC.TrimEnd | flowchart_generator.c:96-97 | the end loop never removes the first character |
| FlowchartGeneratorC.TrimEndPrefix | flowchart_generator.c:96-97 | it keeps a prefix and drops only line ends |
| FlowchartGeneratorC.Trim | flowchart_generator.c:94-97 | the two trimming loops: leading blanks and tabs, then line ends but never the first character |
| FlowchartGeneratorC.TrimSlice | flowchart_generator.c:94-97 | the trimmed line is a slice of the raw line that drops only leading blanks and tabs and trailing line ends, and starts with neither |
| FlowchartGeneratorC.BlankLineKeepsNewline | flowchart_generator.c:96-97 | a blank line keeps its newline |
| FlowchartGeneratorC.TrimLine | flowchart_generator.c:94-97 | the two trimming loops compute `Trim` |
| FlowchartGeneratorC.Box | flowchart_generator.c:100 | one `print_box` call |
| FlowchartGeneratorC.Grouping | flowchart_generator.c:109-121 | the comment flush and the function test keep the invariant and the depth |
| FlowchartGeneratorC.Body | flowchart_generator.c:123-166 | the depth moves by at most one and never goes below 0 |
| FlowchartGeneratorC.Step | flowchart_generator.c:99-166 | one iteration keeps the invariant; the depth moves by +1, 0, or a clamped -1 |
| FlowchartGeneratorC.Run | flowchart_generator.c:86-167 | the depth is never negative |
| FlowchartGeneratorC.BoxStep | flowchart_generator.c:100 | one `print_box` call of the loop |
| FlowchartGeneratorC.GroupingStep | flowchart_generator.c:109-121 | the grouping statements compute `Grouping` |
| FlowchartGeneratorC.BodyStep | flowchart_generator.c:123-166 | the depth statements compute `Body` |
| FlowchartGeneratorC.ProcessLine | flowchart_generator.c:93-167 | one iteration computes `Step` on the trimmed line |
| FlowchartGeneratorC.ProcessCode | flowchart_generator.c:78-170 | the output is `ProcessCodeOutput` of the lines |
| FlowchartGeneratorC.DepthNeverNegative | flowchart_generator.c:130-163 | depth >= 0, changing only by +1 or a decrement clamped at 0 |
| FlowchartGeneratorC.GroupingDoneStays | flowchart_generator.c:99-121 | `headed_comments_done` is never reset |
| FlowchartGeneratorC.BeforeGrouping | flowchart_generator.c:99-108 | before the grouping, `#` lines are boxed at depth 0 and comments only gathered |
| FlowchartGeneratorC.FlushSkipsFunctionStart | flowchart_generator.c:109-121 | the flushing line never starts a function |
| FlowchartGeneratorC.FunctionHeaderStarts | flowchart_generator.c:115-121 | without headed comments, the first function header starts the function |
| FlowchartGeneratorC.PendingControl | flowchart_generator.c:137-149 | a pending control is resolved by the next line: with `{` depth + 1, else boxed at depth + 1; the flag is cleared |
| FlowchartGeneratorC.OpeningBoxedBeforeIncrement | flowchart_generator.c:152-156 | a `{` line is boxed at the old depth, then depth + 1 |
| FlowchartGeneratorC.ClosingBoxedAfterDecrement | flowchart_generator.c:159-163 | a `}` line lowers the depth first, clamped, and is boxed at the new depth |

## Left out

- `main`, `sys.argv`, file reading, `print`, `sys.exit`, `fopen`, `fgets`, `fprintf` and `perror`. The input is the text (or, for the C program, the list of lines `fgets` returns). The output is the returned string or the list of written lines.
- The `Error: Unmatched closing brace found.` message of `flowchart.py` is counted as the `unmatched` field rather than printed.
- The Tk widgets and event loop of `tkinter/tk_flowchart_gui.py` (`setup_tags`, `insert_ansi_text`, `open_file`, the zoom handlers and the window set-up), and the `ANSI_COLORS` map only they use. They are widget calls.
- flowchart_server.py is not part of this model: it is HTTP request handling around the generators.
- The Python regular expressions are hand-written predicates for the patterns used, over ASCII character classes. No general regex engine is modelled.
- Text.SplitLines: a split on `'\n'` that drops a final empty piece. Python's `splitlines` also splits at `\r`, `\r\n`, `\v`, `\f`, `\x1c`-`\x1e`, `\x85`, U+2028 and U+2029; those are not modelled.
- Text.Strip: ASCII whitespace only. Python's `strip` also removes Unicode whitespace such as U+00A0, U+2028 and U+3000.
- Text.LStrip: ASCII whitespace only, as for `Text.Strip`.
- Text.RStrip: ASCII whitespace only, as for `Text.Strip`.
- `html.escape` is written out as its five-character entity replacement.
- Terminal colour escapes are opaque tokens of zero width. Unicode box-drawing characters and the C program's indenting tabs count as one column each, and the C `strlen` is taken as the character count (equal for ASCII content).
- The C program's fixed buffers are unbounded sequences, so overflow is not modelled: `fgets` splitting lines longer than 255 bytes, `indent[128]` at 128 levels or more, and `headed_comment_block[2560]`.
- FlowchartGeneratorC.PrintBox: its depth is a natural number. The C `int depth` could in principle be negative, but `process_code` only passes depths proved non-negative.
- FlowchartGeneratorC.BoxColorCycle: states the twelve-level period only, not that the twelve colours are different.
- Assigned and never read: `last_indent` and the `enumerate` index of the Python passes, `line_number` and `include_line_number` in the C pass of `flowchart_generator_both.py`, and `text_color` in `html_box`. They are left out.
