/**
 * What every generator shares: output lines made of visible text and
 * terminal colour escapes, the 100-column wrap rule, and the `flowchart`
 * list that the box emitters append to in place.
 */
module Layout {
  import opened Text

  /**
   * One piece of an output line: visible text, or a terminal colour escape
   * `ESC [ n m` kept as its Select Graphic Rendition number `n`. An escape
   * takes no columns on the terminal.
   */
  datatype Piece = Txt(s: string) | Esc(sgr: nat)

  type Line = seq<Piece>

  /** `'\033[0m'`. */
  const RESET: nat := 0

  /** The number of columns a line takes: the length of its text pieces. */
  function Width(l: Line): nat
    decreases |l|
  {
    if l == [] then 0 else PieceWidth(l[0]) + Width(l[1..])
  }

  function PieceWidth(p: Piece): nat {
    if p.Txt? then |p.s| else 0
  }

  lemma {:induction false} WidthAppend(a: Line, b: Line)
    ensures Width(a + b) == Width(a) + Width(b)
    decreases |a|
  {
    if a != [] {
      assert (a + b)[0] == a[0] && (a + b)[1..] == a[1..] + b;
      WidthAppend(a[1..], b);
      assert Width(a + b) == PieceWidth(a[0]) + Width(a[1..] + b);
    } else {
      assert a + b == b;
    }
  }

  /** `f"{indent}{color}{body}{RESET}"`: a line drawn in one colour. */
  function Painted(indent: string, color: nat, body: string): (l: Line)
    ensures Width(l) == |indent| + |body|
  {
    var l := [Txt(indent), Esc(color), Txt(body), Esc(RESET)];
    assert Width(l[3..]) == 0 by {
      assert l[3..][1..] == [];
    }
    assert Width(l[2..]) == |body| by {
      assert l[2..][1..] == l[3..];
    }
    assert Width(l[1..]) == |body| by {
      assert l[1..][1..] == l[2..];
    }
    l
  }

  /** `"\n".join(lines)`. */
  function JoinLines(lines: seq<Line>): Line
    decreases |lines|
  {
    if lines == [] then []
    else if |lines| == 1 then lines[0]
    else lines[0] + [Txt("\n")] + JoinLines(lines[1..])
  }

  /** `MAX_LINE_WIDTH`, the same in every generator. */
  const MAX_LINE_WIDTH: int := 100

  function Max(a: int, b: int): int {
    if a >= b then a else b
  }

  /** The wrap test: the box would take the row past the budget. */
  predicate Wraps(current: int, box: int) {
    current + box > MAX_LINE_WIDTH
  }

  /**
   * The running width after placing a box of width `box` on a row already
   * `current` wide: a box that does not fit starts a new row of its own.
   */
  function Advance(current: int, box: int): (w: int)
    ensures w <= Max(MAX_LINE_WIDTH, box)
  {
    (if Wraps(current, box) then 0 else current) + box
  }

  /** The list a generator builds; the box emitters append to it in place. */
  class Canvas<T> {
    var lines: seq<T>

    constructor ()
      ensures lines == []
    {
      lines := [];
    }

    /** `flowchart.append(line)`. */
    method Append(line: T)
      modifies this
      ensures lines == old(lines) + [line]
    {
      lines := lines + [line];
    }

    /** `flowchart.extend(more)`. */
    method Extend(more: seq<T>)
      modifies this
      ensures lines == old(lines) + more
    {
      lines := lines + more;
    }
  }

  /* The wrap law over a whole pass: the rows the rule forms. */

  function Sum(ws: seq<int>): int
    decreases |ws|
  {
    if ws == [] then 0 else Sum(ws[..|ws| - 1]) + ws[|ws| - 1]
  }

  /** The running width after boxes of widths `ws`, starting from an empty row. */
  function RunningWidth(ws: seq<int>): int
    decreases |ws|
  {
    if ws == [] then 0 else Advance(RunningWidth(ws[..|ws| - 1]), ws[|ws| - 1])
  }

  /** The rows formed: a box starts a new row exactly when the wrap test fires. */
  function Rows(ws: seq<int>): (rows: seq<seq<int>>)
    ensures |rows| >= 1
    decreases |ws|
  {
    if ws == [] then [[]]
    else
      var rs := Rows(ws[..|ws| - 1]);
      var w := ws[|ws| - 1];
      if Wraps(RunningWidth(ws[..|ws| - 1]), w) then rs + [[w]]
      else rs[..|rs| - 1] + [rs[|rs| - 1] + [w]]
  }

  function Flatten(rows: seq<seq<int>>): seq<int>
    decreases |rows|
  {
    if rows == [] then [] else Flatten(rows[..|rows| - 1]) + rows[|rows| - 1]
  }

  /** The rows hold the boxes in order. */
  lemma {:induction false} RowsFlatten(ws: seq<int>)
    ensures Flatten(Rows(ws)) == ws
    decreases |ws|
  {
    if ws != [] {
      var front := ws[..|ws| - 1];
      var w := ws[|ws| - 1];
      var rs := Rows(front);
      RowsFlatten(front);
      var last := rs[|rs| - 1];
      assert ws == front + [w];
      if Wraps(RunningWidth(front), w) {
        assert (rs + [[w]])[..|rs|] == rs;
      } else {
        var rows := rs[..|rs| - 1] + [last + [w]];
        assert rows[..|rows| - 1] == rs[..|rs| - 1];
        assert Flatten(rs) == Flatten(rs[..|rs| - 1]) + last;
      }
    }
  }

  /** The running width is the width of the last row. */
  lemma {:induction false} RowsLastWidth(ws: seq<int>)
    ensures RunningWidth(ws) == Sum(Rows(ws)[|Rows(ws)| - 1])
    decreases |ws|
  {
    if ws != [] {
      var front := ws[..|ws| - 1];
      var w := ws[|ws| - 1];
      var rs := Rows(front);
      RowsLastWidth(front);
      var last := rs[|rs| - 1];
      if Wraps(RunningWidth(front), w) {
        assert [w][..0] == [];
      } else {
        assert (last + [w])[..|last|] == last;
      }
    }
  }

  /**
   * The wrap law: no row is wider than the budget unless it holds a single
   * box, which is then placed on its own row unsplit.
   */
  lemma {:induction false} RowsWrapLaw(ws: seq<int>)
    ensures forall k :: 0 <= k < |Rows(ws)| ==>
              Sum(Rows(ws)[k]) <= MAX_LINE_WIDTH || |Rows(ws)[k]| == 1
    decreases |ws|
  {
    if ws != [] {
      var front := ws[..|ws| - 1];
      var w := ws[|ws| - 1];
      var rs := Rows(front);
      RowsWrapLaw(front);
      RowsLastWidth(front);
      var last := rs[|rs| - 1];
      if Wraps(RunningWidth(front), w) {
        assert [w][..0] == [];
        assert Sum([w]) == w;
      } else {
        var rows := rs[..|rs| - 1] + [last + [w]];
        assert (last + [w])[..|last|] == last;
        assert Sum(last + [w]) == Sum(last) + w;
        forall k | 0 <= k < |rows|
          ensures Sum(rows[k]) <= MAX_LINE_WIDTH || |rows[k]| == 1
        {
          if k < |rows| - 1 {
            assert rows[k] == rs[k];
          }
        }
      }
    }
  }
}
