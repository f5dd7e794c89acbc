/**
 * The indentation stack every Python pass keeps: `indent_stack` starts as
 * `[0]`; a line pops every level deeper than its own indentation and pushes
 * its indentation when that is deeper than the level left on top.
 */
module Indentation {
  import opened Text

  /**
   * `get_indent_level`: `len(line) - len(line.lstrip(' '))`, the number of
   * leading spaces. A tab is not a space here.
   */
  function IndentLevel(line: string): (n: nat)
    ensures n <= |line|
    ensures forall i :: 0 <= i < n ==> line[i] == ' '
    ensures n == |line| || line[n] != ' '
  {
    |line| - |LStripChar(line, ' ')|
  }

  /** The stack invariant: it starts at column 0 and strictly increases. */
  predicate Increasing(stack: seq<int>) {
    |stack| > 0 && stack[0] == 0 &&
    forall i, j :: 0 <= i < j < |stack| ==> stack[i] < stack[j]
  }

  /** `indent_stack[-1]`. */
  function Top(stack: seq<int>): int
    requires |stack| > 0
  {
    stack[|stack| - 1]
  }

  /**
   * `while indent < indent_stack[-1]: indent_stack.pop()`. What is left is a
   * prefix of the stack whose top is at most `indent`; every level removed
   * was deeper than `indent`. The bottom 0 is never removed.
   */
  function PopWhileLess(stack: seq<int>, indent: int): (r: seq<int>)
    requires Increasing(stack) && indent >= 0
    ensures Increasing(r)
    ensures |r| <= |stack| && r == stack[..|r|]
    ensures Top(r) <= indent
    ensures forall k :: |r| <= k < |stack| ==> indent < stack[k]
    decreases |stack|
  {
    if indent < Top(stack) then PopWhileLess(stack[..|stack| - 1], indent) else stack
  }

  /**
   * The pop-then-push of a code line: the stack keeps the old levels that are
   * shallower than the line and then the line's own level, so its top is
   * always the line's indentation.
   */
  function Reindent(stack: seq<int>, indent: int): (r: seq<int>)
    requires Increasing(stack) && indent >= 0
    ensures Increasing(r)
    ensures Top(r) == indent
    ensures |r| - 1 <= |stack| && r[..|r| - 1] == stack[..|r| - 1]
    ensures forall k :: 0 <= k < |r| - 1 ==> stack[k] < indent
    ensures forall k :: |r| - 1 <= k < |stack| ==> indent <= stack[k]
  {
    var p := PopWhileLess(stack, indent);
    if indent > Top(p) then p + [indent] else p
  }

  /**
   * The pop loop as the generators run it, with `depth` going down by one per
   * level removed.
   */
  method Dedent(stack: seq<int>, depth: int, indent: int) returns (s: seq<int>, d: int)
    requires Increasing(stack) && indent >= 0
    ensures s == PopWhileLess(stack, indent)
    ensures d == depth - (|stack| - |s|)
  {
    s, d := stack, depth;
    while indent < s[|s| - 1]
      invariant Increasing(s) && |s| <= |stack|
      invariant PopWhileLess(s, indent) == PopWhileLess(stack, indent)
      invariant d == depth - (|stack| - |s|)
      decreases |s|
    {
      s := s[..|s| - 1];
      d := d - 1;
    }
  }
}
