/**
 * The regular expressions the two Python C-classifiers use, written out as
 * predicates over one stripped line. `re.match` anchors a pattern at the
 * start of the line only. Each pattern is given as a greedy scan, which is
 * what the generators use; for the declaration pattern an independent
 * definition by explicit split points is given as well, with the proof that
 * the two agree.
 */
module CPatterns {
  import opened Text

  /** The length of the longest prefix of `s` whose characters all satisfy `p`. */
  function RunOf(s: string, p: char -> bool): (n: nat)
    ensures n <= |s|
    ensures forall i :: 0 <= i < n ==> p(s[i])
    ensures n == |s| || !p(s[n])
    decreases |s|
  {
    if s != [] && p(s[0]) then 1 + RunOf(s[1..], p) else 0
  }

  /** A run is determined by where it stops: a prefix of `p`s followed by a non-`p`. */
  lemma {:induction false} RunOfStops(s: string, p: char -> bool, k: nat)
    requires k <= |s|
    requires forall i :: 0 <= i < k ==> p(s[i])
    requires k == |s| || !p(s[k])
    ensures RunOf(s, p) == k
    decreases k
  {
    if k > 0 {
      RunOfStops(s[1..], p, k - 1);
    }
  }

  predicate IsStar(c: char) {
    c == '*'
  }

  /** `\s*;`: optional whitespace, then a semicolon. */
  predicate SpacesThenSemicolon(s: string) {
    StartsWith(LStrip(s), ";")
  }

  /**
   * `.*\)\s*;`: some closing parenthesis, reached without crossing a newline,
   * followed by optional whitespace and a semicolon.
   */
  predicate CloseParenThenSemicolon(s: string)
    decreases |s|
  {
    s != [] &&
    ((s[0] == ')' && SpacesThenSemicolon(s[1..])) || (s[0] != '\n' && CloseParenThenSemicolon(s[1..])))
  }

  /**
   * `re.match(r"\w+\s+\w+\s*\(.*\)\s*;", s)`, a prototype such as
   * `int f(void);`. A word is followed by whitespace, so the first word run
   * and the whitespace run are taken whole; likewise the second word, which
   * is followed by whitespace or `(`.
   */
  predicate IsPrototype(s: string) {
    var a := RunOf(s, IsWordChar);
    var b := RunOf(s[a..], IsSpace);
    var c := RunOf(s[a + b..], IsWordChar);
    var rest := LStrip(s[a + b + c..]);
    a > 0 && b > 0 && c > 0 && rest != [] && rest[0] == '(' && CloseParenThenSemicolon(rest[1..])
  }

  /** `re.match(r".*=\s*malloc.*", s)`: an `=` followed, after optional whitespace, by `malloc`. */
  predicate IsMallocAssignment(s: string)
    decreases |s|
  {
    s != [] &&
    ((s[0] == '=' && StartsWith(LStrip(s[1..]), "malloc")) || (s[0] != '\n' && IsMallocAssignment(s[1..])))
  }

  /** The match of `IsMallocAssignment` at `=` position `k`: no newline before it, then `\s*malloc`. */
  predicate MallocAt(s: string, k: nat)
    requires k < |s|
  {
    s[k] == '=' && '\n' !in s[..k] && StartsWith(LStrip(s[k + 1..]), "malloc")
  }

  /** The scan accepts exactly the lines with some `=` position where the pattern matches. */
  lemma {:induction false} MallocAssignmentAt(s: string)
    ensures IsMallocAssignment(s) <==> exists k: nat :: k < |s| && MallocAt(s, k)
    decreases |s|
  {
    if s != [] {
      MallocAssignmentAt(s[1..]);
      assert s[..0] == [];
      forall k: nat | k + 1 < |s|
        ensures MallocAt(s, k + 1) <==> s[0] != '\n' && MallocAt(s[1..], k)
      {
        assert s[..k + 1] == [s[0]] + s[1..][..k];
        assert s[1..][k + 1..] == s[k + 2..];
      }
      if IsMallocAssignment(s) && !MallocAt(s, 0) {
        var k: nat :| k < |s| - 1 && MallocAt(s[1..], k);
        assert MallocAt(s, k + 1);
      }
      if k: nat :| k < |s| && MallocAt(s, k) {
        if k > 0 {
          assert MallocAt(s[1..], k - 1);
        }
      }
    }
  }

  /* The declaration pattern `(\w+\s+\**\w+\s*=.*|\w+\s+\**\w+)`. */

  /** Every character of `s[i..j]` satisfies `p`. */
  predicate AllIn(s: string, p: char -> bool, i: nat, j: nat)
    requires i <= j <= |s|
  {
    forall k :: i <= k < j ==> p(s[k])
  }

  /**
   * `\w+\s+\**\w+` matching `s[..d]`, split at explicit points: a word
   * `s[..a]`, whitespace `s[a..b]`, stars `s[b..c]`, a word `s[c..d]`.
   */
  predicate DeclHeadAt(s: string, a: nat, b: nat, c: nat, d: nat) {
    0 < a < b <= c < d <= |s| &&
    AllIn(s, IsWordChar, 0, a) && AllIn(s, IsSpace, a, b) && AllIn(s, IsStar, b, c) && AllIn(s, IsWordChar, c, d)
  }

  /** The first alternative with its split points: the head, whitespace `s[d..e]`, then `=`. */
  predicate DeclAssignAt(s: string, a: nat, b: nat, c: nat, d: nat, e: nat) {
    DeclHeadAt(s, a, b, c, d) && d <= e < |s| && AllIn(s, IsSpace, d, e) && s[e] == '='
  }

  /** The first alternative, `\w+\s+\**\w+\s*=.*`. */
  ghost predicate DeclAssignment(s: string) {
    exists a: nat, b: nat, c: nat, d: nat, e: nat :: DeclAssignAt(s, a, b, c, d, e)
  }

  /** The second alternative, `\w+\s+\**\w+`. */
  ghost predicate DeclHead(s: string) {
    exists a: nat, b: nat, c: nat, d: nat :: DeclHeadAt(s, a, b, c, d)
  }

  /** The whole declaration pattern, by its definition. */
  ghost predicate DeclarationPattern(s: string) {
    DeclAssignment(s) || DeclHead(s)
  }

  /**
   * The greedy scan the generators use: a word run, a non-empty whitespace
   * run, the stars, then one more word character.
   */
  predicate IsDeclaration(s: string) {
    var a := RunOf(s, IsWordChar);
    a > 0 && SpacesThenStarredWord(s[a..])
  }

  /** The rest of the scan after the first word: a non-empty whitespace run, then the stars and a word character. */
  predicate SpacesThenStarredWord(t: string) {
    var b := RunOf(t, IsSpace);
    b > 0 && StarsThenWord(t[b..])
  }

  /** The stars, then one word character. */
  predicate StarsThenWord(u: string) {
    var c := RunOf(u, IsStar);
    c < |u| && IsWordChar(u[c])
  }

  /** The `=` alternative adds nothing: every line it matches the second one matches too. */
  lemma DeclAssignmentSubsumed(s: string)
    ensures DeclarationPattern(s) <==> DeclHead(s)
  {
    if DeclAssignment(s) {
      var a: nat, b: nat, c: nat, d: nat, e: nat :| DeclAssignAt(s, a, b, c, d, e);
      assert DeclHeadAt(s, a, b, c, d);
    }
  }

  /** A run of `s[i..]` counted in the coordinates of `s`. */
  lemma RunAt(s: string, p: char -> bool, i: nat, j: nat)
    requires i <= j <= |s|
    requires AllIn(s, p, i, j) && (j == |s| || !p(s[j]))
    ensures RunOf(s[i..], p) == j - i
  {
    assert forall k :: 0 <= k < j - i ==> s[i..][k] == s[i + k];
    RunOfStops(s[i..], p, j - i);
  }

  /** The greedy scan finds the split points of every match. */
  lemma DeclHeadIsDeclaration(s: string, a: nat, b: nat, c: nat, d: nat)
    requires DeclHeadAt(s, a, b, c, d)
    ensures IsDeclaration(s)
  {
    RunAt(s, IsWordChar, 0, a);
    assert s[0..] == s;
    RunAt(s, IsSpace, a, b);
    RunAt(s, IsStar, b, c);
    assert s[a..][b - a..] == s[b..];
    assert s[b..][c - b] == s[c];
  }

  /** The greedy scan decides the declaration pattern exactly. */
  lemma IsDeclarationCorrect(s: string)
    ensures IsDeclaration(s) <==> DeclarationPattern(s)
  {
    DeclAssignmentSubsumed(s);
    if IsDeclaration(s) {
      var a := RunOf(s, IsWordChar);
      var b := RunOf(s[a..], IsSpace);
      var c := RunOf(s[a + b..], IsStar);
      assert forall k :: a <= k < a + b ==> s[k] == s[a..][k - a];
      assert forall k :: a + b <= k < a + b + c ==> s[k] == s[a + b..][k - a - b];
      assert DeclHeadAt(s, a, a + b, a + b + c, a + b + c + 1);
    }
    if DeclHead(s) {
      var a: nat, b: nat, c: nat, d: nat :| DeclHeadAt(s, a, b, c, d);
      DeclHeadIsDeclaration(s, a, b, c, d);
    }
  }

  /** A prototype line also matches the declaration pattern: its second word follows the whitespace directly. */
  lemma PrototypeIsDeclaration(s: string)
    ensures IsPrototype(s) ==> IsDeclaration(s)
  {
    if IsPrototype(s) {
      var a := RunOf(s, IsWordChar);
      var b := RunOf(s[a..], IsSpace);
      assert s[a + b..][0] == s[a + b];
      assert RunOf(s[a + b..], IsStar) == 0;
    }
  }

  /* Keyword tests anchored at the start of the line. */

  /** `^(if|for|while|else if|else)\b`, the C control headers. */
  const HEADER_KEYWORDS: seq<string> := ["if", "for", "while", "else if", "else"]

  predicate IsHeader(line: string) {
    exists kw :: kw in HEADER_KEYWORDS && KeywordAt(line, kw)
  }

  /** `else\s+if\b`. */
  predicate ElseIfAt(line: string) {
    StartsWith(line, "else") &&
    var n := RunOf(line[4..], IsSpace);
    n > 0 && KeywordAt(line[4 + n..], "if")
  }

  /** `^(if|for|while|else|else\s+if|switch)\b`: the lines never taken as declarations. */
  predicate IsControlLine(line: string) {
    KeywordAt(line, "if") || KeywordAt(line, "for") || KeywordAt(line, "while") ||
    KeywordAt(line, "else") || ElseIfAt(line) || KeywordAt(line, "switch")
  }

  /** The `else\s+if` alternative is reached only when `else\b` already matched. */
  lemma ElseIfSubsumed(line: string)
    ensures ElseIfAt(line) ==> KeywordAt(line, "else")
  {
    if ElseIfAt(line) {
      assert line[4] == line[4..][0];
    }
  }

  /** Every header line is a control line. */
  lemma HeaderIsControlLine(line: string)
    ensures IsHeader(line) ==> IsControlLine(line)
  {
    if IsHeader(line) && KeywordAt(line, "else if") {
      assert line[..4] == "else";
      assert !IsWordChar(line[4]) by {
        assert line[..7][4] == ' ';
      }
    }
  }
}
