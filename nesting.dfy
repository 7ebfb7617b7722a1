/**
 * Where the root-shape theorem `Grouping.RootShape` stops: braces that
 * enclose an environment. A `&` inside a brace closes the cell at the
 * nearest BEGIN_CELL, BEGIN_LINE or BEGIN_ENV marker, consuming the brace's
 * BEGIN_BLOCK marker on the way; the matching `}` then closes an outer
 * brace instead, taking the environment's BEGIN_ENV marker with it, and the
 * `\end` pairs with the root's. Braces and environments that balance in the
 * text thus need not yield the `ROOT_ENV` Env node: the trace below, for
 * `{\begin{x}{a&b}\end{x}}`, ends with a Line node.
 */
module Nesting {
  import opened Wrappers
  import opened Util
  import opened Astree
  import opened Reduction
  import opened Tokenizer
  import opened Grouping

  // The stack items of the trace.
  const R := EnvName(RootEnv)
  const E := Marker(BeginEnv)
  const B := Marker(BeginBlock)
  const C := Marker(BeginCell)
  const X := EnvName("x")

  predicate NoMarkers(st: seq<Item>)
  {
    forall i :: 0 <= i < |st| ==> !st[i].Marker?
  }

  /** With no marker left on the stack, `end_parse` returns a Line node, not an Env node. */
  lemma UnframedResult(st: seq<Item>)
    requires NoMarkers(st) && EnvNamed(st)
    ensures ParseResult(st).nodeType == Line
  {
    LastMatchNone(st, IsCellLineOrEnv);
    var st1 := EndCellStep(st, false);
    assert st1 == [Node(CellNode(ProcessSeq(st)))];
    LastMatchNone(st1, IsLineOrEnv);
    var st2 := EndLineStep(st, false);
    assert st2 == [Node(LineNode(ProcessSeq(st1)))];
    LastMatchNone(st2, IsEnvMarker);
  }

  /** `{` on the root frame. */
  lemma OpenOuterBrace()
    ensures EnvNamed([R, E]) && FeedToken([R, E], CharTok('{')) == [R, E, B]
  {
    FeedTokenCases([R, E], CharTok('{'));
  }

  /** `\begin{x}`. */
  lemma OpenEnv()
    ensures EnvNamed([R, E, B]) && FeedToken([R, E, B], BeginEnvTok("x")) == [R, E, B, X, E]
  {
    FeedTokenCases([R, E, B], BeginEnvTok("x"));
  }

  /** The inner `{`. */
  lemma OpenInnerBrace()
    ensures EnvNamed([R, E, B, X, E]) && FeedToken([R, E, B, X, E], CharTok('{')) == [R, E, B, X, E, B]
  {
    FeedTokenCases([R, E, B, X, E], CharTok('{'));
  }

  /** `a`. */
  lemma PushA(a: Item)
    requires a == Node(TextNode("a"))
    ensures EnvNamed([R, E, B, X, E, B]) && FeedToken([R, E, B, X, E, B], CharTok('a')) == [R, E, B, X, E, B, a]
  {
    FeedTokenCases([R, E, B, X, E, B], CharTok('a'));
  }

  /** `&`: the nearest frame marker is the environment's, so the inner brace's marker is folded into the cell. */
  lemma SeparateCells(a: Item) returns (c: Item)
    requires a == Node(TextNode("a"))
    ensures c.Node? && EnvNamed([R, E, B, X, E, B, a]) && FeedToken([R, E, B, X, E, B, a], CharTok('&')) == [R, E, B, X, E, c, C]
  {
    c := Node(CellNode(ProcessSeq([B, a])));
    AmpersandStep([R, E, B, X, E, B, a]);
    CellAtEnv(a, c);
  }

  lemma AmpersandStep(st: seq<Item>)
    requires EnvNamed(st)
    ensures FeedToken(st, CharTok('&')) == EndCellStep(st, true)
  {
    FeedTokenCases(st, CharTok('&'));
  }

  lemma CellAtEnv(a: Item, c: Item)
    requires a.Node? && c == Node(CellNode(ProcessSeq([B, a])))
    ensures EndCellStep([R, E, B, X, E, B, a], true) == [R, E, B, X, E, c, C]
  {
    var st := [R, E, B, X, E, B, a];
    LastMatchIs(st, IsCellLineOrEnv, 4);
    EndCellShape(st, true);
    assert st[..5] == [R, E, B, X, E] && st[5..] == [B, a];
  }

  /** `b`. */
  lemma PushB(c: Item, b: Item)
    requires c.Node? && b == Node(TextNode("b"))
    ensures EnvNamed([R, E, B, X, E, c, C]) && FeedToken([R, E, B, X, E, c, C], CharTok('b')) == [R, E, B, X, E, c, C, b]
  {
    FeedTokenCases([R, E, B, X, E, c, C], CharTok('b'));
  }

  /** The inner `}` finds the outer brace's marker and folds the environment, marker and all, into a Block. */
  lemma CloseOuterBrace(c: Item, b: Item) returns (blk: Item)
    requires c.Node? && b.Node?
    ensures blk.Node? && EnvNamed([R, E, B, X, E, c, C, b]) && FeedToken([R, E, B, X, E, c, C, b], CharTok('}')) == [R, E, blk]
  {
    var st := [R, E, B, X, E, c, C, b];
    FeedTokenCases(st, CharTok('}'));
    LastMatchIs(st, IsBlockMarker, 2);
    blk := Node(BlockNode(ProcessSeq(st[3..])));
  }

  /** `\end{x}` closes the root environment. */
  lemma EndEnvAtRoot(blk: Item) returns (env: Item)
    requires blk.Node?
    ensures env.Node? && EnvNamed([R, E, blk]) && FeedToken([R, E, blk], EndEnvTok("x")) == [env]
  {
    FeedTokenCases([R, E, blk], EndEnvTok("x"));
    var cell := CloseCell(blk);
    var line := CloseRootLine(cell);
    env := CloseRootEnv(line);
  }

  lemma CloseCell(blk: Item) returns (cell: Item)
    requires blk.Node?
    ensures cell.Node? && EndCellStep([R, E, blk], false) == [R, E, cell]
  {
    var st := [R, E, blk];
    LastMatchIs(st, IsCellLineOrEnv, 1);
    EndCellShape(st, false);
    cell := Node(CellNode(ProcessSeq(st[2..])));
  }

  lemma CloseRootLine(cell: Item) returns (line: Item)
    requires cell.Node?
    ensures line.Node? && CloseLine([R, E, cell], false) == [R, E, line]
  {
    var st := [R, E, cell];
    LastMatchIs(st, IsLineOrEnv, 1);
    CloseLineShape(st, false);
    line := Node(LineNode(ProcessSeq(st[2..])));
  }

  lemma CloseRootEnv(line: Item) returns (env: Item)
    requires line.Node?
    ensures env.Node? && CloseEnv([R, E, line]) == [env]
  {
    var st := [R, E, line];
    LastMatchIs(st, IsEnvMarker, 1);
    env := CloseEnv(st)[0];
  }

  /** The outer `}` has no marker left and changes nothing; `end_parse` then wraps the Env node in a Line. */
  lemma StrayBrace(env: Item)
    requires env.Node?
    ensures EnvNamed([env]) && FeedToken([env], CharTok('}')) == [env] && ParseResult([env]).nodeType == Line
  {
    FeedTokenCases([env], CharTok('}'));
    LastMatchIs([env], IsBlockMarker, -1);
    UnframedResult([env]);
  }

  // ---------------------------------------------------------------------------
  // The line the trace parses

  const Doc: string := "{\\begin{x}{a&b}\\end{x}}"

  /** The characters of `Doc`, spelt out where the scanner reads them. */
  predicate DocShape(line: string)
  {
    && |line| == 23
    && line[0] == '{' && line[1..8] == "\\begin{" && line[8] == 'x' && line[9] == '}'
    && line[10] == '{' && line[11] == 'a' && line[12] == '&' && line[13] == 'b' && line[14] == '}'
    && line[15..20] == "\\end{" && line[20] == 'x' && line[21] == '}' && line[22] == '}'
  }

  lemma DocHasShape()
    ensures DocShape(Doc)
  {
    DocBeginSlice();
    DocEndSlice();
  }

  lemma DocBeginSlice()
    ensures Doc[1..8] == "\\begin{"
  {
    assert Doc[1..8] == [Doc[1], Doc[2], Doc[3], Doc[4], Doc[5], Doc[6], Doc[7]];
  }

  lemma DocEndSlice()
    ensures Doc[15..20] == "\\end{"
  {
    assert Doc[15..20] == [Doc[15], Doc[16], Doc[17], Doc[18], Doc[19]];
  }

  /** Neither environment pattern matches where the character is not a backslash. */
  lemma NoEnvMatch(line: string, pos: nat, keyword: string)
    requires pos < |line| && |keyword| > 0 && keyword[0] == '\\' && line[pos] != '\\'
    ensures EnvMatch(line, pos, keyword).None?
  {
  }

  /** A character that starts no pattern is a literal token of its own. */
  lemma PlainCharToken(line: string, pos: nat)
    requires pos < |line| && !IsSpace(line[pos]) && line[pos] != '%' && line[pos] != '\\'
    ensures NextToken(line, pos) == (CharTok(line[pos]), pos + 1)
  {
    NoEnvMatch(line, pos, "\\begin{");
    NoEnvMatch(line, pos, "\\end{");
  }

  /** The scanner reads `\begin{x}` at position 1. */
  lemma DocBegin(line: string)
    requires DocShape(line)
    ensures NextToken(line, 1) == (BeginEnvTok("x"), 10)
  {
    assert RunEnd(line, 9, IsLetter) == 9;
    assert RunEnd(line, 8, IsLetter) == 9;
    assert line[8..9] == "x";
  }

  /** The scanner reads `\end{x}` at position 15. */
  lemma DocEnd(line: string)
    requires DocShape(line)
    ensures NextToken(line, 15) == (EndEnvTok("x"), 22)
  {
    assert line[15..22][1] == line[16] != "\\begin{"[1];
    assert RunEnd(line, 21, IsLetter) == 21;
    assert RunEnd(line, 20, IsLetter) == 21;
    assert line[20..21] == "x";
  }

  /** Every other character of the line is a literal token. */
  lemma DocChar(line: string, pos: nat, c: char)
    requires DocShape(line) && pos < |line| && line[pos] == c && c in {'{', '}', 'a', '&', 'b'}
    ensures NextToken(line, pos) == (CharTok(c), pos + 1)
  {
    PlainCharToken(line, pos);
  }

  /** Feeding the tokens from `pos` on is feeding those after the token there, once it is applied. */
  lemma FeedFrom(st: seq<Item>, st1: seq<Item>, line: string, pos: nat, tok: Token, next: nat)
    requires EnvNamed(st) && pos < |line| && NextToken(line, pos) == (tok, next) && FeedToken(st, tok) == st1
    ensures FeedAll(st, Tokens(line, pos)) == FeedAll(st1, Tokens(line, next))
  {
    var rest := Tokens(line, next);
    assert Tokens(line, pos) == [tok] + rest;
    assert ([tok] + rest)[0] == tok && ([tok] + rest)[1..] == rest;
  }

  /** The trace up to the cell separator. */
  lemma OpeningHalf(line: string) returns (c: Item)
    requires DocShape(line)
    ensures c.Node? && EnvNamed([R, E, B, X, E, c, C])
    ensures FeedAll([R, E], Tokens(line, 0)) == FeedAll([R, E, B, X, E, c, C], Tokens(line, 13))
  {
    var a := Node(TextNode("a"));
    DocChar(line, 0, '{');
    OpenOuterBrace();
    FeedFrom([R, E], [R, E, B], line, 0, CharTok('{'), 1);
    DocBegin(line);
    OpenEnv();
    FeedFrom([R, E, B], [R, E, B, X, E], line, 1, BeginEnvTok("x"), 10);
    DocChar(line, 10, '{');
    OpenInnerBrace();
    FeedFrom([R, E, B, X, E], [R, E, B, X, E, B], line, 10, CharTok('{'), 11);
    c := OpeningCell(line, a);
  }

  /** `a` and `&`. */
  lemma OpeningCell(line: string, a: Item) returns (c: Item)
    requires DocShape(line) && a == Node(TextNode("a"))
    ensures c.Node? && EnvNamed([R, E, B, X, E, c, C])
    ensures FeedAll([R, E, B, X, E, B], Tokens(line, 11)) == FeedAll([R, E, B, X, E, c, C], Tokens(line, 13))
  {
    DocChar(line, 11, 'a');
    PushA(a);
    FeedFrom([R, E, B, X, E, B], [R, E, B, X, E, B, a], line, 11, CharTok('a'), 12);
    DocChar(line, 12, '&');
    c := SeparateCells(a);
    FeedFrom([R, E, B, X, E, B, a], [R, E, B, X, E, c, C], line, 12, CharTok('&'), 13);
  }

  /** The rest of the trace, from `b` on. */
  lemma ClosingHalf(line: string, c: Item)
    requires DocShape(line) && c.Node? && EnvNamed([R, E, B, X, E, c, C])
    ensures ParseResult(FeedAll([R, E, B, X, E, c, C], Tokens(line, 13))).nodeType == Line
  {
    var b := Node(TextNode("b"));
    DocChar(line, 13, 'b');
    PushB(c, b);
    FeedFrom([R, E, B, X, E, c, C], [R, E, B, X, E, c, C, b], line, 13, CharTok('b'), 14);
    DocChar(line, 14, '}');
    var blk := CloseOuterBrace(c, b);
    FeedFrom([R, E, B, X, E, c, C, b], [R, E, blk], line, 14, CharTok('}'), 15);
    ClosingEnv(line, blk);
  }

  /** `\end{x}` and the stray `}`. */
  lemma ClosingEnv(line: string, blk: Item)
    requires DocShape(line) && blk.Node? && EnvNamed([R, E, blk])
    ensures ParseResult(FeedAll([R, E, blk], Tokens(line, 15))).nodeType == Line
  {
    DocEnd(line);
    var env := EndEnvAtRoot(blk);
    FeedFrom([R, E, blk], [env], line, 15, EndEnvTok("x"), 22);
    DocChar(line, 22, '}');
    StrayBrace(env);
    FeedFrom([env], [env], line, 22, CharTok('}'), 23);
    assert Tokens(line, 23) == [];
  }

  /**
   * The one-line document `{\begin{x}{a&b}\end{x}}` balances its braces and
   * its environments, yet it parses to a Line node, not the root Env node.
   */
  lemma EnvInBraceEscapes()
    ensures ParseDocument([Doc]).nodeType == Line
  {
    DocHasShape();
    assert FeedLines(BeginParseStep(), [Doc]) == FeedAll([R, E], Tokens(Doc, 0));
    var c := OpeningHalf(Doc);
    ClosingHalf(Doc, c);
  }
}
