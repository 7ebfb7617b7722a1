/**
 * The scanner of `MathTexParser.parse_line` (mathtex/parser.py): the five
 * regular expressions RE_WHITESPACE, RE_COMMENT, RE_BEGIN_ENV, RE_END_ENV and
 * RE_CMD, tried in that order at the current position, else one literal
 * character. Each pattern is written out as a character-class test.
 */
module Tokenizer {
  import opened Wrappers

  datatype Token =
    | Space                      // RE_WHITESPACE: skipped
    | Comment                    // RE_COMMENT: skipped
    | BeginEnvTok(name: string)  // \begin{name}
    | EndEnvTok(name: string)    // \end{name}
    | CommandTok(name: string)   // \ plus a letter run or one other character
    | CharTok(c: char)           // anything else, one character

  /** `\s` of Python's `re` on `str`: the characters for which `str.isspace()` holds. */
  predicate IsSpace(c: char)
  {
    || ('\t' <= c <= '\r')
    || ('\U{1C}' <= c <= '\U{1F}')
    || c == ' ' || c == '\U{85}' || c == '\U{A0}' || c == '\U{1680}'
    || ('\U{2000}' <= c <= '\U{200A}')
    || c == '\U{2028}' || c == '\U{2029}' || c == '\U{202F}' || c == '\U{205F}' || c == '\U{3000}'
  }

  /** `[A-Za-z]`. */
  predicate IsLetter(c: char)
  {
    ('A' <= c <= 'Z') || ('a' <= c <= 'z')
  }

  predicate NotNewline(c: char)
  {
    c != '\n'
  }

  /** The end of the longest run of characters satisfying `p` that starts at `pos`. */
  function RunEnd(line: string, pos: nat, p: char -> bool): (e: nat)
    requires pos <= |line|
    ensures pos <= e <= |line|
    ensures forall i :: pos <= i < e ==> p(line[i])
    ensures e == |line| || !p(line[e])
    decreases |line| - pos
  {
    if pos == |line| || !p(line[pos]) then pos else RunEnd(line, pos + 1, p)
  }

  /**
   * `\begin\{([A-Za-z]+)\}` (keyword "\\begin{") or `\end\{([A-Za-z]+)\}`
   * (keyword "\\end{") anchored at `pos`: the name and the end of the match.
   */
  function EnvMatch(line: string, pos: nat, keyword: string): (r: Option<(string, nat)>)
    requires pos <= |line|
    ensures r.Some? ==> pos + |keyword| < r.value.1 <= |line|
    ensures r.Some? ==> line[pos..pos + |keyword|] == keyword
    ensures r.Some? ==> r.value.0 == line[pos + |keyword|..r.value.1 - 1] && line[r.value.1 - 1] == '}'
    ensures r.Some? ==> |r.value.0| > 0 && forall i :: 0 <= i < |r.value.0| ==> IsLetter(r.value.0[i])
  {
    var k := pos + |keyword|;
    if k < |line| && line[pos..k] == keyword && IsLetter(line[k]) then
      var e := RunEnd(line, k, IsLetter);
      if e < |line| && line[e] == '}' then Some((line[k..e], e + 1)) else None
    else None
  }

  /** The token at `pos` and the position just after it. */
  function NextToken(line: string, pos: nat): (r: (Token, nat))
    requires pos < |line|
    ensures pos < r.1 <= |line|
    ensures r.0.CharTok? ==> r.1 == pos + 1 && r.0.c == line[pos]
  {
    if IsSpace(line[pos]) then
      (Space, RunEnd(line, pos, IsSpace))
    else if line[pos] == '%' then
      (Comment, RunEnd(line, pos + 1, NotNewline))
    else if EnvMatch(line, pos, "\\begin{").Some? then
      var m := EnvMatch(line, pos, "\\begin{").value;
      (BeginEnvTok(m.0), m.1)
    else if EnvMatch(line, pos, "\\end{").Some? then
      var m := EnvMatch(line, pos, "\\end{").value;
      (EndEnvTok(m.0), m.1)
    else if line[pos] == '\\' && pos + 1 < |line| then
      var e := if IsLetter(line[pos + 1]) then RunEnd(line, pos + 1, IsLetter) else pos + 2;
      (CommandTok(line[pos + 1..e]), e)
    else
      (CharTok(line[pos]), pos + 1)
  }

  /** The tokens of `line` from `pos` on, in order. */
  function Tokens(line: string, pos: nat): seq<Token>
    requires pos <= |line|
    decreases |line| - pos
  {
    if pos == |line| then []
    else
      var (tok, next) := NextToken(line, pos);
      [tok] + Tokens(line, next)
  }

  /**
   * A command token is a backslash followed either by the longest run of
   * letters there, or by exactly one character that is not a letter; and it is
   * produced only where neither environment pattern matches.
   */
  lemma CommandTokenShape(line: string, pos: nat)
    requires pos < |line| && NextToken(line, pos).0.CommandTok?
    ensures var (tok, e) := NextToken(line, pos);
      && line[pos] == '\\'
      && tok.name == line[pos + 1..e]
      && EnvMatch(line, pos, "\\begin{").None?
      && EnvMatch(line, pos, "\\end{").None?
      && |tok.name| >= 1
      && (|| ((forall i :: 0 <= i < |tok.name| ==> IsLetter(tok.name[i])) && (e == |line| || !IsLetter(line[e])))
          || (|tok.name| == 1 && !IsLetter(tok.name[0])))
  {
  }

  /** A literal token is produced only where no pattern matches: a lone trailing backslash is literal. */
  lemma CharTokenShape(line: string, pos: nat)
    requires pos < |line| && NextToken(line, pos).0.CharTok?
    ensures !IsSpace(line[pos]) && line[pos] != '%'
    ensures line[pos] == '\\' ==> pos == |line| - 1
  {
  }

  /** Whitespace and comments are consumed in full: a comment stops at the next newline, exclusive. */
  lemma SkippedTokenShape(line: string, pos: nat)
    requires pos < |line|
    ensures NextToken(line, pos).0.Space? <==> IsSpace(line[pos])
    ensures NextToken(line, pos).0.Comment? <==> line[pos] == '%'
    ensures NextToken(line, pos).0.Comment? ==>
      var e := NextToken(line, pos).1;
      (e == |line| || line[e] == '\n') && forall i :: pos < i < e ==> line[i] != '\n'
  {
  }

  /** Each token consumes at least one character, so a line has at most as many tokens as characters. */
  lemma {:induction false} TokenCount(line: string, pos: nat)
    requires pos <= |line|
    ensures |Tokens(line, pos)| <= |line| - pos
    decreases |line| - pos
  {
    if pos < |line| {
      TokenCount(line, NextToken(line, pos).1);
    }
  }
}
