/**
 * The transitions of `MathTexParser` (mathtex/parser.py) as functions from the
 * old stack to the new one, and what they keep invariant. The class
 * `Parser.MathTexParser` performs each of them on its `stack` field.
 *
 * The stack mixes markers, environment names and nodes. A closing token scans
 * down for the nearest marker of its kind and folds everything above it into
 * one node: `}` a Block (at BEGIN_BLOCK), `&` a Cell (at BEGIN_CELL, BEGIN_LINE
 * or BEGIN_ENV), `\\` a Line (at BEGIN_LINE or BEGIN_ENV), `\end` an Env (at
 * BEGIN_ENV, whose name sits just below it).
 */
module Grouping {
  import opened Wrappers
  import opened Util
  import opened Astree
  import opened Reduction
  import opened TexCharset
  import opened Tokenizer

  const RootEnv: string := "ROOT_ENV"

  /** `TEX_CMD_ARG_NUMBER`. */
  const TexCmdArgNumber: map<string, nat> :=
    map["frac" := 2, "sqrt" := 1, "boldsymbol" := 1, "left" := 1, "right" := 1]

  predicate IsCellLineOrEnv(it: Item)
  {
    it == Marker(BeginCell) || it == Marker(BeginLine) || it == Marker(BeginEnv)
  }

  predicate IsLineOrEnv(it: Item)
  {
    it == Marker(BeginLine) || it == Marker(BeginEnv)
  }

  predicate IsEnvMarker(it: Item)
  {
    it == Marker(BeginEnv)
  }

  predicate IsBlockMarker(it: Item)
  {
    it == Marker(BeginBlock)
  }

  predicate IsCellItem(it: Item)
  {
    it.Node? && it.ast.nodeType == Cell
  }

  /** A Line node all of whose children are Cell nodes. */
  predicate IsLineOfCells(it: Item)
  {
    && it.Node? && it.ast.nodeType == Line
    && forall k :: 0 <= k < |it.ast.children| ==> IsCellItem(it.ast.children[k])
  }

  // ---------------------------------------------------------------------------
  // Invariants of the stack

  /** Every BEGIN_ENV marker has the environment's name right below it. */
  predicate EnvNamed(st: seq<Item>)
  {
    forall i :: 0 <= i < |st| && st[i] == Marker(BeginEnv) ==> i >= 1 && st[i - 1].EnvName?
  }

  /** Only Cell nodes lie above the nearest BEGIN_LINE or BEGIN_ENV. */
  predicate CellsOnTop(st: seq<Item>)
  {
    forall j :: LastMatch(st, IsLineOrEnv) < j < |st| ==> IsCellItem(st[j])
  }

  /** Only Lines made of Cells lie above the nearest BEGIN_ENV. */
  predicate LinesOnTop(st: seq<Item>)
  {
    forall j :: LastMatch(st, IsEnvMarker) < j < |st| ==> IsLineOfCells(st[j])
  }

  /**
   * Below every BEGIN_CELL marker, down to the nearest BEGIN_LINE or
   * BEGIN_ENV, lie only finished Cell nodes; below every BEGIN_LINE marker,
   * down to the nearest BEGIN_ENV, lie only finished Lines made of Cells.
   */
  predicate Framed(st: seq<Item>)
    decreases |st|
  {
    if st == [] then true
    else
      var below := st[..|st| - 1];
      && Framed(below)
      && (st[|st| - 1] == Marker(BeginCell) ==> CellsOnTop(below))
      && (st[|st| - 1] == Marker(BeginLine) ==> LinesOnTop(below))
  }

  predicate NoEnvMarker(s: seq<Item>)
  {
    forall j :: 0 <= j < |s| ==> s[j] != Marker(BeginEnv)
  }

  predicate NoCellOrLineMarker(s: seq<Item>)
  {
    forall j :: 0 <= j < |s| ==> s[j] != Marker(BeginCell) && s[j] != Marker(BeginLine)
  }

  /** Keeping a prefix and pushing items that are not BEGIN_ENV keeps every name in place. */
  lemma EnvNamedKeep(st: seq<Item>, k: nat, tail: seq<Item>)
    requires EnvNamed(st) && k <= |st| && NoEnvMarker(tail)
    ensures EnvNamed(st[..k] + tail)
  {
    var s := st[..k] + tail;
    forall i | 0 <= i < |s| && s[i] == Marker(BeginEnv)
      ensures i >= 1 && s[i - 1].EnvName?
    {
      assert i < k && st[i] == Marker(BeginEnv);
    }
  }

  lemma FramedSnoc(st: seq<Item>, x: Item)
    ensures Framed(st + [x]) <==>
      Framed(st) && (x == Marker(BeginCell) ==> CellsOnTop(st)) && (x == Marker(BeginLine) ==> LinesOnTop(st))
  {
    assert (st + [x])[..|st + [x]| - 1] == st;
  }

  lemma {:induction false} FramedPrefix(st: seq<Item>, k: nat)
    requires Framed(st) && k <= |st|
    ensures Framed(st[..k])
    decreases |st| - k
  {
    if k < |st| {
      FramedPrefix(st, k + 1);
      FramedSnoc(st[..k], st[k]);
      assert st[..k + 1] == st[..k] + [st[k]];
    } else {
      assert st[..k] == st;
    }
  }

  lemma {:induction false} FramedKeep(st: seq<Item>, k: nat, tail: seq<Item>)
    requires Framed(st) && k <= |st| && NoCellOrLineMarker(tail)
    ensures Framed(st[..k] + tail)
    decreases |tail|
  {
    if tail == [] {
      FramedPrefix(st, k);
      assert st[..k] + tail == st[..k];
    } else {
      var init := tail[..|tail| - 1];
      var x := tail[|tail| - 1];
      assert x != Marker(BeginCell) && x != Marker(BeginLine);
      FramedKeep(st, k, init);
      FramedSnoc(st[..k] + init, x);
      SnocInit(st[..k], tail);
    }
  }

  // Proof helpers with no counterpart in mathtex: a sequence identity stated
  // on its own is cheaper than the same step inside a proof about stacks.

  lemma SnocInit<T>(a: seq<T>, t: seq<T>)
    requires |t| > 0
    ensures a + t[..|t| - 1] + [t[|t| - 1]] == a + t
  {
  }

  /** `FramedKeep` and `FramedSnoc` for a result named apart from its shape. */
  lemma FramedKeepAs(st: seq<Item>, k: nat, tail: seq<Item>, r: seq<Item>)
    requires Framed(st) && k <= |st| && NoCellOrLineMarker(tail) && r == st[..k] + tail
    ensures Framed(r)
  {
    FramedKeep(st, k, tail);
  }

  lemma FramedPushAs(below: seq<Item>, m: Item, r: seq<Item>)
    requires Framed(below) && r == below + [m]
    requires m == Marker(BeginCell) ==> CellsOnTop(below)
    requires m == Marker(BeginLine) ==> LinesOnTop(below)
    ensures Framed(r)
  {
    FramedSnoc(below, m);
  }

  // More proof helpers without a counterpart in mathtex: sequence identities,
  // stated apart so that no stack invariant is in scope when they are proved.

  lemma EmptyKeep<T>(st: seq<T>, tail: seq<T>)
    ensures st[..0] + tail == tail
  {
  }

  lemma SnocKeep<T>(st: seq<T>, b: nat)
    requires b < |st|
    ensures st[..b + 1] == st[..b] + [st[b]]
  {
  }

  lemma FullKeep<T>(st: seq<T>, tail: seq<T>)
    ensures st[..|st|] + tail == st + tail
  {
  }

  lemma ConsSplit<T>(x: T, s: seq<T>)
    ensures ([x] + s)[1..] == s && ([x] + s)[0] == x
  {
  }

  lemma SliceAround<T>(a: seq<T>, x: T, b: seq<T>)
    ensures (a + [x] + b)[..|a|] == a && (a + [x] + b)[|a| + 1..] == b
  {
  }

  lemma PairPush<T>(a: seq<T>, x: T, y: T)
    ensures a + [x, y] == a + [x] + [y]
  {
  }

  lemma SnocAssoc<T>(a: seq<T>, x: T, s: seq<T>)
    ensures a + [x] + s == a + ([x] + s)
  {
  }

  lemma HeadSplit<T>(s: seq<T>)
    requires |s| > 0
    ensures [s[0]] + s[1..] == s
  {
  }

  // ---------------------------------------------------------------------------
  // Transitions

  /** `begin_env(name)`: pushes the name, then BEGIN_ENV. */
  function BeginEnvStep(st: seq<Item>, name: string): (r: seq<Item>)
    ensures EnvNamed(st) ==> EnvNamed(r)
    ensures |r| == |st| + 2 && r[..|st|] == st && r[|st|] == EnvName(name) && r[|st| + 1] == Marker(BeginEnv)
  {
    st + [EnvName(name), Marker(BeginEnv)]
  }

  /** `begin_parse()`: the root environment, whatever was there before. */
  function BeginParseStep(): (r: seq<Item>)
    ensures EnvNamed(r) && Framed(r)
  {
    [EnvName(RootEnv), Marker(BeginEnv)]
  }

  /**
   * `end_cell(new_cell)`: everything above the nearest BEGIN_CELL, BEGIN_LINE
   * or BEGIN_ENV becomes one Cell node; a BEGIN_CELL marker is consumed, the
   * other two stay. With `new_cell` a fresh BEGIN_CELL is pushed.
   */
  function EndCellStep(st: seq<Item>, newCell: bool): seq<Item>
  {
    st[..CellKeep(st)] + CellTail(st[LastMatch(st, IsCellLineOrEnv) + 1..], newCell)
  }

  /** How much of the stack `end_cell` keeps: a BEGIN_CELL marker found is dropped, any other kept. */
  function CellKeep(st: seq<Item>): (k: nat)
    ensures var b := LastMatch(st, IsCellLineOrEnv);
      k == if b >= 0 && st[b] == Marker(BeginCell) then b else b + 1
    ensures k <= |st|
  {
    var b := LastMatch(st, IsCellLineOrEnv);
    if b >= 0 && st[b] == Marker(BeginCell) then b else b + 1
  }

  function CellTail(frame: seq<Item>, newCell: bool): (t: seq<Item>)
    ensures NoEnvMarker(t) && |t| >= 1 && t[0] == Node(CellNode(ProcessSeq(frame)))
  {
    if newCell then [Node(CellNode(ProcessSeq(frame))), Marker(BeginCell)] else [Node(CellNode(ProcessSeq(frame)))]
  }

  lemma EndCellEnvNamed(st: seq<Item>, newCell: bool)
    requires EnvNamed(st)
    ensures EnvNamed(EndCellStep(st, newCell))
  {
    EnvNamedKeep(st, CellKeep(st), CellTail(st[LastMatch(st, IsCellLineOrEnv) + 1..], newCell));
  }

  /**
   * The second half of `end_line(new_line)`, once the current cell is closed:
   * everything above the nearest BEGIN_LINE or BEGIN_ENV becomes one Line
   * node; a BEGIN_LINE marker is consumed. With `new_line` a fresh BEGIN_LINE
   * is pushed.
   */
  function CloseLine(st1: seq<Item>, newLine: bool): (r: seq<Item>)
  {
    st1[..LineKeep(st1)] + LineTail(st1[LastMatch(st1, IsLineOrEnv) + 1..], newLine)
  }

  /** How much of the stack closing a line keeps: a BEGIN_LINE marker found is dropped, any other kept. */
  function LineKeep(st1: seq<Item>): (k: nat)
    ensures var b := LastMatch(st1, IsLineOrEnv);
      k == if b >= 0 && st1[b] == Marker(BeginLine) then b else b + 1
    ensures k <= |st1|
  {
    var b := LastMatch(st1, IsLineOrEnv);
    if b >= 0 && st1[b] == Marker(BeginLine) then b else b + 1
  }

  function LineTail(frame: seq<Item>, newLine: bool): (t: seq<Item>)
    ensures NoEnvMarker(t) && |t| >= 1 && t[0] == Node(LineNode(ProcessSeq(frame)))
    ensures !newLine ==> |t| == 1
  {
    if newLine then [Node(LineNode(ProcessSeq(frame))), Marker(BeginLine)] else [Node(LineNode(ProcessSeq(frame)))]
  }

  /** `end_line(new_line)`: `end_cell(False)`, then the line is closed. */
  function EndLineStep(st: seq<Item>, newLine: bool): seq<Item>
  {
    CloseLine(EndCellStep(st, false), newLine)
  }

  lemma CloseLineEnvNamed(st1: seq<Item>, newLine: bool)
    requires EnvNamed(st1)
    ensures EnvNamed(CloseLine(st1, newLine))
  {
    EnvNamedKeep(st1, LineKeep(st1), LineTail(st1[LastMatch(st1, IsLineOrEnv) + 1..], newLine));
  }

  lemma EndLineEnvNamed(st: seq<Item>, newLine: bool)
    requires EnvNamed(st)
    ensures EnvNamed(EndLineStep(st, newLine))
  {
    EndCellEnvNamed(st, false);
    CloseLineEnvNamed(EndCellStep(st, false), newLine);
  }

  /**
   * The second half of `end_env()`, once the current line is closed: when a
   * BEGIN_ENV at index 1 or above is found, it, the name below it and
   * everything above it become one Env node named by the stack; without one
   * the stack stays as it is.
   */
  function CloseEnv(st1: seq<Item>): (r: seq<Item>)
    requires EnvNamed(st1)
    ensures EnvNamed(r)
  {
    var b := LastMatch(st1, IsEnvMarker);
    LastMatchSpec(st1, IsEnvMarker);
    if b >= 1 then
      var env := Node(EnvNode(st1[b - 1].name, ProcessSeq(st1[b + 1..])));
      EnvNamedKeep(st1, b - 1, [env]);
      st1[..b - 1] + [env]
    else st1
  }

  /**
   * `end_env()`: `end_line(False)`, then the environment is closed. The name
   * written in the `\end{...}` token plays no part. The stack then ends with
   * the Env node, or with the Line just closed when no environment was open.
   */
  function EndEnvStep(st: seq<Item>): (r: seq<Item>)
    requires EnvNamed(st)
    ensures EnvNamed(r)
    ensures |r| > 0 && r[|r| - 1].Node? && r[|r| - 1].ast.nodeType in {Env, Line}
  {
    EndLineEnvNamed(st, false);
    CloseEnv(EndLineStep(st, false))
  }

  /** `do_char(c)`. */
  function DoCharStep(st: seq<Item>, c: char): seq<Item>
  {
    if c == '{' then st + [Marker(BeginBlock)]
    else if c == '}' then
      var b := LastMatch(st, IsBlockMarker);
      if b >= 0 then st[..b] + [Node(BlockNode(ProcessSeq(st[b + 1..])))] else st
    else if c == '_' || c == '^' then st + [Node(CommandNode([c], 1))]
    else if c == '&' then EndCellStep(st, true)
    else st + [Node(TextNode([c]))]
  }

  /** `do_command(cmd)` with `get_char` as the table lookup `GetChar`. */
  function DoCommandStep(st: seq<Item>, cmd: string): seq<Item>
  {
    if cmd == "\\" then EndLineStep(st, true)
    else if cmd in TexCmdArgNumber then st + [Node(CommandNode(cmd, TexCmdArgNumber[cmd]))]
    else match GetChar(TexCharsetTable(), cmd)
      case Some(ch) => st + [Node(TextNode([ch]))]
      case None => st + [Node(CommandNode(cmd, 0))]
  }

  /** What one iteration of `parse_line` does with the token it matched. */
  function FeedToken(st: seq<Item>, tok: Token): (r: seq<Item>)
    requires EnvNamed(st)
    ensures EnvNamed(r)
  {
    match tok
    case Space => st
    case Comment => st
    case BeginEnvTok(name) => BeginEnvStep(st, name)
    case EndEnvTok(_) => EndEnvStep(st)
    case CommandTok(cmd) => DoCommandEnvNamed(st, cmd); DoCommandStep(st, cmd)
    case CharTok(c) => DoCharEnvNamed(st, c); DoCharStep(st, c)
  }

  lemma DoCharEnvNamed(st: seq<Item>, c: char)
    requires EnvNamed(st)
    ensures EnvNamed(DoCharStep(st, c))
  {
    if c == '}' {
      var b := LastMatch(st, IsBlockMarker);
      if b >= 0 {
        EnvNamedKeep(st, b, [Node(BlockNode(ProcessSeq(st[b + 1..])))]);
      }
    } else if c == '&' {
      EndCellEnvNamed(st, true);
    } else {
      EnvNamedKeep(st, |st|, DoCharStep(st, c)[|st|..]);
      assert st[..|st|] + DoCharStep(st, c)[|st|..] == DoCharStep(st, c);
    }
  }

  lemma DoCommandEnvNamed(st: seq<Item>, cmd: string)
    requires EnvNamed(st)
    ensures EnvNamed(DoCommandStep(st, cmd))
  {
    if cmd == "\\" {
      EndLineEnvNamed(st, true);
    } else {
      EnvNamedKeep(st, |st|, DoCommandStep(st, cmd)[|st|..]);
      assert st[..|st|] + DoCommandStep(st, cmd)[|st|..] == DoCommandStep(st, cmd);
    }
  }

  function FeedAll(st: seq<Item>, toks: seq<Token>): (r: seq<Item>)
    requires EnvNamed(st)
    ensures EnvNamed(r)
    decreases |toks|
  {
    if toks == [] then st else FeedAll(FeedToken(st, toks[0]), toks[1..])
  }

  /** `parse_line(line)`. */
  function Feed(st: seq<Item>, line: string): (r: seq<Item>)
    requires EnvNamed(st)
    ensures EnvNamed(r)
  {
    FeedAll(st, Tokens(line, 0))
  }

  /** `parse_line` on each line in turn. */
  function FeedLines(st: seq<Item>, lines: seq<string>): (r: seq<Item>)
    requires EnvNamed(st)
    ensures EnvNamed(r)
    decreases |lines|
  {
    if lines == [] then st else FeedLines(Feed(st, lines[0]), lines[1..])
  }

  /** The node `end_parse()` returns: the top of the stack once the environment is closed. */
  function ParseResult(st: seq<Item>): (r: MathTexAst)
    requires EnvNamed(st)
    ensures r.nodeType == Env || r.nodeType == Line
  {
    var st1 := EndEnvStep(st);
    st1[|st1| - 1].ast
  }

  /** `begin_parse()`, `parse_line` for every line, `end_parse()`. */
  function ParseDocument(lines: seq<string>): (r: MathTexAst)
    ensures r.nodeType == Env || r.nodeType == Line
  {
    ParseResult(FeedLines(BeginParseStep(), lines))
  }

  // ---------------------------------------------------------------------------
  // The grouping invariant

  lemma CellsOnTopBelowMarker(st: seq<Item>, b: nat)
    requires Framed(st) && b < |st| && st[b] == Marker(BeginCell)
    ensures CellsOnTop(st[..b])
  {
    FramedPrefix(st, b + 1);
    assert st[..b + 1] == st[..b] + [st[b]];
    FramedSnoc(st[..b], st[b]);
  }

  lemma CellsOnTopPush(below: seq<Item>, cell: Item, r: seq<Item>)
    requires CellsOnTop(below) && IsCellItem(cell) && r == below + [cell]
    ensures CellsOnTop(r)
  {
    LastMatchSnoc(below, cell, IsLineOrEnv);
  }

  lemma CellsOnTopAfterMarker(below: seq<Item>, m: Item, cell: Item, r: seq<Item>)
    requires IsLineOrEnv(m) && IsCellItem(cell) && r == below + [m] + [cell]
    ensures CellsOnTop(r)
  {
    LastMatchSnoc(below, m, IsLineOrEnv);
    LastMatchSnoc(below + [m], cell, IsLineOrEnv);
  }

  /** The shape of `end_cell`'s result: what it keeps, the new Cell, the new marker. */
  lemma EndCellShape(st: seq<Item>, newCell: bool)
    ensures var cell := Node(CellNode(ProcessSeq(st[LastMatch(st, IsCellLineOrEnv) + 1..])));
      && (!newCell ==> EndCellStep(st, newCell) == st[..CellKeep(st)] + [cell])
      && (newCell ==> EndCellStep(st, newCell) == st[..CellKeep(st)] + [cell] + [Marker(BeginCell)])
  {
    var cell := Node(CellNode(ProcessSeq(st[LastMatch(st, IsCellLineOrEnv) + 1..])));
    PairPush(st[..CellKeep(st)], cell, Marker(BeginCell));
  }

  /** The shape of `CloseLine`'s result: what it keeps, the new Line, the new marker. */
  lemma CloseLineShape(st1: seq<Item>, newLine: bool)
    ensures var line := Node(LineNode(ProcessSeq(st1[LastMatch(st1, IsLineOrEnv) + 1..])));
      && (!newLine ==> CloseLine(st1, newLine) == st1[..LineKeep(st1)] + [line])
      && (newLine ==> CloseLine(st1, newLine) == st1[..LineKeep(st1)] + [line] + [Marker(BeginLine)])
  {
    var line := Node(LineNode(ProcessSeq(st1[LastMatch(st1, IsLineOrEnv) + 1..])));
    PairPush(st1[..LineKeep(st1)], line, Marker(BeginLine));
  }

  /** After closing a cell, only Cell nodes lie above the nearest BEGIN_LINE or BEGIN_ENV. */
  lemma CellsAboveLine(st: seq<Item>)
    requires Framed(st)
    ensures CellsOnTop(EndCellStep(st, false))
  {
    EndCellShape(st, false);
    var b := LastMatch(st, IsCellLineOrEnv);
    var cell := Node(CellNode(ProcessSeq(st[b + 1..])));
    var r := EndCellStep(st, false);
    if b >= 0 && st[b] == Marker(BeginCell) {
      CellsOnTopBelowMarker(st, b);
      CellsOnTopPush(st[..b], cell, r);
    } else if b >= 0 {
      LastMatchSpec(st, IsCellLineOrEnv);
      SnocKeep(st, b);
      CellsOnTopAfterMarker(st[..b], st[b], cell, r);
    } else {
      CellsOnTopPush(st[..0], cell, r);
    }
  }

  lemma EndCellFramed(st: seq<Item>, newCell: bool)
    requires Framed(st)
    ensures Framed(EndCellStep(st, newCell))
  {
    EndCellShape(st, false);
    EndCellShape(st, newCell);
    var cell := Node(CellNode(ProcessSeq(st[LastMatch(st, IsCellLineOrEnv) + 1..])));
    FramedKeepAs(st, CellKeep(st), [cell], EndCellStep(st, false));
    if newCell {
      CellsAboveLine(st);
      FramedPushAs(EndCellStep(st, false), Marker(BeginCell), EndCellStep(st, true));
    }
  }

  /** The Line node `end_line` builds once the cell is closed is made of Cells. */
  lemma NewLineOfCells(st1: seq<Item>)
    requires CellsOnTop(st1)
    ensures IsLineOfCells(Node(LineNode(ProcessSeq(st1[LastMatch(st1, IsLineOrEnv) + 1..]))))
  {
    var b := LastMatch(st1, IsLineOrEnv);
    var frame := st1[b + 1..];
    assert forall i :: 0 <= i < |frame| ==> IsPlainNode(frame[i]) by {
      assert forall i :: 0 <= i < |frame| ==> frame[i] == st1[b + 1 + i];
    }
    ProcessSeqPlain(frame);
  }

  lemma LinesOnTopBelowMarker(st: seq<Item>, b: nat)
    requires Framed(st) && b < |st| && st[b] == Marker(BeginLine)
    ensures LinesOnTop(st[..b])
  {
    FramedPrefix(st, b + 1);
    SnocKeep(st, b);
    FramedSnoc(st[..b], st[b]);
  }

  lemma LinesOnTopPush(below: seq<Item>, line: Item, r: seq<Item>)
    requires LinesOnTop(below) && IsLineOfCells(line) && r == below + [line]
    ensures LinesOnTop(r)
  {
    LastMatchSnoc(below, line, IsEnvMarker);
  }

  lemma LinesOnTopAfterMarker(below: seq<Item>, m: Item, line: Item, r: seq<Item>)
    requires IsLineOrEnv(m) && m != Marker(BeginLine) && IsLineOfCells(line) && r == below + [m] + [line]
    ensures LinesOnTop(r)
  {
    LastMatchSnoc(below, m, IsEnvMarker);
    LastMatchSnoc(below + [m], line, IsEnvMarker);
  }

  /** After closing a line over closed cells, only Lines made of Cells lie above the nearest BEGIN_ENV. */
  lemma LinesAboveEnv(st1: seq<Item>)
    requires Framed(st1) && CellsOnTop(st1)
    ensures LinesOnTop(CloseLine(st1, false))
  {
    CloseLineShape(st1, false);
    NewLineOfCells(st1);
    var b := LastMatch(st1, IsLineOrEnv);
    var line := Node(LineNode(ProcessSeq(st1[b + 1..])));
    var r := CloseLine(st1, false);
    if b >= 0 && st1[b] == Marker(BeginLine) {
      LinesOnTopBelowMarker(st1, b);
      LinesOnTopPush(st1[..b], line, r);
    } else if b >= 0 {
      LastMatchSpec(st1, IsLineOrEnv);
      SnocKeep(st1, b);
      LinesOnTopAfterMarker(st1[..b], st1[b], line, r);
    } else {
      LinesOnTopPush(st1[..0], line, r);
    }
  }

  lemma CloseLineFramed(st1: seq<Item>, newLine: bool)
    requires Framed(st1) && CellsOnTop(st1)
    ensures Framed(CloseLine(st1, newLine))
  {
    CloseLineShape(st1, false);
    CloseLineShape(st1, newLine);
    var line := Node(LineNode(ProcessSeq(st1[LastMatch(st1, IsLineOrEnv) + 1..])));
    FramedKeepAs(st1, LineKeep(st1), [line], CloseLine(st1, false));
    if newLine {
      LinesAboveEnv(st1);
      FramedPushAs(CloseLine(st1, false), Marker(BeginLine), CloseLine(st1, true));
    }
  }

  lemma EndLineFramed(st: seq<Item>, newLine: bool)
    requires Framed(st)
    ensures Framed(EndLineStep(st, newLine))
  {
    EndCellFramed(st, false);
    CellsAboveLine(st);
    CloseLineFramed(EndCellStep(st, false), newLine);
  }

  lemma CloseEnvFramed(st1: seq<Item>)
    requires Framed(st1) && EnvNamed(st1)
    ensures Framed(CloseEnv(st1))
  {
    var b := LastMatch(st1, IsEnvMarker);
    LastMatchSpec(st1, IsEnvMarker);
    if b >= 1 {
      var env := Node(EnvNode(st1[b - 1].name, ProcessSeq(st1[b + 1..])));
      FramedKeepAs(st1, b - 1, [env], CloseEnv(st1));
    }
  }

  lemma EndEnvFramed(st: seq<Item>)
    requires Framed(st) && EnvNamed(st)
    ensures Framed(EndEnvStep(st))
  {
    EndLineFramed(st, false);
    EndLineEnvNamed(st, false);
    CloseEnvFramed(EndLineStep(st, false));
  }

  lemma DoCharFramed(st: seq<Item>, c: char)
    requires Framed(st)
    ensures Framed(DoCharStep(st, c))
  {
    if c == '}' {
      var b := LastMatch(st, IsBlockMarker);
      if b >= 0 {
        FramedKeep(st, b, [Node(BlockNode(ProcessSeq(st[b + 1..])))]);
      }
    } else if c == '&' {
      EndCellFramed(st, true);
    } else {
      var x := if c == '{' then Marker(BeginBlock)
        else if c == '_' || c == '^' then Node(CommandNode([c], 1))
        else Node(TextNode([c]));
      FullKeep(st, [x]);
      FramedKeepAs(st, |st|, [x], DoCharStep(st, c));
    }
  }

  lemma DoCommandFramed(st: seq<Item>, cmd: string)
    requires Framed(st)
    ensures Framed(DoCommandStep(st, cmd))
  {
    if cmd == "\\" {
      EndLineFramed(st, true);
    } else {
      var x := DoCommandStep(st, cmd)[|st|];
      assert DoCommandStep(st, cmd) == st + [x];
      FramedKeep(st, |st|, [x]);
      FullKeep(st, [x]);
    }
  }

  /** Every transition keeps the stack framed. */
  lemma BeginEnvFramed(st: seq<Item>, name: string)
    requires Framed(st)
    ensures Framed(BeginEnvStep(st, name))
  {
    var tail := [EnvName(name), Marker(BeginEnv)];
    assert NoCellOrLineMarker(tail);
    FullKeep(st, tail);
    FramedKeepAs(st, |st|, tail, BeginEnvStep(st, name));
  }

  /** Which transition each kind of token performs. */
  lemma FeedTokenCases(st: seq<Item>, tok: Token)
    requires EnvNamed(st)
    ensures tok.CommandTok? ==> FeedToken(st, tok) == DoCommandStep(st, tok.name)
    ensures tok.CharTok? ==> FeedToken(st, tok) == DoCharStep(st, tok.c)
    ensures tok.EndEnvTok? ==> FeedToken(st, tok) == EndEnvStep(st)
    ensures tok.BeginEnvTok? ==> FeedToken(st, tok) == BeginEnvStep(st, tok.name)
    ensures tok.Space? || tok.Comment? ==> FeedToken(st, tok) == st
  {
  }

  lemma FeedTokenFramed(st: seq<Item>, tok: Token)
    requires Framed(st) && EnvNamed(st)
    ensures Framed(FeedToken(st, tok))
  {
    FeedTokenCases(st, tok);
    if tok.BeginEnvTok? {
      BeginEnvFramed(st, tok.name);
    } else if tok.EndEnvTok? {
      EndEnvFramed(st);
    } else if tok.CommandTok? {
      DoCommandFramed(st, tok.name);
    } else if tok.CharTok? {
      DoCharFramed(st, tok.c);
    }
  }

  lemma {:induction false} FeedAllFramed(st: seq<Item>, toks: seq<Token>)
    requires Framed(st) && EnvNamed(st)
    ensures Framed(FeedAll(st, toks))
    decreases |toks|
  {
    if toks != [] {
      FeedTokenFramed(st, toks[0]);
      FeedAllFramed(FeedToken(st, toks[0]), toks[1..]);
    }
  }

  lemma {:induction false} FeedAllAppend(st: seq<Item>, a: seq<Token>, b: seq<Token>)
    requires EnvNamed(st)
    ensures FeedAll(st, a + b) == FeedAll(FeedAll(st, a), b)
    decreases |a|
  {
    if a == [] {
      assert a + b == b;
    } else {
      assert (a + b)[1..] == a[1..] + b;
      FeedAllAppend(FeedToken(st, a[0]), a[1..], b);
    }
  }

  // ---------------------------------------------------------------------------
  // Environments

  predicate EnvFree(toks: seq<Token>)
  {
    forall i :: 0 <= i < |toks| ==> !toks[i].BeginEnvTok? && !toks[i].EndEnvTok?
  }

  predicate NoBlockMarker(s: seq<Item>)
  {
    forall j :: 0 <= j < |s| ==> s[j] != Marker(BeginBlock)
  }

  /** The stack inside an environment opened on top of `base`: `base`, the name, BEGIN_ENV, then no BEGIN_ENV. */
  predicate InEnv(st: seq<Item>, base: seq<Item>, name: string)
  {
    && |st| >= |base| + 2 && st[..|base|] == base
    && st[|base|] == EnvName(name) && st[|base| + 1] == Marker(BeginEnv)
    && forall i :: |base| + 2 <= i < |st| ==> st[i] != Marker(BeginEnv)
  }

  /** An Env node with the given name all of whose children are Lines made of Cells. */
  predicate IsEnvOfLines(n: MathTexAst, name: string)
  {
    && n.nodeType == Env && n.envName == name
    && forall k :: 0 <= k < |n.children| ==> IsLineOfCells(n.children[k])
  }

  lemma InEnvKeep(st: seq<Item>, base: seq<Item>, name: string, k: nat, tail: seq<Item>, r: seq<Item>)
    requires InEnv(st, base, name) && |base| + 2 <= k <= |st| && NoEnvMarker(tail) && r == st[..k] + tail
    ensures InEnv(r, base, name)
  {
    assert (st[..k] + tail)[..|base|] == st[..|base|];
  }

  lemma EndCellInEnv(st: seq<Item>, base: seq<Item>, name: string, newCell: bool)
    requires InEnv(st, base, name)
    ensures InEnv(EndCellStep(st, newCell), base, name)
  {
    var b := LastMatch(st, IsCellLineOrEnv);
    LastMatchSpec(st, IsCellLineOrEnv);
    assert IsCellLineOrEnv(st[|base| + 1]);
    InEnvKeep(st, base, name, CellKeep(st), CellTail(st[b + 1..], newCell), EndCellStep(st, newCell));
  }

  lemma CloseLineInEnv(st1: seq<Item>, base: seq<Item>, name: string, newLine: bool)
    requires InEnv(st1, base, name)
    ensures InEnv(CloseLine(st1, newLine), base, name)
  {
    var b := LastMatch(st1, IsLineOrEnv);
    LastMatchSpec(st1, IsLineOrEnv);
    assert IsLineOrEnv(st1[|base| + 1]);
    InEnvKeep(st1, base, name, LineKeep(st1), LineTail(st1[b + 1..], newLine), CloseLine(st1, newLine));
  }

  lemma EndLineInEnv(st: seq<Item>, base: seq<Item>, name: string, newLine: bool)
    requires InEnv(st, base, name)
    ensures InEnv(EndLineStep(st, newLine), base, name)
  {
    EndCellInEnv(st, base, name, false);
    CloseLineInEnv(EndCellStep(st, false), base, name, newLine);
  }

  lemma CloseBraceInEnv(st: seq<Item>, base: seq<Item>, name: string)
    requires InEnv(st, base, name) && NoBlockMarker(base)
    ensures InEnv(DoCharStep(st, '}'), base, name)
  {
    var b := LastMatch(st, IsBlockMarker);
    if b >= 0 {
      LastMatchSpec(st, IsBlockMarker);
      assert forall j :: 0 <= j < |base| ==> st[j] == base[j];
      var block := Node(BlockNode(ProcessSeq(st[b + 1..])));
      InEnvKeep(st, base, name, b, [block], DoCharStep(st, '}'));
    }
  }

  lemma DoCharInEnv(st: seq<Item>, base: seq<Item>, name: string, c: char)
    requires InEnv(st, base, name) && NoBlockMarker(base)
    ensures InEnv(DoCharStep(st, c), base, name)
  {
    if c == '}' {
      CloseBraceInEnv(st, base, name);
    } else if c == '&' {
      EndCellInEnv(st, base, name, true);
    } else {
      var x := if c == '{' then Marker(BeginBlock)
        else if c == '_' || c == '^' then Node(CommandNode([c], 1))
        else Node(TextNode([c]));
      FullKeep(st, [x]);
      InEnvKeep(st, base, name, |st|, [x], DoCharStep(st, c));
    }
  }

  lemma DoCommandInEnv(st: seq<Item>, base: seq<Item>, name: string, cmd: string)
    requires InEnv(st, base, name)
    ensures InEnv(DoCommandStep(st, cmd), base, name)
  {
    if cmd == "\\" {
      EndLineInEnv(st, base, name, true);
    } else {
      var x := DoCommandStep(st, cmd)[|st|];
      assert DoCommandStep(st, cmd) == st + [x];
      FullKeep(st, [x]);
      InEnvKeep(st, base, name, |st|, [x], DoCommandStep(st, cmd));
    }
  }

  lemma {:induction false} FeedAllInEnv(st: seq<Item>, base: seq<Item>, name: string, toks: seq<Token>)
    requires InEnv(st, base, name) && NoBlockMarker(base) && EnvNamed(st) && EnvFree(toks)
    ensures InEnv(FeedAll(st, toks), base, name)
    decreases |toks|
  {
    if toks != [] {
      FeedTokenCases(st, toks[0]);
      if toks[0].CommandTok? {
        DoCommandInEnv(st, base, name, toks[0].name);
      } else if toks[0].CharTok? {
        DoCharInEnv(st, base, name, toks[0].c);
      }
      FeedAllInEnv(FeedToken(st, toks[0]), base, name, toks[1..]);
    }
  }

  /**
   * Closing an environment whose lines are closed leaves `base` untouched and
   * one Env node on it, named by its `\begin`, whose children are Lines made
   * of Cells.
   */
  lemma CloseEnvInEnv(st2: seq<Item>, base: seq<Item>, name: string)
    requires InEnv(st2, base, name) && LinesOnTop(st2) && EnvNamed(st2)
    ensures var r := CloseEnv(st2);
      |r| == |base| + 1 && r[..|base|] == base && r[|base|].Node? && IsEnvOfLines(r[|base|].ast, name)
  {
    var b := LastMatch(st2, IsEnvMarker);
    LastMatchSpec(st2, IsEnvMarker);
    assert IsEnvMarker(st2[|base| + 1]);
    assert b == |base| + 1;
    ProcessSeqPlain(st2[b + 1..]);
  }

  lemma EnvClose(st: seq<Item>, base: seq<Item>, name: string)
    requires InEnv(st, base, name) && Framed(st) && EnvNamed(st)
    ensures var r := EndEnvStep(st);
      |r| == |base| + 1 && r[..|base|] == base && r[|base|].Node? && IsEnvOfLines(r[|base|].ast, name)
  {
    EndLineInEnv(st, base, name, false);
    EndCellFramed(st, false);
    CellsAboveLine(st);
    LinesAboveEnv(EndCellStep(st, false));
    EndLineEnvNamed(st, false);
    CloseEnvInEnv(EndLineStep(st, false), base, name);
  }

  /**
   * `\begin{name}` ... `\end{other}` around tokens that open and close no
   * environment: on a stack with no open brace, the whole group becomes one
   * Env node of Lines of Cells pushed on the old stack. Its name is the one in
   * `\begin`; the name in `\end` plays no part.
   */
  lemma EnvGroup(st: seq<Item>, name: string, toks: seq<Token>, other: string)
    requires Framed(st) && EnvNamed(st) && NoBlockMarker(st) && EnvFree(toks)
    ensures var r := FeedAll(st, [BeginEnvTok(name)] + toks + [EndEnvTok(other)]);
      |r| == |st| + 1 && r[..|st|] == st && r[|st|].Node? && IsEnvOfLines(r[|st|].ast, name)
  {
    var st0 := BeginEnvStep(st, name);
    EnvGroupSplit(st, name, toks, other);
    EnvOpen(st, name);
    FeedAllInEnv(st0, st, name, toks);
    FeedAllFramed(st0, toks);
    EnvClose(FeedAll(st0, toks), st, name);
  }

  /** The tokens of a group are fed as `begin_env`, the inner tokens, then `end_env`. */
  lemma EnvGroupSplit(st: seq<Item>, name: string, toks: seq<Token>, other: string)
    requires EnvNamed(st)
    ensures FeedAll(st, [BeginEnvTok(name)] + toks + [EndEnvTok(other)])
      == EndEnvStep(FeedAll(BeginEnvStep(st, name), toks))
  {
    FeedAllAppend(st, [BeginEnvTok(name)] + toks, [EndEnvTok(other)]);
    FeedAllAppend(st, [BeginEnvTok(name)], toks);
    FeedOne(st, BeginEnvTok(name));
    FeedOne(FeedAll(BeginEnvStep(st, name), toks), EndEnvTok(other));
  }

  /** `begin_env` on a framed stack opens an environment on top of it. */
  lemma EnvOpen(st: seq<Item>, name: string)
    requires Framed(st)
    ensures InEnv(BeginEnvStep(st, name), st, name) && Framed(BeginEnvStep(st, name))
  {
    BeginEnvFramed(st, name);
  }

  lemma {:induction false} FeedLinesInvariants(st: seq<Item>, lines: seq<string>)
    requires InEnv(st, [], RootEnv) && Framed(st) && EnvNamed(st)
    requires forall i :: 0 <= i < |lines| ==> EnvFree(Tokens(lines[i], 0))
    ensures InEnv(FeedLines(st, lines), [], RootEnv) && Framed(FeedLines(st, lines))
    decreases |lines|
  {
    if lines != [] {
      FeedAllInEnv(st, [], RootEnv, Tokens(lines[0], 0));
      FeedAllFramed(st, Tokens(lines[0], 0));
      FeedLinesInvariants(Feed(st, lines[0]), lines[1..]);
    }
  }

  /**
   * A document whose lines open and close no environment parses to the
   * `ROOT_ENV` Env node, whose children are all Lines, whose children are all
   * Cells, whatever its braces, `&` and `\\`.
   */
  lemma RootShape(lines: seq<string>)
    requires forall i :: 0 <= i < |lines| ==> EnvFree(Tokens(lines[i], 0))
    ensures IsEnvOfLines(ParseDocument(lines), RootEnv)
  {
    assert BeginParseStep()[..0] == [];
    FeedLinesInvariants(BeginParseStep(), lines);
    EnvClose(FeedLines(BeginParseStep(), lines), [], RootEnv);
  }

  // ---------------------------------------------------------------------------
  // Braces

  /** A `}` with no open BEGIN_BLOCK changes nothing; otherwise the marker and all above it become one Block. */
  lemma CloseBrace(st: seq<Item>)
    ensures DoCharStep(st, '}') == st <==> LastMatch(st, IsBlockMarker) == -1
    ensures var b := LastMatch(st, IsBlockMarker);
      b >= 0 ==> DoCharStep(st, '}') == st[..b] + [Node(BlockNode(ProcessSeq(st[b + 1..])))]
  {
    var b := LastMatch(st, IsBlockMarker);
    LastMatchSpec(st, IsBlockMarker);
    if b >= 0 {
      var r := DoCharStep(st, '}');
      assert r[b] != st[b];
    }
  }

  /** A character that `do_char` pushes as a one-character Text node. */
  predicate PlainChar(c: char)
  {
    c != '{' && c != '}' && c != '_' && c != '^' && c != '&'
  }

  function CharToks(s: string): (r: seq<Token>)
    ensures |r| == |s| && forall i :: 0 <= i < |s| ==> r[i] == CharTok(s[i])
  {
    if s == [] then [] else [CharTok(s[0])] + CharToks(s[1..])
  }

  lemma PlainCharStep(st: seq<Item>, c: char)
    requires EnvNamed(st) && PlainChar(c)
    ensures FeedToken(st, CharTok(c)) == st + [Node(TextNode([c]))]
  {
  }

  lemma {:induction false} FeedPlainChars(st: seq<Item>, s: string)
    requires EnvNamed(st) && forall i :: 0 <= i < |s| ==> PlainChar(s[i])
    ensures FeedAll(st, CharToks(s)) == st + TextItems(s)
    decreases |s|
  {
    if s == [] {
      assert st + [] == st;
    } else {
      var t := Node(TextNode([s[0]]));
      ConsSplit(CharTok(s[0]), CharToks(s[1..]));
      PlainCharStep(st, s[0]);
      FeedPlainChars(st + [t], s[1..]);
      SnocAssoc(st, t, TextItems(s[1..]));
    }
  }

  /** One single-character Text node per character. */
  function TextItems(s: string): (r: seq<Item>)
    ensures |r| == |s| && forall i :: 0 <= i < |s| ==> r[i] == Node(TextNode([s[i]]))
  {
    if s == [] then [] else [Node(TextNode([s[0]]))] + TextItems(s[1..])
  }

  /** Pushing a Text node onto a lone Text node glues the two texts. */
  lemma PushText(t: string, u: string)
    ensures Push([Node(TextNode(t))], Node(TextNode(u))) == [Node(TextNode(t + u))]
  {
    var acc := [Node(TextNode(t))];
    EmptyKeep(acc, [Node(acc[0].ast.(text := t + u))]);
  }

  lemma {:induction false} MergeTextItems(t: string, s: string)
    ensures MergeFrom([Node(TextNode(t))], TextItems(s)) == [Node(TextNode(t + s))]
    decreases |s|
  {
    if s == [] {
      assert t + s == t;
    } else {
      var u := Node(TextNode([s[0]]));
      ConsSplit(u, TextItems(s[1..]));
      PushText(t, [s[0]]);
      MergeTextItems(t + [s[0]], s[1..]);
      SnocAssoc(t, s[0], s[1..]);
      HeadSplit(s);
    }
  }

  lemma {:induction false} UnitsTextItems(s: string)
    ensures Units(TextItems(s)) == TextItems(s)
    decreases |s|
  {
    if s != [] {
      UnitsTextItems(s[1..]);
      assert TextItems(s)[1..] == TextItems(s[1..]);
    }
  }

  /** `{` and `}` around plain characters push exactly one Block holding one Text node with those characters. */
  lemma BracedText(st: seq<Item>, s: string)
    requires EnvNamed(st) && |s| > 0 && forall i :: 0 <= i < |s| ==> PlainChar(s[i])
    ensures FeedAll(st, [CharTok('{')] + CharToks(s) + [CharTok('}')]) == st + [Node(BlockNode([Node(TextNode(s))]))]
  {
    BracedTextFeed(st, s);
    BlockOverText(st, s, st + [Marker(BeginBlock)] + TextItems(s));
  }

  /** Up to the closing `}`: the marker, then one Text node per character. */
  lemma BracedTextFeed(st: seq<Item>, s: string)
    requires EnvNamed(st) && forall i :: 0 <= i < |s| ==> PlainChar(s[i])
    ensures FeedAll(st, [CharTok('{')] + CharToks(s) + [CharTok('}')]) == DoCharStep(st + [Marker(BeginBlock)] + TextItems(s), '}')
  {
    var st0 := st + [Marker(BeginBlock)];
    FeedAllAppend(st, [CharTok('{')] + CharToks(s), [CharTok('}')]);
    FeedAllAppend(st, [CharTok('{')], CharToks(s));
    FeedOne(st, CharTok('{'));
    assert FeedToken(st, CharTok('{')) == st0;
    FeedPlainChars(st0, s);
    FeedOne(st0 + TextItems(s), CharTok('}'));
  }

  lemma FeedOne(st: seq<Item>, tok: Token)
    requires EnvNamed(st)
    ensures FeedAll(st, [tok]) == FeedToken(st, tok)
  {
    assert [tok][1..] == [];
  }

  /** The `}` that closes a brace opened on `st` and followed by Text nodes only. */
  lemma BlockOverText(st: seq<Item>, s: string, st1: seq<Item>)
    requires |s| > 0 && st1 == st + [Marker(BeginBlock)] + TextItems(s)
    ensures DoCharStep(st1, '}') == st + [Node(BlockNode([Node(TextNode(s))]))]
  {
    BlockMarkerBelowText(st, s, st1);
    CloseBlockOverText(st, s, st1);
  }

  lemma BlockMarkerBelowText(st: seq<Item>, s: string, st1: seq<Item>)
    requires st1 == st + [Marker(BeginBlock)] + TextItems(s)
    ensures LastMatch(st1, IsBlockMarker) == |st|
  {
    LastMatchSnoc(st, Marker(BeginBlock), IsBlockMarker);
    LastMatchAfter(st + [Marker(BeginBlock)], TextItems(s), IsBlockMarker);
  }

  lemma CloseBlockOverText(st: seq<Item>, s: string, st1: seq<Item>)
    requires |s| > 0 && st1 == st + [Marker(BeginBlock)] + TextItems(s)
    requires LastMatch(st1, IsBlockMarker) == |st|
    ensures DoCharStep(st1, '}') == st + [Node(BlockNode([Node(TextNode(s))]))]
  {
    SliceAround(st, Marker(BeginBlock), TextItems(s));
    ProcessTextItems(s);
  }

  /** Single-character Text nodes reduce to one Text node with all the characters. */
  lemma ProcessTextItems(s: string)
    requires |s| > 0
    ensures ProcessSeq(TextItems(s)) == [Node(TextNode(s))]
  {
    var u := Node(TextNode([s[0]]));
    UnitsTextItems(s);
    ConsSplit(u, TextItems(s[1..]));
    assert Push([], u) == [u];
    MergeTextItems([s[0]], s[1..]);
    HeadSplit(s);
  }

  // ---------------------------------------------------------------------------
  // Commands

  /**
   * `\\` closes a line; `frac` takes two arguments and `sqrt`, `boldsymbol`,
   * `left`, `right` one; a table command becomes its character as a Text
   * node; any other command takes none. A bare `_` or `^` takes one.
   */
  lemma CommandArity(st: seq<Item>, cmd: string)
    ensures cmd == "frac" ==> DoCommandStep(st, cmd) == st + [Node(CommandNode(cmd, 2))]
    ensures cmd in {"sqrt", "boldsymbol", "left", "right"} ==> DoCommandStep(st, cmd) == st + [Node(CommandNode(cmd, 1))]
    ensures cmd != "\\" && cmd !in TexCmdArgNumber && cmd in TexCharsetTable() ==>
      DoCommandStep(st, cmd) == st + [Node(TextNode([TexCharsetTable()[cmd].character]))]
    ensures cmd != "\\" && cmd !in TexCmdArgNumber && cmd !in TexCharsetTable() ==>
      DoCommandStep(st, cmd) == st + [Node(CommandNode(cmd, 0))]
    ensures DoCharStep(st, '_') == st + [Node(CommandNode("_", 1))]
    ensures DoCharStep(st, '^') == st + [Node(CommandNode("^", 1))]
  {
  }

  /** `\lambda` (not a table key) is a command node with no arguments, `\lamda` the letter λ. */
  lemma LambdaCommand(st: seq<Item>)
    ensures DoCommandStep(st, "lambda") == st + [Node(CommandNode("lambda", 0))]
    ensures DoCommandStep(st, "lamda") == st + [Node(TextNode("λ"))]
  {
    LambdaIsNotAKey();
    TexCharsetLookups();
  }

  /**
   * `do_command` as written: parser.py:113 calls `TEX_CHARSET.get_char`,
   * which `TexCharSet` does not define, so every command that is neither
   * `\\` nor in the arity table raises `AttributeError` (here: none).
   */
  function DoCommandAsWritten(st: seq<Item>, cmd: string): (r: Option<seq<Item>>)
    ensures r.Some? <==> cmd == "\\" || cmd in TexCmdArgNumber
    ensures r.Some? ==> r.value == DoCommandStep(st, cmd)
  {
    if cmd == "\\" then Some(EndLineStep(st, true))
    else if cmd in TexCmdArgNumber then Some(st + [Node(CommandNode(cmd, TexCmdArgNumber[cmd]))])
    else None
  }

  /** `\alpha` fails as written, where the intended lookup pushes the Text node α. */
  lemma GreekLetterFails(st: seq<Item>)
    ensures DoCommandAsWritten(st, "alpha") == None
    ensures DoCommandStep(st, "alpha") == st + [Node(TextNode("α"))]
  {
    TexCharsetLookups();
  }
}
