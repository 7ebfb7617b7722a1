/**
 * `MathTexParser` (mathtex/parser.py): one list, `stack`, rebuilt by slicing
 * and appending in every transition. Each method here does what its Python
 * namesake does, step by step, and is proved to leave the stack the
 * corresponding transition function of module `Grouping` prescribes; the
 * properties of the parse are proved about those functions.
 */
module Parser {
  import opened Wrappers
  import opened Util
  import opened Astree
  import opened Reduction
  import opened TexCharset
  import opened Tokenizer
  import opened Grouping

  class MathTexParser {
    var stack: seq<Item>

    /** `__init__`: an empty stack. */
    constructor ()
      ensures stack == []
    {
      stack := [];
    }

    /**
     * `parse_line(line)`: at each position tries whitespace, a comment,
     * `\begin{..}`, `\end{..}` and a command, in that order, else takes one
     * literal character; every attempt that matches moves past the match.
     */
    method ParseLine(line: string)
      requires EnvNamed(stack)
      modifies this
      ensures stack == Feed(old(stack), line)
    {
      var pos := 0;
      while pos < |line|
        invariant pos <= |line| && EnvNamed(stack)
        invariant FeedAll(stack, Tokens(line, pos)) == Feed(old(stack), line)
        decreases |line| - pos
      {
        ghost var st := stack;
        ghost var tok := NextToken(line, pos).0;
        ghost var next := NextToken(line, pos).1;
        assert Tokens(line, pos) == [tok] + Tokens(line, next);
        FeedTokenCases(st, tok);
        if IsSpace(line[pos]) {
          pos := RunEnd(line, pos, IsSpace);
        } else if line[pos] == '%' {
          pos := RunEnd(line, pos + 1, NotNewline);
        } else if EnvMatch(line, pos, "\\begin{").Some? {
          var m := EnvMatch(line, pos, "\\begin{").value;
          BeginEnv(m.0);
          pos := m.1;
        } else if EnvMatch(line, pos, "\\end{").Some? {
          var m := EnvMatch(line, pos, "\\end{").value;
          EndEnv();
          pos := m.1;
        } else if line[pos] == '\\' && pos + 1 < |line| {
          var e := if IsLetter(line[pos + 1]) then RunEnd(line, pos + 1, IsLetter) else pos + 2;
          DoCommand(line[pos + 1..e]);
          pos := e;
        } else {
          DoChar(line[pos]);
          pos := pos + 1;
        }
        assert stack == FeedToken(st, tok) && pos == next;
        ConsFeed(st, tok, Tokens(line, next));
      }
    }

    /** `begin_env(env_name)`: pushes the name, then BEGIN_ENV. */
    method BeginEnv(envName: string)
      modifies this
      ensures stack == BeginEnvStep(old(stack), envName)
    {
      stack := stack + [EnvName(envName)];
      stack := stack + [Marker(MarkerKind.BeginEnv)];
    }

    /**
     * `end_env()`: closes the current line, then folds the nearest BEGIN_ENV,
     * the name below it and everything above it into one Env node.
     */
    method EndEnv()
      requires EnvNamed(stack)
      modifies this
      ensures stack == EndEnvStep(old(stack))
    {
      EndLineEnvNamed(stack, false);
      EndLine(false);
      stack := EnvClosed(stack);
    }

    /**
     * The stack `end_env` leaves once the line is closed: the nearest
     * BEGIN_ENV at index 1 or above, the name below it and everything above
     * it are replaced by one Env node.
     */
    static method EnvClosed(st: seq<Item>) returns (r: seq<Item>)
      requires EnvNamed(st)
      ensures r == CloseEnv(st)
    {
      r := st;
      var beginIndex := LastIndex(r, IsEnvMarker);
      if beginIndex >= 1 {
        LastMatchSpec(r, IsEnvMarker);
        var envName := r[beginIndex - 1].name;
        var children := ProcessSequence(r[beginIndex + 1..]);
        var envNode := EnvNode(envName, children);
        r := r[..beginIndex - 1];
        r := r + [Node(envNode)];
      }
    }

    /** `begin_parse()`: the root environment, whatever was on the stack. */
    method BeginParse()
      modifies this
      ensures stack == BeginParseStep()
    {
      stack := [EnvName(RootEnv), Marker(MarkerKind.BeginEnv)];
    }

    /** `end_parse()`: closes the environment and returns the top of the stack. */
    method EndParse() returns (r: Item)
      requires EnvNamed(stack)
      modifies this
      ensures stack == EndEnvStep(old(stack))
      ensures r == Node(ParseResult(old(stack)))
    {
      EndEnv();
      r := stack[|stack| - 1];
    }

    /**
     * `end_line(new_line)`: closes the current cell, then folds everything
     * above the nearest BEGIN_LINE or BEGIN_ENV into one Line node.
     */
    method EndLine(newLine: bool)
      modifies this
      ensures stack == EndLineStep(old(stack), newLine)
    {
      EndCell(false);
      stack := LineClosed(stack, newLine);
    }

    /** The stack `end_line` leaves once the cell is closed. */
    static method LineClosed(st: seq<Item>, newLine: bool) returns (r: seq<Item>)
      ensures r == CloseLine(st, newLine)
    {
      r := st;
      var beginIndex := LastIndex(r, IsLineOrEnv);
      var children := ProcessSequence(r[beginIndex + 1..]);
      var lineNode := LineNode(children);
      if beginIndex >= 0 && r[beginIndex] == Marker(BeginLine) {
        beginIndex := beginIndex - 1;
      }
      r := r[..beginIndex + 1];
      ghost var kept := r;
      r := r + [Node(lineNode)];
      if newLine {
        r := r + [Marker(BeginLine)];
        PairPush(kept, Node(lineNode), Marker(BeginLine));
      }
    }

    /** `end_cell(new_cell)`: folds everything above the nearest BEGIN_CELL, BEGIN_LINE or BEGIN_ENV into one Cell node. */
    method EndCell(newCell: bool)
      modifies this
      ensures stack == EndCellStep(old(stack), newCell)
    {
      stack := CellClosed(stack, newCell);
    }

    /** The stack `end_cell` leaves. */
    static method CellClosed(st: seq<Item>, newCell: bool) returns (r: seq<Item>)
      ensures r == EndCellStep(st, newCell)
    {
      r := st;
      var beginIndex := LastIndex(r, IsCellLineOrEnv);
      var children := ProcessSequence(r[beginIndex + 1..]);
      var cellNode := CellNode(children);
      if beginIndex >= 0 && r[beginIndex] == Marker(BeginCell) {
        beginIndex := beginIndex - 1;
      }
      r := r[..beginIndex + 1];
      ghost var kept := r;
      r := r + [Node(cellNode)];
      if newCell {
        r := r + [Marker(BeginCell)];
        PairPush(kept, Node(cellNode), Marker(BeginCell));
      }
    }

    /** `do_command(cmd)`: a line break, a command with arguments, a symbol, or a bare command. */
    method DoCommand(cmd: string)
      modifies this
      ensures stack == DoCommandStep(old(stack), cmd)
    {
      if cmd == "\\" {
        EndLine(true);
      } else if cmd in TexCmdArgNumber {
        PushCommand(cmd, TexCmdArgNumber[cmd]);
      } else {
        var c := GetChar(TexCharsetTable(), cmd);
        if c.Some? {
          stack := stack + [Node(TextNode([c.value]))];
        } else {
          PushCommand(cmd, 0);
        }
      }
    }

    /** `push_command(cmd, arg_number)`: pushes a command node with no children yet. */
    method PushCommand(cmd: string, argNumber: nat)
      modifies this
      ensures stack == old(stack) + [Node(CommandNode(cmd, argNumber))]
    {
      stack := stack + [Node(CommandNode(cmd, argNumber))];
    }

    /** `do_char(c)`: braces, sub- and superscripts, cell separators and literal text. */
    method DoChar(c: char)
      modifies this
      ensures stack == DoCharStep(old(stack), c)
    {
      if c == '{' {
        stack := stack + [Marker(BeginBlock)];
      } else if c == '}' {
        stack := BlockClosed(stack);
      } else if c == '_' || c == '^' {
        PushCommand([c], 1);
      } else if c == '&' {
        EndCell(true);
      } else {
        stack := stack + [Node(TextNode([c]))];
      }
    }

    /** The stack a `}` leaves: the nearest BEGIN_BLOCK and all above it become one Block node, if there is one. */
    static method BlockClosed(st: seq<Item>) returns (r: seq<Item>)
      ensures r == DoCharStep(st, '}')
    {
      r := st;
      var beginIndex := LastIndex(r, IsBlockMarker);
      if beginIndex >= 0 {
        var children := ProcessSequence(r[beginIndex + 1..]);
        var blockNode := BlockNode(children);
        r := r[..beginIndex];
        r := r + [Node(blockNode)];
      }
    }

    /**
     * `process_sequence(nodes)`: skips everything that is not a node, glues a
     * text node onto a text node just before it in the result, and hands a
     * command node the next `arg_number` raw items as its children.
     */
    static method ProcessSequence(nodes: seq<Item>) returns (result: seq<Item>)
      ensures result == ProcessSeq(nodes)
    {
      result := [];
      var i: nat := 0;
      ghost var rest := Units(nodes);
      assert Drop(nodes, 0) == nodes;
      while i < |nodes|
        invariant rest == Units(Drop(nodes, i))
        invariant MergeFrom(result, rest) == ProcessSeq(nodes)
        decreases |nodes| - i
      {
        UnitsAt(nodes, i);
        ghost var i0, rest0 := i, rest;
        var node := nodes[i];
        if node.Node? {
          MergeCons(result, rest[0], rest[1..]);
          assert rest == [rest[0]] + rest[1..];
          if |result| > 0 {
            var lastNode := result[|result| - 1];
            if lastNode.Node? && lastNode.ast.nodeType == Text && node.ast.nodeType == Text {
              lastNode := Node(lastNode.ast.(text := lastNode.ast.text + node.ast.text));
              result := result[..|result| - 1] + [lastNode];
              i := i + 1;
              rest := rest[1..];
              Advance(nodes, i0, rest0, i, rest);
              continue;
            }
          }
          if node.ast.nodeType == Cmd {
            var withArgs := node.ast.(children := nodes[i + 1..Min(i + 1 + node.ast.argNumber, |nodes|)]);
            i := i + node.ast.argNumber;
            result := result + [Node(withArgs)];
          } else {
            result := result + [node];
          }
          rest := rest[1..];
        }
        i := i + 1;
        Advance(nodes, i0, rest0, i, rest);
      }
    }
  }

  /** Feeding a token list that starts with `tok`. */
  lemma ConsFeed(st: seq<Item>, tok: Token, rest: seq<Token>)
    requires EnvNamed(st)
    ensures FeedAll(st, [tok] + rest) == FeedAll(FeedToken(st, tok), rest)
  {
    assert ([tok] + rest)[0] == tok && ([tok] + rest)[1..] == rest;
  }

  /** One step of `Units` from index `i` of `nodes`. */
  lemma UnitsAt(nodes: seq<Item>, i: nat)
    requires i < |nodes|
    ensures !nodes[i].Node? ==> Units(Drop(nodes, i)) == Units(Drop(nodes, i + 1))
    ensures nodes[i].Node? && nodes[i].ast.nodeType != Cmd ==>
      Units(Drop(nodes, i)) == [nodes[i]] + Units(Drop(nodes, i + 1))
    ensures nodes[i].Node? && nodes[i].ast.nodeType == Cmd ==>
      Units(Drop(nodes, i)) ==
        [Node(nodes[i].ast.(children := nodes[i + 1..Min(i + 1 + nodes[i].ast.argNumber, |nodes|)]))]
        + Units(Drop(nodes, i + 1 + nodes[i].ast.argNumber))
  {
    var s := nodes[i..];
    assert s[0] == nodes[i] && s[1..] == nodes[i + 1..];
    if nodes[i].Node? && nodes[i].ast.nodeType == Cmd {
      var k := Min(nodes[i].ast.argNumber, |s| - 1);
      assert s[1..1 + k] == nodes[i + 1..Min(i + 1 + nodes[i].ast.argNumber, |nodes|)];
      assert s[1 + k..] == Drop(nodes, i + 1 + nodes[i].ast.argNumber);
    }
  }

  /** The units left after one step of the loop of `process_sequence`. */
  lemma Advance(nodes: seq<Item>, i0: nat, rest0: seq<Item>, i: nat, rest: seq<Item>)
    requires i0 < |nodes| && rest0 == Units(Drop(nodes, i0))
    requires i == if nodes[i0].Node? && nodes[i0].ast.nodeType == Cmd then i0 + 1 + nodes[i0].ast.argNumber else i0 + 1
    requires rest == if nodes[i0].Node? then rest0[1..] else rest0
    ensures rest == Units(Drop(nodes, i))
  {
    UnitsAt(nodes, i0);
  }

  /** `MergeFrom` over a list that starts with `u`. */
  lemma MergeCons(acc: seq<Item>, u: Item, rest: seq<Item>)
    ensures MergeFrom(acc, [u] + rest) == MergeFrom(Push(acc, u), rest)
  {
    assert ([u] + rest)[0] == u && ([u] + rest)[1..] == rest;
  }
}
