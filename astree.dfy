/**
 * mathtex/astree.py: the AST node record, its factories and its string form.
 *
 * Python keeps one record type with every field and a `node_type` tag; the
 * parser's stack mixes these nodes with integer markers and environment-name
 * strings, and a command node's children are raw stack items (which can be
 * markers or names). `Item` is that stack element.
 */
module Astree {

  datatype NodeType = Block | Line | Cell | Text | Env | Cmd

  /** The parser's integer markers BEGIN_CELL = 1, BEGIN_LINE = 2, BEGIN_BLOCK = 3, BEGIN_ENV = 4. */
  datatype MarkerKind = BeginCell | BeginLine | BeginBlock | BeginEnv

  datatype Item = Marker(kind: MarkerKind) | EnvName(name: string) | Node(ast: MathTexAst)

  datatype MathTexAst = MathTexAst(
    nodeType: NodeType,
    children: seq<Item>,
    text: string,
    envName: string,
    command: string,
    argNumber: nat)

  function MarkerCode(k: MarkerKind): (code: nat)
    ensures 1 <= code <= 4
  {
    match k
    case BeginCell => 1
    case BeginLine => 2
    case BeginBlock => 3
    case BeginEnv => 4
  }

  /** Every field the node's kind does not use still holds the default set by `__init__`. */
  predicate Canonical(n: MathTexAst)
  {
    && (n.nodeType != Text ==> n.text == "")
    && (n.nodeType != Env ==> n.envName == "")
    && (n.nodeType != Cmd ==> n.command == "" && n.argNumber == 0)
    && (n.nodeType == Text ==> n.children == [])
  }

  /** `MathTexAST.__init__(node_type)`. */
  function NewNode(t: NodeType): (n: MathTexAst)
    ensures n.nodeType == t && n.children == []
    ensures n.text == "" && n.envName == "" && n.command == "" && n.argNumber == 0
  {
    MathTexAst(t, [], "", "", "", 0)
  }

  function BlockNode(children: seq<Item>): (n: MathTexAst)
    ensures n.nodeType == Block && n.children == children && Canonical(n)
  {
    NewNode(Block).(children := children)
  }

  function CellNode(children: seq<Item>): (n: MathTexAst)
    ensures n.nodeType == Cell && n.children == children && Canonical(n)
  {
    NewNode(Cell).(children := children)
  }

  function LineNode(children: seq<Item>): (n: MathTexAst)
    ensures n.nodeType == Line && n.children == children && Canonical(n)
  {
    NewNode(Line).(children := children)
  }

  function TextNode(text: string): (n: MathTexAst)
    ensures n.nodeType == Text && n.text == text && n.children == [] && Canonical(n)
  {
    NewNode(Text).(text := text)
  }

  function EnvNode(envName: string, children: seq<Item>): (n: MathTexAst)
    ensures n.nodeType == Env && n.envName == envName && n.children == children && Canonical(n)
  {
    NewNode(Env).(envName := envName, children := children)
  }

  function CommandNode(cmd: string, argNumber: nat): (n: MathTexAst)
    ensures n.nodeType == Cmd && n.command == cmd && n.argNumber == argNumber
    ensures n.children == [] && Canonical(n)
  {
    NewNode(Cmd).(command := cmd, argNumber := argNumber, children := [])
  }

  /** Picks the factory by the node's tag and feeds it the node's own fields. */
  function Rebuild(n: MathTexAst): MathTexAst
  {
    match n.nodeType
    case Block => BlockNode(n.children)
    case Cell => CellNode(n.children)
    case Line => LineNode(n.children)
    case Text => TextNode(n.text)
    case Env => EnvNode(n.envName, n.children)
    case Cmd => CommandNode(n.command, n.argNumber).(children := n.children)
  }

  /** The factories are exactly the canonical nodes: rebuilding a node from its fields gives it back. */
  lemma RebuildCanonical(n: MathTexAst)
    ensures Canonical(n) <==> Rebuild(n) == n
  {
  }

  // ---------------------------------------------------------------------------
  // __str__

  /** `str(node)`: `<Kind: c1,c2,...>`, `<Env name: ...>`, `<Cmd name: ...>`, `<Text: t>`. */
  function Show(n: MathTexAst): string
  {
    "<" + ShowHead(n) + (if n.nodeType == Text then n.text else Join(n.children)) + ">"
  }

  /** The label after the opening bracket: the node kind, with the name of an environment or command. */
  function ShowHead(n: MathTexAst): string
  {
    match n.nodeType
    case Block => "Block: "
    case Cell => "Cell: "
    case Env => "Env " + n.envName + ": "
    case Line => "Line: "
    case Text => "Text: "
    case Cmd => "Cmd " + n.command + ": "
  }

  /** `str(x)` of a raw stack item: a marker prints as its integer, a name as itself. */
  function ShowItem(it: Item): string
  {
    match it
    case Marker(k) => [('0' as int + MarkerCode(k)) as char]
    case EnvName(s) => s
    case Node(a) => Show(a)
  }

  /** `",".join(map(str, items))`. */
  function Join(items: seq<Item>): string
  {
    if items == [] then ""
    else if |items| == 1 then ShowItem(items[0])
    else ShowItem(items[0]) + "," + Join(items[1..])
  }

  // ---------------------------------------------------------------------------
  // Properties of the string form

  function Count(s: string, c: char): nat
  {
    if s == [] then 0 else Count(s[..|s| - 1], c) + (if s[|s| - 1] == c then 1 else 0)
  }

  lemma {:induction false} CountAppend(a: string, b: string, c: char)
    ensures Count(a + b, c) == Count(a, c) + Count(b, c)
  {
    if b == [] {
      assert a + b == a;
    } else {
      assert (a + b)[..|a + b| - 1] == a + b[..|b| - 1];
      CountAppend(a, b[..|b| - 1], c);
    }
  }

  predicate AngleFree(s: string)
  {
    forall i :: 0 <= i < |s| ==> s[i] != '<' && s[i] != '>'
  }

  /**
   * No text, name or command anywhere in the tree contains an angle bracket,
   * and text nodes have no children (`str` does not print them).
   */
  predicate PlainTree(n: MathTexAst)
  {
    && AngleFree(n.text) && AngleFree(n.envName) && AngleFree(n.command)
    && (n.nodeType == Text ==> n.children == [])
    && PlainItems(n.children)
  }

  predicate PlainItem(it: Item)
  {
    match it
    case Marker(_) => true
    case EnvName(s) => AngleFree(s)
    case Node(a) => PlainTree(a)
  }

  predicate PlainItems(items: seq<Item>)
  {
    if items == [] then true else PlainItem(items[0]) && PlainItems(items[1..])
  }

  /** Number of AST nodes in a tree (raw markers and names are not nodes). */
  function NodeCount(n: MathTexAst): nat
  {
    1 + ItemsNodeCount(n.children)
  }

  function ItemNodeCount(it: Item): nat
  {
    match it
    case Marker(_) => 0
    case EnvName(_) => 0
    case Node(a) => NodeCount(a)
  }

  function ItemsNodeCount(items: seq<Item>): nat
  {
    if items == [] then 0 else ItemNodeCount(items[0]) + ItemsNodeCount(items[1..])
  }

  lemma {:induction false} AngleFreeCount(s: string)
    requires AngleFree(s)
    ensures Count(s, '<') == 0 && Count(s, '>') == 0
  {
    if s != [] {
      AngleFreeCount(s[..|s| - 1]);
    }
  }

  /** A string `<` + head + body + `>` whose head holds no angle bracket adds one of each to the body's counts. */
  lemma Wrapped(head: string, body: string, c: char)
    requires AngleFree(head) && (c == '<' || c == '>')
    ensures Count("<" + head + body + ">", c) == Count(body, c) + 1
  {
    AngleFreeCount(head);
    CountAppend("<" + head + body, ">", c);
    CountAppend("<" + head, body, c);
    CountAppend("<", head, c);
  }

  /**
   * In the string form every node contributes exactly one `<` and one `>`:
   * when no name or text holds an angle bracket, both counts equal the number
   * of nodes in the tree.
   */
  lemma {:induction false} ShowBrackets(n: MathTexAst)
    requires PlainTree(n)
    ensures Count(Show(n), '<') == NodeCount(n) && Count(Show(n), '>') == NodeCount(n)
  {
    JoinBrackets(n.children);
    AngleFreeCount(n.text);
    HeadAngleFree(n);
    var body := if n.nodeType == Text then n.text else Join(n.children);
    Wrapped(ShowHead(n), body, '<');
    Wrapped(ShowHead(n), body, '>');
  }

  lemma HeadAngleFree(n: MathTexAst)
    requires AngleFree(n.envName) && AngleFree(n.command)
    ensures AngleFree(ShowHead(n))
  {
  }

  lemma {:induction false} JoinBrackets(items: seq<Item>)
    requires PlainItems(items)
    ensures Count(Join(items), '<') == ItemsNodeCount(items)
    ensures Count(Join(items), '>') == ItemsNodeCount(items)
  {
    if items == [] {
    } else {
      ItemBrackets(items[0]);
      if |items| > 1 {
        JoinBrackets(items[1..]);
        var h := ShowItem(items[0]);
        CountAppend(h + ",", Join(items[1..]), '<');
        CountAppend(h, ",", '<');
        CountAppend(h + ",", Join(items[1..]), '>');
        CountAppend(h, ",", '>');
      } else {
        assert items[1..] == [];
      }
    }
  }

  lemma {:induction false} ItemBrackets(it: Item)
    requires PlainItem(it)
    ensures Count(ShowItem(it), '<') == ItemNodeCount(it)
    ensures Count(ShowItem(it), '>') == ItemNodeCount(it)
  {
    match it
    case Marker(k) =>
    case EnvName(s) => AngleFreeCount(s);
    case Node(a) => ShowBrackets(a);
  }
}
