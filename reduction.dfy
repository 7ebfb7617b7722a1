/**
 * `MathTexParser.process_sequence` (mathtex/parser.py) as a specification.
 *
 * The Python loop does two things at once: it drops every stack item that is
 * not a node (markers, environment names), lets a command node take the next
 * `arg_number` raw items as its children, and glues a text node onto the text
 * node just before it in the result. Here the first part is `Units` and the
 * second `MergeFrom`; `ProcessSeq` composes them, and the method
 * `Parser.MathTexParser.ProcessSequence` is proved equal to it.
 */
module Reduction {
  import opened Astree

  predicate IsTextItem(it: Item)
  {
    it.Node? && it.ast.nodeType == Text
  }

  predicate IsCmdItem(it: Item)
  {
    it.Node? && it.ast.nodeType == Cmd
  }

  function Min(a: int, b: int): int
  {
    if a <= b then a else b
  }

  /** The suffix of `s` from `i` on, empty when `i` is past the end (Python's `s[i:]`). */
  function Drop<T>(s: seq<T>, i: nat): (r: seq<T>)
    ensures i <= |s| ==> r == s[i..]
    ensures i >= |s| ==> r == []
  {
    if i <= |s| then s[i..] else []
  }

  /**
   * The nodes of `s` in order, each command node carrying as children the raw
   * items that follow it, as many as its argument count and as there are left;
   * those items are not visited on their own.
   */
  function Units(s: seq<Item>): seq<Item>
    decreases |s|
  {
    if s == [] then []
    else if !s[0].Node? then Units(s[1..])
    else if s[0].ast.nodeType == Cmd then
      var k := Min(s[0].ast.argNumber, |s| - 1);
      [Node(s[0].ast.(children := s[1..1 + k]))] + Units(s[1 + k..])
    else [s[0]] + Units(s[1..])
  }

  /** Appends one node, gluing its text onto the previous node when both are text nodes. */
  function Push(acc: seq<Item>, u: Item): seq<Item>
  {
    if |acc| > 0 && IsTextItem(acc[|acc| - 1]) && IsTextItem(u) then
      var last := acc[|acc| - 1];
      acc[..|acc| - 1] + [Node(last.ast.(text := last.ast.text + u.ast.text))]
    else acc + [u]
  }

  function MergeFrom(acc: seq<Item>, us: seq<Item>): seq<Item>
    decreases |us|
  {
    if us == [] then acc else MergeFrom(Push(acc, us[0]), us[1..])
  }

  /** `process_sequence(nodes)`. */
  function ProcessSeq(s: seq<Item>): seq<Item>
  {
    MergeFrom([], Units(s))
  }

  // ---------------------------------------------------------------------------
  // Reference views of a sequence of items

  /** The texts of the text nodes of `s`, concatenated in order. */
  function TextOf(s: seq<Item>): string
  {
    if s == [] then "" else TextOf(s[..|s| - 1]) + (if IsTextItem(s[|s| - 1]) then s[|s| - 1].ast.text else "")
  }

  /** The items of `s` that are not text nodes, in order. */
  function NonTexts(s: seq<Item>): seq<Item>
  {
    if s == [] then [] else NonTexts(s[..|s| - 1]) + (if IsTextItem(s[|s| - 1]) then [] else [s[|s| - 1]])
  }

  /**
   * The texts between consecutive non-text items of `s`, in order: one run
   * before the first such item, one after each. Gluing may merge text nodes,
   * but only within a run.
   */
  function Runs(s: seq<Item>): (r: seq<string>)
    ensures |r| == |NonTexts(s)| + 1
  {
    if s == [] then [""] else AddRun(Runs(s[..|s| - 1]), s[|s| - 1])
  }

  /** One more item: a text node extends the last run, any other item starts a new one. */
  function AddRun(rs: seq<string>, x: Item): (r: seq<string>)
    requires |rs| > 0
    ensures |r| == |rs| + (if IsTextItem(x) then 0 else 1)
  {
    if IsTextItem(x) then rs[..|rs| - 1] + [rs[|rs| - 1] + x.ast.text] else rs + [""]
  }

  predicate AllNodes(s: seq<Item>)
  {
    forall i :: 0 <= i < |s| ==> s[i].Node?
  }

  predicate NoAdjacentTexts(s: seq<Item>)
  {
    forall i :: 0 < i < |s| ==> !(IsTextItem(s[i - 1]) && IsTextItem(s[i]))
  }

  // ---------------------------------------------------------------------------
  // Properties of Push and MergeFrom

  lemma PushText(acc: seq<Item>, u: Item)
    ensures TextOf(Push(acc, u)) == TextOf(acc) + TextOf([u])
  {
    assert TextOf([u]) == TextOf([u][..0]) + (if IsTextItem(u) then u.ast.text else "");
    var p := Push(acc, u);
    if |acc| > 0 && IsTextItem(acc[|acc| - 1]) && IsTextItem(u) {
      assert p[..|p| - 1] == acc[..|acc| - 1];
    } else {
      assert p[..|p| - 1] == acc;
    }
  }

  lemma PushNonTexts(acc: seq<Item>, u: Item)
    ensures NonTexts(Push(acc, u)) == NonTexts(acc) + NonTexts([u])
  {
    assert NonTexts([u]) == NonTexts([u][..0]) + (if IsTextItem(u) then [] else [u]);
    var p := Push(acc, u);
    if |acc| > 0 && IsTextItem(acc[|acc| - 1]) && IsTextItem(u) {
      assert p[..|p| - 1] == acc[..|acc| - 1];
    } else {
      assert p[..|p| - 1] == acc;
    }
  }

  lemma PushShape(acc: seq<Item>, u: Item)
    ensures AllNodes(acc) && u.Node? ==> AllNodes(Push(acc, u))
    ensures NoAdjacentTexts(acc) ==> NoAdjacentTexts(Push(acc, u))
    ensures |Push(acc, u)| <= |acc| + 1
  {
  }

  /** Gluing a text onto the text before it leaves the runs as plain appending would. */
  lemma PushRuns(acc: seq<Item>, u: Item)
    ensures Runs(Push(acc, u)) == Runs(acc + [u])
  {
    if |acc| > 0 && IsTextItem(acc[|acc| - 1]) && IsTextItem(u) {
      var init := acc[..|acc| - 1];
      var last := acc[|acc| - 1];
      var glued := Node(last.ast.(text := last.ast.text + u.ast.text));
      var rs := Runs(init);
      var n := |rs|;
      assert Push(acc, u) == init + [glued];
      RunsSnoc(init, glued);
      assert init + [last] == acc;
      RunsSnoc(init, last);
      RunsSnoc(acc, u);
      var ra := Runs(acc);
      assert ra[..n - 1] == rs[..n - 1] && ra[n - 1] == rs[n - 1] + last.ast.text;
      assert rs[n - 1] + last.ast.text + u.ast.text == rs[n - 1] + (last.ast.text + u.ast.text);
    }
  }

  lemma RunsSnoc(a: seq<Item>, x: Item)
    ensures Runs(a + [x]) == AddRun(Runs(a), x)
  {
    assert (a + [x])[..|a|] == a;
  }

  // Sequence identities, stated apart so that no view of the items is in scope when they are proved.

  lemma SnocSplit<T>(a: seq<T>, c: seq<T>)
    requires c != []
    ensures a + c == (a + c[..|c| - 1]) + [c[|c| - 1]]
  {
  }

  lemma ConsSplit<T>(a: seq<T>, c: seq<T>)
    requires c != []
    ensures a + [c[0]] + c[1..] == a + c
  {
  }

  /** The runs of `a + c` depend on `a` only through its runs. */
  lemma {:induction false} RunsAppend(a: seq<Item>, b: seq<Item>, c: seq<Item>)
    requires Runs(a) == Runs(b)
    ensures Runs(a + c) == Runs(b + c)
    decreases |c|
  {
    if c == [] {
      assert a + c == a && b + c == b;
    } else {
      var c', x := c[..|c| - 1], c[|c| - 1];
      RunsAppend(a, b, c');
      SnocSplit(a, c);
      SnocSplit(b, c);
      RunsSnoc(a + c', x);
      RunsSnoc(b + c', x);
    }
  }

  /** Gluing keeps every run of text where it was: between the same two non-text nodes. */
  lemma {:induction false} MergeFromRuns(acc: seq<Item>, us: seq<Item>)
    ensures Runs(MergeFrom(acc, us)) == Runs(acc + us)
    decreases |us|
  {
    if us == [] {
      assert acc + us == acc;
    } else {
      PushRuns(acc, us[0]);
      MergeFromRuns(Push(acc, us[0]), us[1..]);
      RunsAppend(Push(acc, us[0]), acc + [us[0]], us[1..]);
      ConsSplit(acc, us);
    }
  }

  /** Gluing keeps the concatenated text of the text nodes. */
  lemma {:induction false} MergeFromText(acc: seq<Item>, us: seq<Item>)
    ensures TextOf(MergeFrom(acc, us)) == TextOf(acc) + TextOf(us)
    decreases |us|
  {
    if us != [] {
      PushText(acc, us[0]);
      MergeFromText(Push(acc, us[0]), us[1..]);
      ViewsSplit([us[0]], us[1..]);
      assert [us[0]] + us[1..] == us;
    }
  }

  /** Gluing keeps every other node, in order. */
  lemma {:induction false} MergeFromNonTexts(acc: seq<Item>, us: seq<Item>)
    ensures NonTexts(MergeFrom(acc, us)) == NonTexts(acc) + NonTexts(us)
    decreases |us|
  {
    if us != [] {
      PushNonTexts(acc, us[0]);
      MergeFromNonTexts(Push(acc, us[0]), us[1..]);
      ViewsSplit([us[0]], us[1..]);
      assert [us[0]] + us[1..] == us;
    }
  }

  /** Gluing yields nodes only, never two text nodes side by side, and no more items than it was given. */
  lemma {:induction false} MergeFromShape(acc: seq<Item>, us: seq<Item>)
    ensures AllNodes(acc) && AllNodes(us) ==> AllNodes(MergeFrom(acc, us))
    ensures NoAdjacentTexts(acc) ==> NoAdjacentTexts(MergeFrom(acc, us))
    ensures |MergeFrom(acc, us)| <= |acc| + |us|
    decreases |us|
  {
    if us != [] {
      PushShape(acc, us[0]);
      MergeFromShape(Push(acc, us[0]), us[1..]);
    }
  }

  /** Both views distribute over concatenation. */
  lemma {:induction false} ViewsSplit(a: seq<Item>, b: seq<Item>)
    ensures TextOf(a + b) == TextOf(a) + TextOf(b)
    ensures NonTexts(a + b) == NonTexts(a) + NonTexts(b)
    decreases |b|
  {
    if b == [] {
      assert a + b == a;
    } else {
      var b' := b[..|b| - 1];
      assert (a + b)[..|a + b| - 1] == a + b';
      ViewsSplit(a, b');
    }
  }

  // ---------------------------------------------------------------------------
  // Properties of process_sequence

  /**
   * The result holds only nodes, no two text nodes are adjacent, the texts of
   * the text nodes read the same as before gluing, every other node is kept,
   * in order, and each run of text stays between the same two non-text nodes.
   */
  lemma ProcessSeqShape(s: seq<Item>)
    ensures AllNodes(ProcessSeq(s))
    ensures NoAdjacentTexts(ProcessSeq(s))
    ensures TextOf(ProcessSeq(s)) == TextOf(Units(s))
    ensures NonTexts(ProcessSeq(s)) == NonTexts(Units(s))
    ensures Runs(ProcessSeq(s)) == Runs(Units(s))
    ensures |ProcessSeq(s)| <= |Units(s)|
  {
    UnitsShape(s);
    MergeFromRuns([], Units(s));
    assert [] + Units(s) == Units(s);
    MergeFromText([], Units(s));
    MergeFromNonTexts([], Units(s));
    MergeFromShape([], Units(s));
  }

  /** Splitting into units yields nodes only, and no more of them than there were items. */
  lemma {:induction false} UnitsShape(s: seq<Item>)
    ensures AllNodes(Units(s)) && |Units(s)| <= |s|
    decreases |s|
  {
    if s == [] {
    } else if !s[0].Node? {
      UnitsShape(s[1..]);
    } else if s[0].ast.nodeType == Cmd {
      var k := Min(s[0].ast.argNumber, |s| - 1);
      UnitsShape(s[1 + k..]);
    } else {
      UnitsShape(s[1..]);
    }
  }

  /** A command node takes at most `arg_number` children, and fewer only when the input runs out. */
  lemma {:induction false} UnitsArity(s: seq<Item>)
    ensures forall i :: 0 <= i < |Units(s)| && IsCmdItem(Units(s)[i]) ==>
      |Units(s)[i].ast.children| <= Units(s)[i].ast.argNumber
    ensures forall i :: 0 <= i < |Units(s)| - 1 && IsCmdItem(Units(s)[i]) ==>
      |Units(s)[i].ast.children| == Units(s)[i].ast.argNumber
    decreases |s|
  {
    if s == [] {
    } else if !s[0].Node? {
      UnitsArity(s[1..]);
    } else if s[0].ast.nodeType == Cmd {
      var k := Min(s[0].ast.argNumber, |s| - 1);
      UnitsArity(s[1 + k..]);
      var u := Node(s[0].ast.(children := s[1..1 + k]));
      assert Units(s) == [u] + Units(s[1 + k..]);
      if k < s[0].ast.argNumber {
        assert s[1 + k..] == [];
      }
    } else {
      UnitsArity(s[1..]);
      assert Units(s) == [s[0]] + Units(s[1..]);
    }
  }

  /** A command's children are put back right after it. */
  function Flatten(us: seq<Item>): seq<Item>
  {
    if us == [] then []
    else if IsCmdItem(us[0]) then [Node(us[0].ast.(children := []))] + us[0].ast.children + Flatten(us[1..])
    else [us[0]] + Flatten(us[1..])
  }

  predicate FreshCommands(s: seq<Item>)
  {
    forall i :: 0 <= i < |s| && IsCmdItem(s[i]) ==> s[i].ast.children == []
  }

  /**
   * One pass over `s` that drops what `process_sequence` skips: `owed` counts
   * the argument slots still open after the last command. An item in a slot is
   * kept as it is; outside one, a marker or name is dropped, a command is kept
   * (without children) and opens `arg_number` slots, and any other node is kept.
   */
  function Kept(s: seq<Item>, owed: nat): seq<Item>
    decreases |s|
  {
    if s == [] then []
    else if owed > 0 then [s[0]] + Kept(s[1..], owed - 1)
    else if !s[0].Node? then Kept(s[1..], 0)
    else if s[0].ast.nodeType == Cmd then [Node(s[0].ast.(children := []))] + Kept(s[1..], s[0].ast.argNumber)
    else [s[0]] + Kept(s[1..], 0)
  }

  /**
   * Splitting into units loses, duplicates and reorders nothing but the
   * markers and names outside every command's arguments: putting each
   * command's children back after it gives exactly the items the pass `Kept`
   * keeps, so a command's children are the raw items right after it, markers
   * and names included. On nodes whose commands have no children yet, that is
   * the input itself.
   */
  lemma {:induction false} UnitsRoundTrip(s: seq<Item>)
    ensures Flatten(Units(s)) == Kept(s, 0)
    ensures AllNodes(s) && FreshCommands(s) ==> Flatten(Units(s)) == s
    decreases |s|
  {
    if s != [] {
      if !s[0].Node? {
        UnitsRoundTrip(s[1..]);
      } else if s[0].ast.nodeType == Cmd {
        UnitsRoundTrip(s[1 + Min(s[0].ast.argNumber, |s| - 1)..]);
        CommandRoundTrip(s);
      } else {
        UnitsRoundTrip(s[1..]);
        FlattenCons(s[0], Units(s[1..]));
      }
    }
    if AllNodes(s) && FreshCommands(s) {
      KeptNodes(s);
    }
  }

  /** The command case of `UnitsRoundTrip`: the command, then its arguments, then the rest. */
  lemma CommandRoundTrip(s: seq<Item>)
    requires s != [] && IsCmdItem(s[0])
    requires Flatten(Units(s[1 + Min(s[0].ast.argNumber, |s| - 1)..])) == Kept(s[1 + Min(s[0].ast.argNumber, |s| - 1)..], 0)
    ensures Flatten(Units(s)) == Kept(s, 0)
  {
    FlattenCommand(s);
    KeptCommand(s, Min(s[0].ast.argNumber, |s| - 1));
  }

  lemma FlattenCommand(s: seq<Item>)
    requires s != [] && IsCmdItem(s[0])
    ensures var k := Min(s[0].ast.argNumber, |s| - 1);
      Flatten(Units(s)) == [Node(s[0].ast.(children := []))] + s[1..1 + k] + Flatten(Units(s[1 + k..]))
  {
    var k := Min(s[0].ast.argNumber, |s| - 1);
    var u := Node(s[0].ast.(children := s[1..1 + k]));
    assert Units(s) == [u] + Units(s[1 + k..]);
    FlattenCons(u, Units(s[1 + k..]));
    assert u.ast.(children := []) == s[0].ast.(children := []);
  }

  lemma KeptCommand(s: seq<Item>, k: nat)
    requires s != [] && IsCmdItem(s[0]) && k == Min(s[0].ast.argNumber, |s| - 1)
    ensures Kept(s, 0) == [Node(s[0].ast.(children := []))] + s[1..1 + k] + Kept(s[1 + k..], 0)
  {
    KeptHead(s);
    KeptSlots(s[1..], s[0].ast.argNumber, k, s[1..1 + k], s[1 + k..]);
    ConsAssoc(Node(s[0].ast.(children := [])), s[1..1 + k], Kept(s[1 + k..], 0));
  }

  lemma ConsAssoc<T>(x: T, a: seq<T>, b: seq<T>)
    ensures [x] + (a + b) == [x] + a + b
  {
  }

  lemma KeptSlots(t: seq<Item>, owed: nat, k: nat, front: seq<Item>, back: seq<Item>)
    requires k == Min(owed, |t|) && front == t[..k] && back == t[k..]
    ensures Kept(t, owed) == front + Kept(back, 0)
  {
    KeptOwed(t, owed);
  }

  lemma KeptHead(s: seq<Item>)
    requires s != [] && IsCmdItem(s[0])
    ensures Kept(s, 0) == [Node(s[0].ast.(children := []))] + Kept(s[1..], s[0].ast.argNumber)
  {
  }

  /** The open slots take the next items as they are. */
  lemma {:induction false} KeptOwed(s: seq<Item>, owed: nat)
    ensures Kept(s, owed) == s[..Min(owed, |s|)] + Kept(s[Min(owed, |s|)..], 0)
    decreases |s|
  {
    if s == [] {
    } else if owed == 0 {
      assert s[..0] == [] && s[0..] == s;
    } else {
      var m := Min(owed - 1, |s| - 1);
      KeptOwed(s[1..], owed - 1);
      assert Min(owed, |s|) == m + 1;
      assert s[..m + 1] == [s[0]] + s[1..][..m];
      assert s[1..][m..] == s[m + 1..];
    }
  }

  /** On nodes whose commands have no children, the pass keeps everything. */
  lemma {:induction false} KeptNodes(s: seq<Item>)
    requires AllNodes(s) && FreshCommands(s)
    ensures Kept(s, 0) == s
    decreases |s|
  {
    if s != [] {
      var owed := if s[0].ast.nodeType == Cmd then s[0].ast.argNumber else 0;
      var t := s[1..];
      var m := Min(owed, |t|);
      KeptFirst(s);
      KeptSlots(t, owed, m, t[..m], t[m..]);
      NodesSuffix(s, 1 + m, t[m..]);
      KeptNodes(t[m..]);
      Rejoin(s, m);
    }
  }

  lemma NodesSuffix(s: seq<Item>, j: nat, r: seq<Item>)
    requires AllNodes(s) && FreshCommands(s) && 1 <= j <= |s| && r == s[1..][j - 1..]
    ensures AllNodes(r) && FreshCommands(r)
  {
    forall i | 0 <= i < |r| ensures r[i] == s[j + i] { }
  }

  lemma Rejoin<T>(s: seq<T>, m: nat)
    requires 1 + m <= |s|
    ensures [s[0]] + (s[1..][..m] + s[1..][m..]) == s
  {
    assert s[1..][..m] + s[1..][m..] == s[1..];
  }

  /** The pass at a node outside every argument slot. */
  lemma KeptFirst(s: seq<Item>)
    requires s != [] && s[0].Node? && FreshCommands(s)
    ensures Kept(s, 0) == [s[0]] + Kept(s[1..], if s[0].ast.nodeType == Cmd then s[0].ast.argNumber else 0)
  {
    if s[0].ast.nodeType == Cmd {
      assert s[0].ast.children == [];
      assert Node(s[0].ast.(children := [])) == s[0];
    }
  }

  lemma FlattenCons(u: Item, rest: seq<Item>)
    ensures Flatten([u] + rest) ==
      (if IsCmdItem(u) then [Node(u.ast.(children := []))] + u.ast.children else [u]) + Flatten(rest)
  {
    assert ([u] + rest)[0] == u;
    assert ([u] + rest)[1..] == rest;
  }

  lemma Reassemble(s: seq<Item>, k: nat)
    requires 1 + k <= |s|
    ensures [s[0]] + s[1..1 + k] + s[1 + k..] == s
    ensures k == 0 ==> [s[0]] + s[1..] == s
  {
  }

  /** Containers: block, line, cell and environment nodes. */
  predicate IsPlainNode(it: Item)
  {
    it.Node? && it.ast.nodeType != Text && it.ast.nodeType != Cmd
  }

  /** A sequence of container nodes passes through unchanged. */
  lemma {:induction false} ProcessSeqPlain(s: seq<Item>)
    requires forall i :: 0 <= i < |s| ==> IsPlainNode(s[i])
    ensures ProcessSeq(s) == s
  {
    UnitsPlain(s);
    MergePlain([], s);
  }

  lemma {:induction false} UnitsPlain(s: seq<Item>)
    requires forall i :: 0 <= i < |s| ==> IsPlainNode(s[i])
    ensures Units(s) == s
    decreases |s|
  {
    if s != [] {
      UnitsPlain(s[1..]);
      assert [s[0]] + s[1..] == s;
    }
  }

  lemma {:induction false} MergePlain(acc: seq<Item>, s: seq<Item>)
    requires forall i :: 0 <= i < |s| ==> IsPlainNode(s[i])
    ensures MergeFrom(acc, s) == acc + s
    decreases |s|
  {
    if s != [] {
      assert Push(acc, s[0]) == acc + [s[0]];
      MergePlain(acc + [s[0]], s[1..]);
      assert acc + [s[0]] + s[1..] == acc + s;
    }
  }
}
