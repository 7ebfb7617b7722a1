/**
 * mathtex/htmlrender.py: lays a parsed tree out as nested boxes.
 *
 * A Text node becomes a box with one child per character, placed left to
 * right; a Block or Cell node becomes a box whose children are the rendered
 * children, placed left to right and aligned on a common baseline. Widths,
 * heights and baselines are in em and are modelled as exact `real`s; the
 * font's metrics are a parameter.
 */
module HtmlRendering {
  import opened Wrappers
  import opened Astree
  import opened FontMetric

  /** The box record of htmlrender.py; `x` and `y` are relative to the parent box. */
  datatype Element = Element(
    x: real,
    y: real,
    width: Option<real>,
    height: Option<real>,
    baseline: real,
    fontSize: real,
    cssClass: Option<string>,
    text: Option<string>,
    children: seq<Element>)

  /** A box as the record's initialiser leaves it. */
  function Blank(): Element
  {
    Element(0.0, 0.0, None, None, 0.0, 1.0, None, None, [])
  }

  /** The renderer's settings: the font, `char_margin` and `line_height`. */
  datatype Settings = Settings(fm: FontMetrics, margin: real, lineHeight: real)

  /** A box whose width and height have been computed. */
  predicate Boxed(e: Element)
  {
    e.width.Some? && e.height.Some?
  }

  predicate AllBoxed(es: seq<Element>)
  {
    forall i :: 0 <= i < |es| ==> Boxed(es[i])
  }

  // ---------------------------------------------------------------------
  // Text boxes

  /** The summed glyph widths of `s`, at font size 1. */
  function GlyphSum(fm: FontMetrics, s: string): real
  {
    if s == [] then 0.0 else GlyphSum(fm, s[..|s| - 1]) + fm.glyphWidth(s[|s| - 1])
  }

  /** Where the glyph at index `i` starts: the glyphs before it and one margin after each of them. */
  function GlyphX(cfg: Settings, s: string, i: nat, fs: real): real
    requires i <= |s|
  {
    fs * GlyphSum(cfg.fm, s[..i]) + (i as real) * (cfg.margin * fs)
  }

  /** The width of a text box: every glyph and the margins between neighbours. */
  function TextWidth(cfg: Settings, s: string, fs: real): real
  {
    if s == [] then 0.0 else fs * (GlyphSum(cfg.fm, s) + cfg.margin * ((|s| - 1) as real))
  }

  /** The box of one character. */
  function Glyph(c: char, fs: real, x: real): Element
  {
    Blank().(x := x, text := Some([c]), fontSize := fs)
  }

  /** The box `render_text(s, fs)` returns. */
  function TextElement(cfg: Settings, s: string, fs: real): Element
  {
    Blank().(
      width := Some(TextWidth(cfg, s, fs)),
      height := Some(cfg.lineHeight * fs),
      baseline := ((cfg.lineHeight - cfg.fm.height) / 2.0 + cfg.fm.baseline) * fs,
      fontSize := fs,
      children := seq(|s|, i requires 0 <= i < |s| => Glyph(s[i], fs, GlyphX(cfg, s, i, fs))))
  }

  lemma GlyphSumSnoc(fm: FontMetrics, s: string, i: nat)
    requires i < |s|
    ensures GlyphSum(fm, s[..i + 1]) == GlyphSum(fm, s[..i]) + fm.glyphWidth(s[i])
  {
    assert s[..i + 1][..i] == s[..i];
  }

  lemma MulMono(k: real, a: real, b: real)
    requires k >= 0.0 && a <= b
    ensures k * a <= k * b && a * k <= b * k
  {
  }

  lemma MulNonNeg(a: real, b: real)
    requires a >= 0.0 && b >= 0.0
    ensures a * b >= 0.0
  {
  }

  lemma {:induction false} GlyphSumMono(fm: FontMetrics, s: string, i: nat, j: nat)
    requires ValidMetrics(fm)
    requires i <= j <= |s|
    ensures GlyphSum(fm, s[..i]) <= GlyphSum(fm, s[..j])
    decreases j - i
  {
    if i < j {
      GlyphSumMono(fm, s, i, j - 1);
      GlyphSumSnoc(fm, s, j - 1);
    }
  }

  /** A text box holds one box per character, in order, each carrying its character and the font size. */
  lemma TextChildren(cfg: Settings, s: string, fs: real)
    ensures var t := TextElement(cfg, s, fs);
      && |t.children| == |s|
      && forall i :: 0 <= i < |s| ==>
        && t.children[i].text == Some([s[i]])
        && t.children[i].fontSize == fs
        && t.children[i].x == GlyphX(cfg, s, i, fs)
        && t.children[i].y == 0.0
  {
  }

  /**
   * Neighbouring characters are one glyph width and one margin apart, and the
   * box ends one glyph width after its last character starts.
   */
  lemma TextTiling(cfg: Settings, s: string, fs: real)
    ensures forall i :: 0 <= i < |s| - 1 ==>
      GlyphX(cfg, s, i + 1, fs) == GlyphX(cfg, s, i, fs) + fs * cfg.fm.glyphWidth(s[i]) + cfg.margin * fs
    ensures |s| > 0 ==> TextWidth(cfg, s, fs) == GlyphX(cfg, s, |s| - 1, fs) + fs * cfg.fm.glyphWidth(s[|s| - 1])
  {
    forall i | 0 <= i < |s| - 1
      ensures GlyphX(cfg, s, i + 1, fs) == GlyphX(cfg, s, i, fs) + fs * cfg.fm.glyphWidth(s[i]) + cfg.margin * fs
    {
      GlyphSumSnoc(cfg.fm, s, i);
    }
    if |s| > 0 {
      GlyphSumSnoc(cfg.fm, s, |s| - 1);
      assert s[..|s|] == s;
    }
  }

  /** With non-negative glyph widths, margin and size, characters never move left. */
  lemma TextXMonotone(cfg: Settings, s: string, fs: real, i: nat, j: nat)
    requires ValidMetrics(cfg.fm) && cfg.margin >= 0.0 && fs >= 0.0
    requires i <= j <= |s|
    ensures GlyphX(cfg, s, i, fs) <= GlyphX(cfg, s, j, fs)
  {
    var k := cfg.margin * fs;
    var gi, gj := GlyphSum(cfg.fm, s[..i]), GlyphSum(cfg.fm, s[..j]);
    GlyphSumMono(cfg.fm, s, i, j);
    MulMono(fs, gi, gj);
    MulNonNeg(cfg.margin, fs);
    MulMono(k, i as real, j as real);
    assert GlyphX(cfg, s, i, fs) == fs * gi + (i as real) * k;
    assert GlyphX(cfg, s, j, fs) == fs * gj + (j as real) * k;
  }

  // ---------------------------------------------------------------------
  // Block boxes

  /** The summed widths of the boxes. */
  function SumWidths(es: seq<Element>): real
    requires AllBoxed(es)
  {
    if es == [] then 0.0 else SumWidths(es[..|es| - 1]) + es[|es| - 1].width.value
  }

  /** Where child `i` of a block starts: the children before it and one margin after each. */
  function BlockX(cfg: Settings, es: seq<Element>, i: nat, fs: real): real
    requires i <= |es| && AllBoxed(es)
  {
    SumWidths(es[..i]) + (i as real) * (cfg.margin * fs)
  }

  function BlockWidth(cfg: Settings, es: seq<Element>, fs: real): real
    requires AllBoxed(es)
  {
    if es == [] then 0.0 else SumWidths(es) + ((|es| - 1) as real) * (cfg.margin * fs)
  }

  function Max(a: real, b: real): real
  {
    if b > a then b else a
  }

  /** The running maximum of the heights, starting from 0. */
  function MaxHeight(es: seq<Element>): real
    requires AllBoxed(es)
  {
    if es == [] then 0.0 else Max(MaxHeight(es[..|es| - 1]), es[|es| - 1].height.value)
  }

  /** The running maximum of the baselines, starting from 0. */
  function MaxBaseline(es: seq<Element>): real
  {
    if es == [] then 0.0 else Max(MaxBaseline(es[..|es| - 1]), es[|es| - 1].baseline)
  }

  /** The children placed side by side, before their vertical offsets are set. */
  function Placed(cfg: Settings, es: seq<Element>, fs: real): seq<Element>
    requires AllBoxed(es)
  {
    seq(|es|, i requires 0 <= i < |es| => es[i].(x := BlockX(cfg, es, i, fs), y := 0.0))
  }

  /** Each box moved down so that its baseline lies at `baseline`. */
  function Aligned(es: seq<Element>, baseline: real): seq<Element>
  {
    seq(|es|, i requires 0 <= i < |es| => es[i].(y := baseline - es[i].baseline))
  }

  /** The block box once the children `es` are placed, before they are aligned. */
  function BlockState(cfg: Settings, es: seq<Element>, fs: real): Element
    requires AllBoxed(es)
  {
    Blank().(
      width := Some(BlockWidth(cfg, es, fs)),
      height := Some(MaxHeight(es)),
      baseline := MaxBaseline(es),
      children := Placed(cfg, es, fs))
  }

  /** The box `render_block` returns for already rendered children `es`. */
  function BlockElement(cfg: Settings, es: seq<Element>, fs: real): Element
    requires AllBoxed(es)
  {
    var placed := BlockState(cfg, es, fs);
    placed.(children := Aligned(placed.children, placed.baseline))
  }

  lemma SnocPrefix<T>(s: seq<T>, i: nat)
    requires i < |s|
    ensures s[..i + 1][..i] == s[..i] && s[..i + 1][i] == s[i]
  {
  }

  /** Neighbouring children are one width and one margin apart, and the block ends with its last child. */
  lemma BlockTiling(cfg: Settings, es: seq<Element>, fs: real)
    requires AllBoxed(es)
    ensures forall i :: 0 <= i < |es| - 1 ==>
      BlockX(cfg, es, i + 1, fs) == BlockX(cfg, es, i, fs) + es[i].width.value + cfg.margin * fs
    ensures |es| > 0 ==> BlockWidth(cfg, es, fs) == BlockX(cfg, es, |es| - 1, fs) + es[|es| - 1].width.value
  {
    forall i | 0 <= i < |es| - 1
      ensures BlockX(cfg, es, i + 1, fs) == BlockX(cfg, es, i, fs) + es[i].width.value + cfg.margin * fs
    {
      SnocPrefix(es, i);
    }
    if |es| > 0 {
      SnocPrefix(es, |es| - 1);
      assert es[..|es|] == es;
    }
  }

  /** The block's height is 0 or the tallest child's, and no child is taller. */
  lemma {:induction false} MaxHeightIsMax(es: seq<Element>)
    requires AllBoxed(es)
    ensures MaxHeight(es) >= 0.0
    ensures forall i :: 0 <= i < |es| ==> es[i].height.value <= MaxHeight(es)
    ensures MaxHeight(es) == 0.0 || exists i :: 0 <= i < |es| && MaxHeight(es) == es[i].height.value
  {
    if es != [] {
      var init := es[..|es| - 1];
      MaxHeightIsMax(init);
      assert forall i :: 0 <= i < |init| ==> init[i] == es[i];
    }
  }

  /** The block's baseline is 0 or the lowest child baseline, and no child's lies below it. */
  lemma {:induction false} MaxBaselineIsMax(es: seq<Element>)
    ensures MaxBaseline(es) >= 0.0
    ensures forall i :: 0 <= i < |es| ==> es[i].baseline <= MaxBaseline(es)
    ensures MaxBaseline(es) == 0.0 || exists i :: 0 <= i < |es| && MaxBaseline(es) == es[i].baseline
  {
    if es != [] {
      var init := es[..|es| - 1];
      MaxBaselineIsMax(init);
      assert forall i :: 0 <= i < |init| ==> init[i] == es[i];
    }
  }

  /**
   * Every child of a block shares the block's baseline, sits at a
   * non-negative vertical offset, and keeps its own size.
   */
  lemma BlockAligned(cfg: Settings, es: seq<Element>, fs: real)
    requires AllBoxed(es)
    ensures var b := BlockElement(cfg, es, fs);
      && |b.children| == |es|
      && forall i :: 0 <= i < |es| ==>
        && b.children[i].y + b.children[i].baseline == b.baseline
        && b.children[i].y >= 0.0
        && b.children[i].x == BlockX(cfg, es, i, fs)
        && b.children[i].width == es[i].width
        && b.children[i].height == es[i].height
  {
    MaxBaselineIsMax(es);
  }

  // ---------------------------------------------------------------------
  // Dispatch

  /** A tree `render` can lay out: Text nodes, and Block or Cell nodes whose children all are. */
  predicate Renderable(it: Item)
    decreases ItemNodeCount(it), 0, 0
  {
    && it.Node?
    && (ChildrenBelow(it);
       match it.ast.nodeType
       case Text => true
       case Block => RenderableAll(it.ast.children)
       case Cell => RenderableAll(it.ast.children)
       case _ => false)
  }

  predicate RenderableAll(items: seq<Item>)
    decreases ItemsNodeCount(items), 1, 0
  {
    forall i :: 0 <= i < |items| ==> (ItemBelow(items, i); Renderable(items[i]))
  }

  /** One child counts no more nodes than the whole list. */
  lemma {:induction false} ItemBelow(items: seq<Item>, i: nat)
    requires i < |items|
    ensures ItemNodeCount(items[i]) <= ItemsNodeCount(items)
  {
    if i > 0 {
      ItemBelow(items[1..], i - 1);
    }
  }

  /** A node counts more nodes than its children together. */
  lemma ChildrenBelow(it: Item)
    requires it.Node?
    ensures ItemsNodeCount(it.ast.children) < ItemNodeCount(it)
  {
  }

  /** A list's node count is that of all but its last item plus that of the last. */
  lemma {:induction false} ItemsCountSnoc(items: seq<Item>)
    requires items != []
    ensures ItemsNodeCount(items) == ItemsNodeCount(items[..|items| - 1]) + ItemNodeCount(items[|items| - 1])
  {
    if |items| > 1 {
      ItemsCountSnoc(items[1..]);
      assert items[1..][..|items| - 2] == items[..|items| - 1][1..];
    }
  }

  /**
   * What `render(it, fs)` returns: a Text node's box, a Block or Cell node's
   * block box, and None for any other kind of node. A raw marker or name in a
   * child list has no node type at all, and a None child makes `render_block`
   * fail on its first field access; both are None here too.
   */
  function RenderItem(cfg: Settings, it: Item, fs: real): (r: Option<Element>)
    ensures r.Some? ==> Boxed(r.value)
    decreases ItemNodeCount(it), 0, 0
  {
    if !it.Node? then None
    else
      ChildrenBelow(it);
      match it.ast.nodeType
      case Text => Some(TextElement(cfg, it.ast.text, fs))
      case Block => BlockResult(cfg, it.ast.children, fs)
      case Cell => BlockResult(cfg, it.ast.children, fs)
      case _ => None
  }

  /** What `render_block(children, fs)` returns. */
  function BlockResult(cfg: Settings, children: seq<Item>, fs: real): (r: Option<Element>)
    ensures r.Some? ==> Boxed(r.value)
    decreases ItemsNodeCount(children), 2, 0
  {
    match RenderAll(cfg, children, fs)
    case None => None
    case Some(es) => Some(BlockElement(cfg, es, fs))
  }

  /** Every item rendered in order, or None as soon as one of them cannot be. */
  function RenderAll(cfg: Settings, items: seq<Item>, fs: real): (r: Option<seq<Element>>)
    ensures r.Some? ==> |r.value| == |items| && AllBoxed(r.value)
    decreases ItemsNodeCount(items), 1, |items|
  {
    if items == [] then Some([])
    else
      ItemsCountSnoc(items);
      match RenderAll(cfg, items[..|items| - 1], fs)
      case None => None
      case Some(es) =>
        match RenderItem(cfg, items[|items| - 1], fs)
        case None => None
        case Some(e) => Some(es + [e])
  }

  /** Each rendered box is the rendering of the item at the same position. */
  lemma {:induction false} RenderAllAt(cfg: Settings, items: seq<Item>, fs: real, i: nat)
    requires RenderAll(cfg, items, fs).Some? && i < |items|
    ensures RenderItem(cfg, items[i], fs) == Some(RenderAll(cfg, items, fs).value[i])
  {
    if i < |items| - 1 {
      RenderAllAt(cfg, items[..|items| - 1], fs, i);
    }
  }

  /** `render` produces a box exactly for the trees it can lay out. */
  lemma {:induction false} RenderSomeIff(cfg: Settings, it: Item, fs: real)
    ensures RenderItem(cfg, it, fs).Some? <==> Renderable(it)
    decreases ItemNodeCount(it), 0, 0
  {
    if it.Node? && it.ast.nodeType in {Block, Cell} {
      ChildrenBelow(it);
      RenderAllSomeIff(cfg, it.ast.children, fs);
    }
  }

  lemma {:induction false} RenderAllSomeIff(cfg: Settings, items: seq<Item>, fs: real)
    ensures RenderAll(cfg, items, fs).Some? <==> RenderableAll(items)
    decreases ItemsNodeCount(items), 1, |items|
  {
    if items != [] {
      var init, last := items[..|items| - 1], items[|items| - 1];
      ItemsCountSnoc(items);
      RenderAllSomeIff(cfg, init, fs);
      RenderSomeIff(cfg, last, fs);
      assert forall i :: 0 <= i < |init| ==> init[i] == items[i];
      if RenderableAll(items) {
        ItemBelow(items, |items| - 1);
        assert Renderable(items[|items| - 1]);
      }
    }
  }

  /**
   * The renderer. Its settings are fixed by the constructor: no margin
   * between characters and a line height equal to the font's.
   */
  class HtmlRender {
    const metrics: FontMetrics
    var htmlElements: seq<Element>
    const charMargin: real
    const lineHeight: real

    function Config(): Settings
    {
      Settings(metrics, charMargin, lineHeight)
    }

    constructor (fm: FontMetrics)
      ensures metrics == fm && htmlElements == [] && charMargin == 0.0 && lineHeight == fm.height
    {
      metrics := fm;
      htmlElements := [];
      charMargin := 0.0;
      lineHeight := fm.height;
    }

    /** `render`: dispatch on the node kind. */
    method Render(it: Item, fontSize: real) returns (r: Option<Element>)
      ensures r == RenderItem(Config(), it, fontSize)
      decreases ItemNodeCount(it), 0
    {
      if !it.Node? {
        return None;
      }
      var node := it.ast;
      assert ItemNodeCount(it) == 1 + ItemsNodeCount(node.children);
      if node.nodeType == Text {
        var e := RenderText(node.text, fontSize);
        return Some(e);
      }
      if node.nodeType == Block {
        r := RenderBlock(node.children, fontSize);
        return;
      }
      if node.nodeType == Cell {
        r := RenderBlock(node.children, fontSize);
        return;
      }
      return None;
    }

    /**
     * `render_text`: one character box per character, placed at the width
     * accumulated so far. With the constructor's line height the box's
     * baseline is the font's baseline at this size.
     */
    method RenderText(text: string, fontSize: real) returns (elem: Element)
      ensures elem == TextElement(Config(), text, fontSize)
      ensures lineHeight == metrics.height ==> elem.baseline == metrics.baseline * fontSize
    {
      var cfg := Config();
      elem := Blank();
      elem := elem.(width := Some(0.0));
      elem := elem.(height := Some(cfg.lineHeight * fontSize));
      elem := elem.(baseline := ((cfg.lineHeight - cfg.fm.height) / 2.0 + cfg.fm.baseline) * fontSize);
      elem := elem.(fontSize := fontSize);
      assert text[..0] == [];
      assert TextElement(cfg, [], fontSize).children == [];
      assert TextElement(cfg, [], fontSize).height.value == elem.height.value;
      for i := 0 to |text|
        invariant elem == TextElement(cfg, text[..i], fontSize)
      {
        var width := elem.width.value;
        if i > 0 {
          width := width + cfg.margin * fontSize;
        }
        ghost var w := width;
        var c := text[i];
        var child := Blank();
        child := child.(x := width);
        child := child.(y := 0.0);
        child := child.(text := Some([c]));
        child := child.(fontSize := fontSize);
        width := width + cfg.fm.glyphWidth(c) * fontSize;
        TextStep(cfg, text, i, fontSize);
        assert width == w + cfg.fm.glyphWidth(text[i]) * fontSize;
        assert child == Glyph(text[i], fontSize, w);
        elem := elem.(width := Some(width), children := elem.children + [child]);
      }
      assert text[..|text|] == text;
    }

    /**
     * `render_block`: each child rendered, placed at the width accumulated
     * so far, with the height and baseline kept as running maxima; then
     * every child moved down onto the common baseline.
     */
    method RenderBlock(children: seq<Item>, fontSize: real) returns (r: Option<Element>)
      ensures r == BlockResult(Config(), children, fontSize)
      decreases ItemsNodeCount(children), 1
    {
      var cfg := Config();
      var elem := Blank();
      elem := elem.(width := Some(0.0), height := Some(0.0), baseline := 0.0);
      ghost var es: seq<Element> := [];
      assert BlockState(cfg, es, fontSize).children == [];
      for i := 0 to |children|
        invariant RenderAll(cfg, children[..i], fontSize) == Some(es)
        invariant AllBoxed(es) && elem == BlockState(cfg, es, fontSize)
      {
        var width := elem.width.value;
        if i > 0 {
          width := width + cfg.margin * fontSize;
        }
        ItemBelow(children, i);
        var rendered := Render(children[i], fontSize);
        SnocPrefix(children, i);
        ItemsCountSnoc(children[..i + 1]);
        if rendered.None? {
          RenderAllPrefixNone(cfg, children, i + 1, fontSize);
          return None;
        }
        var child := rendered.value;
        BlockStep(cfg, es, child, fontSize);
        ghost var w := width;
        child := child.(x := width);
        child := child.(y := 0.0);
        var height := elem.height.value;
        if child.height.value > height {
          height := child.height.value;
        }
        var baseline := elem.baseline;
        if child.baseline > baseline {
          baseline := child.baseline;
        }
        width := width + child.width.value;
        assert width == w + rendered.value.width.value;
        assert height == Max(elem.height.value, rendered.value.height.value);
        elem := elem.(width := Some(width), height := Some(height), baseline := baseline,
                      children := elem.children + [child]);
        es := es + [rendered.value];
      }
      assert children[..|children|] == children;
      elem := Align(elem);
      return Some(elem);
    }

    /** The second loop of `render_block`: every child moved down so that its baseline lies on the box's. */
    static method Align(elem: Element) returns (r: Element)
      ensures r == elem.(children := Aligned(elem.children, elem.baseline))
    {
      var cs: seq<Element> := [];
      for j := 0 to |elem.children|
        invariant |cs| == j
        invariant forall k :: 0 <= k < j ==> cs[k] == elem.children[k].(y := elem.baseline - elem.children[k].baseline)
      {
        var child := elem.children[j];
        cs := cs + [child.(y := elem.baseline - child.baseline)];
      }
      r := elem.(children := cs);
    }
  }

  /** The width of a text box, split the way the loop accumulates it. */
  lemma TextWidthSplit(cfg: Settings, s: string, fs: real)
    requires s != []
    ensures TextWidth(cfg, s, fs) == fs * GlyphSum(cfg.fm, s) + ((|s| - 1) as real) * (cfg.margin * fs)
  {
  }

  /** One iteration of the text loop: the glyph goes where the width so far (plus a margin) ends. */
  lemma TextStepWidth(cfg: Settings, text: string, i: nat, fs: real)
    requires i < |text|
    ensures var before := TextWidth(cfg, text[..i], fs);
      var w := if i > 0 then before + cfg.margin * fs else before;
      && w == GlyphX(cfg, text, i, fs)
      && TextWidth(cfg, text[..i + 1], fs) == w + cfg.fm.glyphWidth(text[i]) * fs
  {
    var k := cfg.margin * fs;
    var g := GlyphSum(cfg.fm, text[..i]);
    GlyphSumSnoc(cfg.fm, text, i);
    TextWidthSplit(cfg, text[..i + 1], fs);
    if i > 0 {
      TextWidthSplit(cfg, text[..i], fs);
      assert ((i - 1) as real) * k + k == (i as real) * k;
    }
    assert fs * (g + cfg.fm.glyphWidth(text[i])) == fs * g + cfg.fm.glyphWidth(text[i]) * fs;
  }

  lemma TextStep(cfg: Settings, text: string, i: nat, fs: real)
    requires i < |text|
    ensures var before := TextElement(cfg, text[..i], fs);
      var w := if i > 0 then before.width.value + cfg.margin * fs else before.width.value;
      TextElement(cfg, text[..i + 1], fs) == before.(
        width := Some(w + cfg.fm.glyphWidth(text[i]) * fs),
        children := before.children + [Glyph(text[i], fs, w)])
  {
    TextStepWidth(cfg, text, i, fs);
    var before, after := TextElement(cfg, text[..i], fs), TextElement(cfg, text[..i + 1], fs);
    var glyph := Glyph(text[i], fs, GlyphX(cfg, text, i, fs));
    forall j | 0 <= j <= i
      ensures after.children[j] == (before.children + [glyph])[j]
    {
      GlyphXPrefix(cfg, text, i + 1, j, fs);
      if j < i {
        GlyphXPrefix(cfg, text, i, j, fs);
      }
    }
  }

  /** A character's position depends only on the characters before it. */
  lemma GlyphXPrefix(cfg: Settings, text: string, k: nat, j: nat, fs: real)
    requires j <= k <= |text|
    ensures GlyphX(cfg, text[..k], j, fs) == GlyphX(cfg, text, j, fs)
  {
    assert text[..k][..j] == text[..j];
  }

  /** Once a prefix of the children fails to render, so does the whole list. */
  lemma {:induction false} RenderAllPrefixNone(cfg: Settings, items: seq<Item>, k: nat, fs: real)
    requires k <= |items|
    requires RenderAll(cfg, items[..k], fs).None?
    ensures RenderAll(cfg, items, fs).None?
    decreases |items|
  {
    if k < |items| {
      var init := items[..|items| - 1];
      assert init[..k] == items[..k];
      RenderAllPrefixNone(cfg, init, k, fs);
    } else {
      assert items[..k] == items;
    }
  }

  /** One iteration of the block loop: the child goes where the width so far (plus a margin) ends. */
  lemma BlockStepWidth(cfg: Settings, es: seq<Element>, e: Element, fs: real)
    requires AllBoxed(es) && Boxed(e)
    ensures AllBoxed(es + [e])
    ensures var es' := es + [e];
      var w := if |es| > 0 then BlockWidth(cfg, es, fs) + cfg.margin * fs else BlockWidth(cfg, es, fs);
      && w == BlockX(cfg, es', |es|, fs)
      && BlockWidth(cfg, es', fs) == w + e.width.value
  {
    var es' := es + [e];
    var k := cfg.margin * fs;
    assert es'[..|es|] == es;
    assert es'[..|es'| - 1] == es;
    if |es| > 0 {
      assert ((|es| - 1) as real) * k + k == (|es| as real) * k;
    }
  }

  lemma BlockStepMax(es: seq<Element>, e: Element)
    requires AllBoxed(es) && Boxed(e)
    ensures AllBoxed(es + [e])
    ensures MaxHeight(es + [e]) == Max(MaxHeight(es), e.height.value)
    ensures MaxBaseline(es + [e]) == Max(MaxBaseline(es), e.baseline)
  {
    assert (es + [e])[..|es|] == es;
  }

  lemma BlockStepPlaced(cfg: Settings, es: seq<Element>, e: Element, fs: real)
    requires AllBoxed(es) && Boxed(e)
    ensures AllBoxed(es + [e])
    ensures Placed(cfg, es + [e], fs) == Placed(cfg, es, fs) + [e.(x := BlockX(cfg, es + [e], |es|, fs), y := 0.0)]
  {
    var es' := es + [e];
    var a, b := Placed(cfg, es', fs), Placed(cfg, es, fs) + [e.(x := BlockX(cfg, es', |es|, fs), y := 0.0)];
    forall j | 0 <= j <= |es|
      ensures a[j] == b[j]
    {
      if j < |es| {
        assert es'[..j] == es[..j];
      }
    }
  }

  lemma BlockStep(cfg: Settings, es: seq<Element>, e: Element, fs: real)
    requires AllBoxed(es) && Boxed(e)
    ensures AllBoxed(es + [e])
    ensures var st := BlockState(cfg, es, fs);
      var w := if |es| > 0 then st.width.value + cfg.margin * fs else st.width.value;
      BlockState(cfg, es + [e], fs) == st.(
        width := Some(w + e.width.value),
        height := Some(Max(st.height.value, e.height.value)),
        baseline := Max(st.baseline, e.baseline),
        children := st.children + [e.(x := w, y := 0.0)])
  {
    BlockStepWidth(cfg, es, e, fs);
    BlockStepMax(es, e);
    BlockStepPlaced(cfg, es, e, fs);
  }
}
