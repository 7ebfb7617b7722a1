/**
 * mathtex/htmlelement.py: the positioned box used for braces, brackets and
 * rules, with the helpers that build them.
 *
 * Boxes are objects whose fields are assigned after construction, so they
 * are a class here. Python's `a in b` on strings is a substring test, and
 * the brace helper relies on it; `Contains` models it.
 */
module HtmlElements {
  import opened Wrappers
  import opened FontMetric

  // ---------------------------------------------------------------------
  // Substring test

  /** Python's `needle in hay` for strings: `needle` occurs somewhere in `hay`. */
  predicate Contains(hay: string, needle: string)
    decreases |hay|
  {
    || (|needle| <= |hay| && hay[..|needle|] == needle)
    || (hay != [] && Contains(hay[1..], needle))
  }

  /** `needle` occurs in `hay` starting at index `i`. */
  predicate OccursAt(hay: string, needle: string, i: int)
  {
    0 <= i && i + |needle| <= |hay| && hay[i..i + |needle|] == needle
  }

  /** Where `Contains` succeeds, it has found an occurrence. */
  lemma {:induction false} ContainsWitness(hay: string, needle: string) returns (i: int)
    requires Contains(hay, needle)
    ensures OccursAt(hay, needle, i)
    decreases |hay|
  {
    if |needle| <= |hay| && hay[..|needle|] == needle {
      i := 0;
    } else {
      var j := ContainsWitness(hay[1..], needle);
      assert hay[j + 1..j + 1 + |needle|] == hay[1..][j..j + |needle|];
      i := j + 1;
    }
  }

  /** Every occurrence is found. */
  lemma {:induction false} ContainsFinds(hay: string, needle: string, i: int)
    requires OccursAt(hay, needle, i)
    ensures Contains(hay, needle)
    decreases i
  {
    if i > 0 {
      assert hay[1..][i - 1..i - 1 + |needle|] == hay[i..i + |needle|];
      ContainsFinds(hay[1..], needle, i - 1);
    }
  }

  /** `Contains` holds exactly when `needle` occurs somewhere in `hay`. */
  lemma ContainsIff(hay: string, needle: string)
    ensures Contains(hay, needle) <==> exists i :: OccursAt(hay, needle, i)
  {
    if Contains(hay, needle) {
      var i := ContainsWitness(hay, needle);
    }
    if exists i :: OccursAt(hay, needle, i) {
      var i :| OccursAt(hay, needle, i);
      ContainsFinds(hay, needle, i);
    }
  }

  /** For a single character, the substring test is plain membership. */
  lemma ContainsChar(hay: string, c: char)
    ensures Contains(hay, [c]) <==> c in hay
  {
    ContainsIff(hay, [c]);
    if c in hay {
      var i :| 0 <= i < |hay| && hay[i] == c;
      assert hay[i..i + 1] == [c];
      assert OccursAt(hay, [c], i);
    }
    if Contains(hay, [c]) {
      var i :| OccursAt(hay, [c], i);
      assert hay[i] == hay[i..i + 1][0];
    }
  }

  /** The empty string occurs in every string. */
  lemma ContainsEmpty(hay: string)
    ensures Contains(hay, "")
  {
    assert hay[..0] == "";
  }

  // ---------------------------------------------------------------------
  // Shapes

  /** `update_baseline`'s formula: the baseline of one line of text centred vertically in a box of height `h`. */
  function CenteredBaseline(fm: FontMetrics, h: real, fs: real): real
  {
    (h - fm.height * fs) / 2.0 + fm.baseline * fs
  }

  /** The brace is drawn on the left of what it encloses. */
  predicate IsLeft(brace: string)
  {
    Contains("([{", brace)
  }

  function Side(brace: string): string
  {
    if IsLeft(brace) then "left" else "right"
  }

  function Rounded(brace: string): string
  {
    if Contains("()", brace) then "-rounded" else ""
  }

  /** The class of a bracket's single part. */
  function BracketClass(brace: string): string
  {
    Side(brace) + "-bracket" + Rounded(brace)
  }

  /** The decimal digit of `i`, as `format` writes it. */
  function Digit(i: nat): char
    requires i < 10
  {
    (('0' as int) + i) as char
  }

  /** The class of part `i` of a curly brace drawn on side `side`. */
  function BraceClass(side: string, i: nat): string
    requires i < 4
  {
    side + "-brace" + [Digit(i)]
  }

  /** The height of a brace drawn for content of height `braceSize`. */
  function BraceHeight(braceSize: real, fs: real): real
  {
    braceSize - fs / 4.0
  }

  /** The horizontal offset of part `i` of a curly brace, left or right: 0 or a quarter em. */
  function PartX(isLeft: bool, i: nat): real
    requires i < 4
  {
    var offsets := if isLeft then [1, 0, 0, 1] else [0, 1, 1, 0];
    (offsets[i] as real) * 0.25
  }

  /** The vertical offset of part `i` of a curly brace of height `h`. */
  function PartY(i: nat, h: real): real
  {
    (i as real) / 4.0 * h
  }

  // ---------------------------------------------------------------------
  // Properties of the shapes

  /** A one-character brace is a left one exactly when it is an opening bracket. */
  lemma LeftIffOpening(c: char)
    ensures IsLeft([c]) <==> c == '(' || c == '[' || c == '{'
  {
    ContainsChar("([{", c);
  }

  /**
   * Which branch of `create_brace` a one-character brace takes: the bracket
   * shape for the four round and square brackets, the four-part shape for
   * the two curly ones, and nothing otherwise.
   */
  lemma BraceKinds(c: char)
    ensures Contains("([])", [c]) <==> c == '(' || c == '[' || c == ']' || c == ')'
    ensures Contains("{}", [c]) <==> c == '{' || c == '}'
    ensures Contains("()", [c]) <==> c == '(' || c == ')'
  {
    ContainsChar("([])", c);
    ContainsChar("{}", c);
    ContainsChar("()", c);
  }

  /** A one-character bracket's class: its side, then `-bracket`, then `-rounded` for parentheses only. */
  lemma BracketClassOf(c: char)
    requires c == '(' || c == '[' || c == ']' || c == ')'
    ensures BracketClass([c]) ==
      (if c == '(' || c == '[' then "left" else "right") + "-bracket" + (if c == '(' || c == ')' then "-rounded" else "")
  {
    LeftIffOpening(c);
    BraceKinds(c);
  }

  /** Every part's class starts with the brace's side. */
  lemma ClassSide(brace: string, i: nat)
    requires i < 4
    ensures IsLeft(brace) ==> BracketClass(brace)[..4] == "left" && BraceClass(Side(brace), i)[..4] == "left"
    ensures !IsLeft(brace) ==> BracketClass(brace)[..5] == "right" && BraceClass(Side(brace), i)[..5] == "right"
  {
    var side := Side(brace);
    assert BracketClass(brace) == side + ("-bracket" + Rounded(brace));
    assert BraceClass(side, i) == side + ("-brace" + [Digit(i)]);
  }

  /** The four parts of a curly brace stack without gap or overlap from 0 to its height. */
  lemma PartsTile(h: real)
    ensures PartY(0, h) == 0.0
    ensures forall i: nat :: i < 3 ==> PartY(i, h) + h / 4.0 == PartY(i + 1, h)
    ensures PartY(3, h) + h / 4.0 == h
  {
    forall i: nat | i < 3
      ensures PartY(i, h) + h / 4.0 == PartY(i + 1, h)
    {
      assert (i as real) / 4.0 * h + h / 4.0 == ((i as real) + 1.0) / 4.0 * h;
    }
  }

  /** A left and a right brace mirror each other: their offsets sum to a quarter em, and each is symmetric top to bottom. */
  lemma PartsMirror(i: nat)
    requires i < 4
    ensures PartX(true, i) + PartX(false, i) == 0.25
    ensures PartX(true, i) == PartX(true, 3 - i) && PartX(false, i) == PartX(false, 3 - i)
  {
  }

  /** The empty string passes every substring test, so it is drawn as a left, round bracket. */
  lemma EmptyBrace()
    ensures IsLeft("") && Contains("([])", "") && BracketClass("") == "left-bracket-rounded"
  {
    ContainsEmpty("([{");
    ContainsEmpty("([])");
    ContainsEmpty("()");
  }

  // ---------------------------------------------------------------------
  // The box

  /** `parts` are the first `n` parts of a curly brace of height `h`: distinct boxes other than `owner`. */
  ghost predicate PartsOf(owner: HtmlElement, parts: seq<HtmlElement>, isLeft: bool, side: string, h: real, n: nat)
    requires n <= 4
    reads parts
  {
    && |parts| == n && owner !in parts
    && (forall i :: 0 <= i < n ==> parts[i].BracePart(isLeft, side, i, h))
    && (forall i, j :: 0 <= i < j < n ==> parts[i] != parts[j])
  }

  /** Appending the next part, a new box, extends the parts by one. */
  lemma PartsSnoc(owner: HtmlElement, parts: seq<HtmlElement>, item: HtmlElement, isLeft: bool, side: string, h: real, n: nat)
    requires n < 4
    requires PartsOf(owner, parts, isLeft, side, h, n)
    requires item.BracePart(isLeft, side, n, h) && item != owner && item !in parts
    ensures PartsOf(owner, parts + [item], isLeft, side, h, n + 1)
  {
  }

  class HtmlElement {
    const name: string
    var x: real
    var y: real
    var width: Option<real>
    var height: Option<real>
    var baseline: real
    var fontSize: real
    var cssClass: Option<string>
    var text: Option<string>
    var children: seq<HtmlElement>

    /** `HtmlElement(x, y, width, height, font_size, text, css_class)`: the baseline starts at 0 and there are no children. */
    constructor (x: real, y: real, width: Option<real>, height: Option<real>, fontSize: real,
                 text: Option<string>, cssClass: Option<string>)
      ensures this.name == "div"
      ensures this.x == x && this.y == y && this.width == width && this.height == height
      ensures this.fontSize == fontSize && this.text == text && this.cssClass == cssClass
      ensures this.baseline == 0.0 && this.children == []
    {
      this.name := "div";
      this.x := x;
      this.y := y;
      this.width := width;
      this.height := height;
      this.baseline := 0.0;
      this.fontSize := fontSize;
      this.cssClass := cssClass;
      this.text := text;
      this.children := [];
    }

    /**
     * `update_baseline(font_size, pseudo_height)`: centres one line of text
     * vertically in `pseudo_height`, or in the box's own height when that is
     * absent. With neither, Python fails on the subtraction; callers must
     * supply one.
     */
    method UpdateBaseline(fm: FontMetrics, fontSize: real, pseudoHeight: Option<real>)
      requires pseudoHeight.Some? || height.Some?
      modifies this
      ensures x == old(x) && y == old(y) && width == old(width) && height == old(height)
      ensures this.fontSize == old(this.fontSize) && cssClass == old(cssClass) && text == old(text)
      ensures children == old(children)
      ensures baseline == CenteredBaseline(fm, if pseudoHeight.Some? then pseudoHeight.value else height.value, fontSize)
    {
      var h := pseudoHeight;
      if h.None? {
        h := height;
      }
      baseline := (h.value - fm.height * fontSize) / 2.0 + fm.baseline * fontSize;
    }

    /** Part `i` of a curly brace of height `h`, drawn on side `side`. */
    ghost predicate BracePart(isLeft: bool, side: string, i: nat, h: real)
      requires i < 4
      reads this
    {
      && cssClass == Some(BraceClass(side, i))
      && x == PartX(isLeft, i) && y == PartY(i, h)
      && width == None && height == Some(h / 4.0)
      && fontSize == 1.0 && text == None && children == []
    }

    /** The outer box of a brace: at the origin, `w` wide and `h` tall, with its baseline centred. */
    ghost predicate BraceBox(fm: FontMetrics, w: real, h: real, fs: real)
      reads this
    {
      && x == 0.0 && y == 0.0 && width == Some(w) && height == Some(h)
      && fontSize == 1.0 && text == None && cssClass == None
      && baseline == CenteredBaseline(fm, h, fs)
    }

    /** The single part of a bracket of height `h`, with class `cls`. */
    ghost predicate BracketShape(cls: string, h: real)
      reads this, children
    {
      && |children| == 1 && children[0] != this
      && children[0].cssClass == Some(cls)
      && children[0].x == 0.0 && children[0].y == 0.0
      && children[0].width == None && children[0].height == Some(h)
      && children[0].fontSize == 1.0 && children[0].text == None && children[0].children == []
    }

    /** The first `n` parts of a curly brace of height `h`, each a distinct box. */
    ghost predicate CurlyParts(isLeft: bool, side: string, h: real, n: nat)
      requires n <= 4
      reads this, children
    {
      PartsOf(this, children, isLeft, side, h, n)
    }

    /**
     * `create_brace(brace, brace_size, font_size)`: a bracket of one part for
     * a brace occurring in `([])`, a curly brace of four stacked parts for one
     * occurring in `{}`, and nothing otherwise. The box is as tall as the
     * content less a quarter of the font size, and its baseline is centred.
     */
    static method CreateBrace(fm: FontMetrics, brace: string, braceSize: real, fontSize: real)
      returns (r: Option<HtmlElement>)
      ensures r.None? <==> !Contains("([])", brace) && !Contains("{}", brace)
      ensures r.Some? && Contains("([])", brace) ==>
        && fresh(r.value) && fresh(r.value.children)
        && r.value.BraceBox(fm, 0.25, BraceHeight(braceSize, fontSize), fontSize)
        && r.value.BracketShape(BracketClass(brace), BraceHeight(braceSize, fontSize))
      ensures r.Some? && !Contains("([])", brace) ==>
        && fresh(r.value) && fresh(r.value.children)
        && r.value.BraceBox(fm, 0.5, BraceHeight(braceSize, fontSize), fontSize)
        && r.value.CurlyParts(IsLeft(brace), Side(brace), BraceHeight(braceSize, fontSize), 4)
    {
      var isLeft := Contains("([{", brace);
      var sides := if isLeft then "left" else "right";
      var rounded := if Contains("()", brace) then "-rounded" else "";
      var height := braceSize - fontSize / 4.0;
      if Contains("([])", brace) {
        var elem := NewBracket(fm, sides, rounded, height, fontSize);
        return Some(elem);
      } else if Contains("{}", brace) {
        var elem := NewCurly(fm, isLeft, sides, height, fontSize);
        return Some(elem);
      }
      return None;
    }

    /** The bracket branch of `create_brace`: one part as tall as the box. */
    static method NewBracket(fm: FontMetrics, sides: string, rounded: string, height: real, fontSize: real)
      returns (elem: HtmlElement)
      ensures fresh(elem) && fresh(elem.children)
      ensures elem.BraceBox(fm, 0.25, height, fontSize)
      ensures elem.BracketShape(sides + "-bracket" + rounded, height)
    {
      elem := new HtmlElement(0.0, 0.0, Some(0.25), Some(height), 1.0, None, None);
      var item := new HtmlElement(0.0, 0.0, None, None, 1.0, None, None);
      item.cssClass := Some(sides + "-bracket" + rounded);
      item.height := Some(height);
      elem.children := elem.children + [item];
      elem.UpdateBaseline(fm, fontSize, None);
    }

    /** The curly branch of `create_brace`: four parts, each a quarter of the box's height, stacked top to bottom. */
    static method NewCurly(fm: FontMetrics, isLeft: bool, sides: string, height: real, fontSize: real)
      returns (elem: HtmlElement)
      ensures fresh(elem) && fresh(elem.children)
      ensures elem.BraceBox(fm, 0.5, height, fontSize)
      ensures elem.CurlyParts(isLeft, sides, height, 4)
    {
      elem := new HtmlElement(0.0, 0.0, Some(0.5), Some(height), 1.0, None, None);
      for i := 0 to 4
        invariant fresh(elem) && fresh(elem.children)
        invariant elem.x == 0.0 && elem.y == 0.0 && elem.width == Some(0.5) && elem.height == Some(height)
        invariant elem.fontSize == 1.0 && elem.text == None && elem.cssClass == None
        invariant i > 0 ==> elem.baseline == CenteredBaseline(fm, height, fontSize)
        invariant elem.CurlyParts(isLeft, sides, height, i)
      {
        var item := NewPart(isLeft, sides, i, height);
        PartsSnoc(elem, elem.children, item, isLeft, sides, height, i);
        elem.children := elem.children + [item];
        elem.UpdateBaseline(fm, fontSize, None);
      }
    }

    /** One iteration of the curly branch's loop: part `i`, a quarter of the height, at its offsets. */
    static method NewPart(isLeft: bool, sides: string, i: nat, height: real) returns (item: HtmlElement)
      requires i < 4
      ensures fresh(item) && item.BracePart(isLeft, sides, i, height)
    {
      var xLeft := [1, 0, 0, 1];
      var xRight := [0, 1, 1, 0];
      item := new HtmlElement(0.0, 0.0, None, None, 1.0, None, None);
      item.cssClass := Some(sides + "-brace" + [Digit(i)]);
      item.y := (i as real) / 4.0 * height;
      item.x := (if isLeft then xLeft[i] else xRight[i]) as real * 0.25;
      item.height := Some(height / 4.0);
    }

    /** `create_horizontal_line(x, y, width)`: a rule with the given position and width and class `hline`. */
    static method CreateHorizontalLine(x: real, y: real, width: real) returns (r: HtmlElement)
      ensures fresh(r)
      ensures r.x == x && r.y == y && r.width == Some(width) && r.cssClass == Some("hline")
      ensures r.height == None && r.text == None && r.fontSize == 1.0 && r.baseline == 0.0 && r.children == []
    {
      r := new HtmlElement(x, y, Some(width), None, 1.0, None, Some("hline"));
    }
  }
}
