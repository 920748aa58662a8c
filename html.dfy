/** The HTML builder example: a tree of elements rendered into an indented string, and a
    builder that appends children to a root element and can reset it. */
module Html {

  /** An element: its tag name, its text (a C# null text is the empty string here, since
      `string.IsNullOrEmpty` treats the two alike) and its children, in order. */
  datatype HtmlElement = HtmlElement(name: string, text: string, elements: seq<HtmlElement>)

  /** `indentSize`: each level of nesting adds two spaces. */
  const IndentSize: nat := 2

  /** `Environment.NewLine`, fixed to a line feed. */
  const NewLine: string := "\n"

  /** `new string(' ', n)`. */
  function Spaces(n: nat): (s: string)
    ensures |s| == n && forall i :: 0 <= i < n ==> s[i] == ' '
  {
    if n == 0 then "" else Spaces(n - 1) + " "
  }

  function OpenTag(e: HtmlElement, indent: nat): string {
    Spaces(IndentSize * indent) + "<" + e.name + ">"
  }

  function CloseTag(e: HtmlElement, indent: nat): string {
    Spaces(IndentSize * indent) + "</" + e.name + ">"
  }

  function TextLine(e: HtmlElement, indent: nat): string {
    Spaces(IndentSize * (indent + 1)) + e.text
  }

  /** `AppendLine(s)`. */
  function Line(s: string): string {
    s + NewLine
  }

  /** The text line, ended, when the element has text; nothing otherwise. */
  function RenderText(e: HtmlElement, indent: nat): string {
    if e.text != "" then Line(TextLine(e, indent)) else ""
  }

  // ---------------------------------------------------------------------------
  // ToStringImpl, as the source builds it: one StringBuilder per element

  /** `ToStringImpl(indent)`: the opening tag line, the text line when there is text, every
      child at the next level, and the closing tag line. */
  function Render(e: HtmlElement, indent: nat): string
    decreases e, 1
  {
    Line(OpenTag(e, indent)) + RenderText(e, indent) + RenderAll(e.elements, indent + 1) + Line(CloseTag(e, indent))
  }

  /** The `foreach` over the children: their renderings one after the other. */
  function RenderAll(es: seq<HtmlElement>, indent: nat): string
    decreases es, 0
  {
    if es == [] then "" else Render(es[0], indent) + RenderAll(es[1..], indent)
  }

  // ---------------------------------------------------------------------------
  // The same output described line by line

  /** The lines of an element's rendering, without their line breaks. */
  function Lines(e: HtmlElement, indent: nat): seq<string>
    decreases e, 1
  {
    [OpenTag(e, indent)] + TextLines(e, indent) + LinesAll(e.elements, indent + 1) + [CloseTag(e, indent)]
  }

  function TextLines(e: HtmlElement, indent: nat): seq<string> {
    if e.text != "" then [TextLine(e, indent)] else []
  }

  function LinesAll(es: seq<HtmlElement>, indent: nat): seq<string>
    decreases es, 0
  {
    if es == [] then [] else Lines(es[0], indent) + LinesAll(es[1..], indent)
  }

  /** Every line followed by a line break, as `AppendLine` writes them. */
  function Unlines(ls: seq<string>): string {
    if ls == [] then "" else ls[0] + NewLine + Unlines(ls[1..])
  }

  lemma {:induction false} UnlinesAppend(a: seq<string>, b: seq<string>)
    ensures Unlines(a + b) == Unlines(a) + Unlines(b)
  {
    if a != [] {
      assert (a + b)[1..] == a[1..] + b;
      UnlinesAppend(a[1..], b);
    } else {
      assert a + b == b;
    }
  }

  lemma UnlinesFour(open: seq<string>, text: seq<string>, children: seq<string>, close: seq<string>)
    ensures Unlines(open + text + children + close)
         == Unlines(open) + Unlines(text) + Unlines(children) + Unlines(close)
  {
    UnlinesAppend(open + text + children, close);
    UnlinesAppend(open + text, children);
    UnlinesAppend(open, text);
  }

  lemma UnlinesOne(l: string)
    ensures Unlines([l]) == Line(l)
  {
    assert [l][1..] == [];
    assert l + NewLine + "" == l + NewLine;
  }

  /** The rendering is exactly the element's lines, each ended by a line break. */
  lemma {:induction false} RenderIsLines(e: HtmlElement, indent: nat)
    ensures Render(e, indent) == Unlines(Lines(e, indent))
    decreases e, 1
  {
    RenderAllIsLines(e.elements, indent + 1);
    UnlinesFour([OpenTag(e, indent)], TextLines(e, indent), LinesAll(e.elements, indent + 1), [CloseTag(e, indent)]);
    UnlinesOne(OpenTag(e, indent));
    UnlinesOne(CloseTag(e, indent));
    if e.text != "" {
      UnlinesOne(TextLine(e, indent));
    }
  }

  lemma {:induction false} RenderAllIsLines(es: seq<HtmlElement>, indent: nat)
    ensures RenderAll(es, indent) == Unlines(LinesAll(es, indent))
    decreases es, 0
  {
    if es != [] {
      RenderIsLines(es[0], indent);
      RenderAllIsLines(es[1..], indent);
      UnlinesAppend(Lines(es[0], indent), LinesAll(es[1..], indent));
    }
  }

  /** The first line opens the element and the last line closes it, both indented by two
      spaces per level; the text line, when there is text, follows the opening line. */
  lemma OpenAndCloseLines(e: HtmlElement, indent: nat)
    ensures var ls := Lines(e, indent);
      && |ls| >= 2
      && ls[0] == Spaces(2 * indent) + "<" + e.name + ">"
      && ls[|ls| - 1] == Spaces(2 * indent) + "</" + e.name + ">"
      && (e.text != "" ==> ls[1] == Spaces(2 * indent + 2) + e.text)
  {
  }

  /** Without text, the lines between the tags are exactly the children's lines. */
  lemma NoTextNoTextLine(e: HtmlElement, indent: nat)
    requires e.text == ""
    ensures var ls := Lines(e, indent);
      ls[1..|ls| - 1] == LinesAll(e.elements, indent + 1)
  {
    var ls := Lines(e, indent);
    assert ls == [OpenTag(e, indent)] + LinesAll(e.elements, indent + 1) + [CloseTag(e, indent)];
  }

  /** `s` begins with `p`. */
  predicate StartsWith(s: string, p: string) {
    |p| <= |s| && s[..|p|] == p
  }

  lemma SpacesPrefix(m: nat, n: nat, rest: string)
    requires m <= n
    ensures StartsWith(Spaces(n) + rest, Spaces(m))
  {
  }

  /** Every line of an element rendered at level `indent` starts with at least two spaces
      per level: children are never shallower than their parent. */
  lemma {:induction false} LinesIndented(e: HtmlElement, indent: nat, m: nat)
    requires m <= IndentSize * indent
    ensures forall l :: l in Lines(e, indent) ==> StartsWith(l, Spaces(m))
    decreases e, 1
  {
    LinesAllIndented(e.elements, indent + 1, m);
    SpacesPrefix(m, IndentSize * indent, "<" + e.name + ">");
    SpacesPrefix(m, IndentSize * indent, "</" + e.name + ">");
    SpacesPrefix(m, IndentSize * (indent + 1), e.text);
    assert OpenTag(e, indent) == Spaces(IndentSize * indent) + ("<" + e.name + ">");
    assert CloseTag(e, indent) == Spaces(IndentSize * indent) + ("</" + e.name + ">");
  }

  lemma {:induction false} LinesAllIndented(es: seq<HtmlElement>, indent: nat, m: nat)
    requires m <= IndentSize * indent
    ensures forall l :: l in LinesAll(es, indent) ==> StartsWith(l, Spaces(m))
    decreases es, 0
  {
    if es != [] {
      LinesIndented(es[0], indent, m);
      LinesAllIndented(es[1..], indent, m);
    }
  }

  lemma {:induction false} LinesAllAppend(es: seq<HtmlElement>, c: HtmlElement, indent: nat)
    ensures LinesAll(es + [c], indent) == LinesAll(es, indent) + Lines(c, indent)
  {
    if es == [] {
      assert [] + [c] == [c] && [c][1..] == [];
    } else {
      assert (es + [c])[0] == es[0] && (es + [c])[1..] == es[1..] + [c];
      LinesAllAppend(es[1..], c, indent);
    }
  }

  /** Appending a child to an element inserts the child's lines, one level deeper, just
      before the closing line; every earlier line stays where it was. */
  lemma AppendChildLines(e: HtmlElement, c: HtmlElement, indent: nat)
    ensures var before, after := Lines(e, indent), Lines(e.(elements := e.elements + [c]), indent);
      after == before[..|before| - 1] + Lines(c, indent + 1) + [before[|before| - 1]]
  {
    var e' := e.(elements := e.elements + [c]);
    var open, text, close := [OpenTag(e, indent)], TextLines(e, indent), [CloseTag(e, indent)];
    var children := LinesAll(e.elements, indent + 1);
    assert open == [OpenTag(e', indent)] && text == TextLines(e', indent) && close == [CloseTag(e', indent)];
    LinesAllAppend(e.elements, c, indent + 1);
    var head, child := open + text + children, Lines(c, indent + 1);
    assert Lines(e, indent) == head + close;
    assert Lines(e', indent) == head + child + close;
    SplitLast(head, child, close);
  }

  lemma SplitLast(head: seq<string>, mid: seq<string>, last: seq<string>)
    requires |last| == 1
    ensures var before := head + last;
      head + mid + last == before[..|before| - 1] + mid + [before[|before| - 1]]
  {
    var before := head + last;
    assert before[..|before| - 1] == head;
  }


  /** `HtmlElement.ToString()`: the rendering at level 0. */
  function ElementToString(e: HtmlElement): (s: string)
    ensures s == Unlines(Lines(e, 0))
  {
    RenderIsLines(e, 0);
    Render(e, 0)
  }

  // ---------------------------------------------------------------------------
  // HtmlBuilder

  class HtmlBuilder {
    const rootName: string
    var root: HtmlElement

    /** A new builder's root has the given name, no text and no children. */
    constructor (rootName: string)
      ensures this.rootName == rootName
      ensures root == HtmlElement(rootName, "", [])
    {
      this.rootName := rootName;
      root := HtmlElement(rootName, "", []);
    }

    /** Appends one element with the given name and text, and no children, at the end of
        the root's children; returns the same builder so that calls chain. */
    method AddChild(childName: string, childText: string) returns (b: HtmlBuilder)
      modifies this
      ensures b == this
      ensures root.name == old(root.name) && root.text == old(root.text)
      ensures root.elements == old(root.elements) + [HtmlElement(childName, childText, [])]
    {
      root := root.(elements := root.elements + [HtmlElement(childName, childText, [])]);
      b := this;
    }

    /** The root's rendering at level 0, line by line. */
    function ToString(): (s: string)
      reads this
      ensures s == Unlines(Lines(root, 0))
    {
      ElementToString(root)
    }

    /** Replaces the root by a fresh element with the original root name, no text and no
        children. */
    method Clear()
      modifies this
      ensures root == HtmlElement(rootName, "", [])
    {
      root := HtmlElement(rootName, "", []);
    }
  }

  /** How a leaf element renders: its tags around its text, one level deeper. */
  lemma LeafRender(e: HtmlElement, indent: nat)
    requires e.elements == [] && e.text != ""
    ensures Render(e, indent) == Line(OpenTag(e, indent)) + Line(TextLine(e, indent)) + Line(CloseTag(e, indent))
  {
  }

  /** A list item with text, one level in: three lines. */
  lemma DemoItem(text: string)
    requires text != ""
    ensures Render(HtmlElement("li", text, []), 1) == "  <li>\n    " + text + "\n  </li>\n"
  {
    var e := HtmlElement("li", text, []);
    LeafRender(e, 1);
    assert Spaces(2) == "  " && Spaces(4) == "    ";
    var open, body, close := Line(OpenTag(e, 1)), Line(TextLine(e, 1)), Line(CloseTag(e, 1));
    assert open == "  <li>\n";
    assert body == "    " + text + "\n";
    assert close == "  </li>\n";
    assert open + body + close == "  <li>\n" + ("    " + text + "\n") + "  </li>\n";
  }

  /** The demo's output: three levels, two spaces per level. */
  const DemoText := "<ul>\n" + "  <li>\n    " + "hello" + "\n  </li>\n" + "  <li>\n    " + "world" + "\n  </li>\n" + "</ul>\n"

  /** A `ul` root holding `li hello` and `li world` renders as the three-level indented text. */
  lemma DemoRendering()
    ensures Render(HtmlElement("ul", "", [HtmlElement("li", "hello", []), HtmlElement("li", "world", [])]), 0) == DemoText
  {
    var hello, world := HtmlElement("li", "hello", []), HtmlElement("li", "world", []);
    var root := HtmlElement("ul", "", [hello, world]);
    DemoItem("hello");
    DemoItem("world");
    assert [hello, world][1..] == [world] && [world][1..] == [];
    assert RenderAll([world], 1) == Render(world, 1) + "" == Render(world, 1);
    assert RenderAll([hello, world], 1) == Render(hello, 1) + Render(world, 1);
    assert Line(OpenTag(root, 0)) == "<ul>\n";
    assert Line(CloseTag(root, 0)) == "</ul>\n";
    assert RenderText(root, 0) == "";
    assert Render(root, 0) == "<ul>\n" + "" + (Render(hello, 1) + Render(world, 1)) + "</ul>\n";
  }

  /** The demo: a `ul` builder given the children `li hello` and `li world`, chained. */
  method Demo() returns (output: string)
    ensures output == DemoText
  {
    var builder := new HtmlBuilder("ul");
    var b := builder.AddChild("li", "hello");
    b := b.AddChild("li", "world");
    assert builder.root == HtmlElement("ul", "", [HtmlElement("li", "hello", []), HtmlElement("li", "world", [])]);
    DemoRendering();
    output := builder.ToString();
  }
}
