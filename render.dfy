/**
 * The static renderer: a fixed SVG template whose three layers are the
 * connection lines, the point circles and the glow circles of the points
 * larger than the glow threshold.  Each layer is its tags joined by
 * newlines.  Number formatting (`toFixed`) is a library float-to-string
 * conversion and is taken as the parameter fmt.
 */
module Render {
  import opened Generator

  /** fmt(v, d) is the decimal text of v with d digits after the point. */
  type Formatter = (real, nat) -> string

  /** Points larger than this get a glow circle. */
  const GlowThreshold: real := 3.5

  /** A formatter that never produces a line break, as `toFixed` never does. */
  ghost predicate NewlineFree(fmt: Formatter)
  {
    forall v, d :: '\n' !in fmt(v, d)
  }

  function LineTag(p1: Point, p2: Point, fmt: Formatter): string
  {
    "    <line x1=\"" + fmt(p1.x, 1) + "\" y1=\"" + fmt(p1.y, 1)
      + "\" x2=\"" + fmt(p2.x, 1) + "\" y2=\"" + fmt(p2.y, 1) + "\"/>"
  }

  function CircleTag(p: Point, fmt: Formatter): string
  {
    "    <circle cx=\"" + fmt(p.x, 1) + "\" cy=\"" + fmt(p.y, 1)
      + "\" r=\"" + fmt(p.size, 1) + "\" opacity=\"" + fmt(p.opacity, 2) + "\"/>"
  }

  function GlowTag(p: Point, fmt: Formatter): string
  {
    "    <circle cx=\"" + fmt(p.x, 1) + "\" cy=\"" + fmt(p.y, 1)
      + "\" r=\"" + fmt(p.size * 4.0, 1) + "\"/>"
  }

  /** Whether every connection names two existing points. */
  predicate Resolvable(points: seq<Point>, connections: seq<Connection>)
  {
    forall k :: 0 <= k < |connections| ==>
      0 <= connections[k].from < |points| && 0 <= connections[k].to < |points|
  }

  /** `connections.map(...)`: one line per connection, in order, between its endpoints. */
  function LineTags(points: seq<Point>, connections: seq<Connection>, fmt: Formatter): (tags: seq<string>)
    requires Resolvable(points, connections)
    ensures |tags| == |connections|
    ensures forall k :: 0 <= k < |connections| ==>
      tags[k] == LineTag(points[connections[k].from], points[connections[k].to], fmt)
  {
    if connections == [] then []
    else
      var last := connections[|connections| - 1];
      LineTags(points, connections[..|connections| - 1], fmt) + [LineTag(points[last.from], points[last.to], fmt)]
  }

  /** `points.map(...)`: one circle per point, in order. */
  function CircleTags(points: seq<Point>, fmt: Formatter): (tags: seq<string>)
    ensures |tags| == |points|
    ensures forall k :: 0 <= k < |points| ==> tags[k] == CircleTag(points[k], fmt)
  {
    if points == [] then []
    else CircleTags(points[..|points| - 1], fmt) + [CircleTag(points[|points| - 1], fmt)]
  }

  /** The indices of the points that get a glow: exactly those above the threshold, increasing. */
  function GlowIndices(points: seq<Point>): (idx: seq<nat>)
    ensures forall k :: 0 <= k < |idx| ==> idx[k] < |points|
    ensures forall k, l :: 0 <= k < l < |idx| ==> idx[k] < idx[l]
    ensures forall i :: 0 <= i < |points| ==> (i in idx <==> points[i].size > GlowThreshold)
  {
    if points == [] then []
    else
      var init := GlowIndices(points[..|points| - 1]);
      if points[|points| - 1].size > GlowThreshold then init + [|points| - 1] else init
  }

  /** `points.filter(p => p.size > 3.5).map(...)`: the glows, in point order. */
  function GlowTags(points: seq<Point>, fmt: Formatter): (tags: seq<string>)
    ensures |tags| == |GlowIndices(points)|
    ensures forall k :: 0 <= k < |tags| ==> tags[k] == GlowTag(points[GlowIndices(points)[k]], fmt)
  {
    if points == [] then []
    else
      var init := GlowTags(points[..|points| - 1], fmt);
      var p := points[|points| - 1];
      if p.size > GlowThreshold then init + [GlowTag(p, fmt)] else init
  }

  /** `parts.join('\n')`. */
  function Join(parts: seq<string>): string
  {
    if |parts| == 0 then ""
    else if |parts| == 1 then parts[0]
    else parts[0] + "\n" + Join(parts[1..])
  }

  /** The position of the first line break. */
  function FirstNewline(s: string): (i: nat)
    requires '\n' in s
    ensures i < |s| && s[i] == '\n' && '\n' !in s[..i]
  {
    if s[0] == '\n' then 0
    else
      assert s == [s[0]] + s[1..];
      var j := FirstNewline(s[1..]);
      assert s[..j + 1] == [s[0]] + s[1..][..j];
      j + 1
  }

  /** The text lines of s, split at every line break. */
  function Split(s: string): (lines: seq<string>)
    ensures |lines| >= 1
    decreases |s|
  {
    if '\n' !in s then [s]
    else
      var i := FirstNewline(s);
      [s[..i]] + Split(s[i + 1..])
  }

  /** The text lines of several texts laid one after another. */
  function SplitAll(texts: seq<string>): seq<string>
  {
    if texts == [] then [] else Split(texts[0]) + SplitAll(texts[1..])
  }

  predicate NoNewlines(texts: seq<string>)
  {
    forall k :: 0 <= k < |texts| ==> '\n' !in texts[k]
  }

  /** A layer as it appears in the document: its tags, or one empty line when it has none. */
  function Layer(tags: seq<string>): seq<string>
  {
    if tags == [] then [""] else tags
  }

  /** The opening tag, which declares the 800 x 200 canvas. */
  const SvgOpen: string := "<svg viewBox=\"0 0 800 200\" " + "xmlns=\"http://www.w3.org/2000/svg\">"
  const Background: string := "  <rect width=\"800\" height=\"200\"" + " fill=\"transparent\"/>"
  const LinesGroup: string := "  <g stroke=\"#58a6ff\"" + " stroke-width=\"0.5\"" + " opacity=\"0.3\">"

  const Head: seq<string> := [SvgOpen, Background, "", "  <!-- Constellation lines -->", LinesGroup]

  const BeforePoints: seq<string> := [
    "  </g>",
    "",
    "  <!-- Constellation points -->",
    "  <g fill=\"#58a6ff\">"]

  const BeforeGlows: seq<string> := [
    "  </g>",
    "",
    "  <!-- Subtle glows -->",
    "  <g fill=\"#58a6ff\" opacity=\"0.08\">"]

  const Tail: seq<string> := [
    "  </g>",
    "</svg>"]

  /** `generateSVG`: the template with the three joined layers in place. */
  function GenerateSvg(c: Constellation, fmt: Formatter): string
    requires Resolvable(c.points, c.connections)
  {
    Join(Head + [Join(LineTags(c.points, c.connections, fmt))]
      + BeforePoints + [Join(CircleTags(c.points, fmt))]
      + BeforeGlows + [Join(GlowTags(c.points, fmt))]
      + Tail)
  }

  // ---------------------------------------------------------------------
  // Properties

  /** A break found by position is the first one. */
  lemma {:induction false} FirstNewlineAt(s: string, i: nat)
    requires i < |s| && s[i] == '\n' && '\n' !in s[..i]
    ensures FirstNewline(s) == i
  {
  }

  /** Splitting at a break joins the lines of both sides. */
  lemma {:induction false} SplitAround(x: string, y: string)
    ensures Split(x + "\n" + y) == Split(x) + Split(y)
    decreases |x|
  {
    var s := x + "\n" + y;
    if '\n' !in x {
      assert s[..|x|] == x;
      FirstNewlineAt(s, |x|);
      assert s[|x| + 1..] == y;
    } else {
      var i := FirstNewline(x);
      assert s[..i] == x[..i];
      FirstNewlineAt(s, i);
      assert s[i + 1..] == x[i + 1..] + "\n" + y;
      SplitAround(x[i + 1..], y);
    }
  }

  /** The lines of joined texts are the lines of each text in turn. */
  lemma {:induction false} SplitJoin(texts: seq<string>)
    requires |texts| > 0
    ensures Split(Join(texts)) == SplitAll(texts)
  {
    if |texts| == 1 {
      assert SplitAll(texts[1..]) == [];
    } else {
      SplitAround(texts[0], Join(texts[1..]));
      SplitJoin(texts[1..]);
    }
  }

  lemma {:induction false} SplitAllAppend(a: seq<string>, b: seq<string>)
    ensures SplitAll(a + b) == SplitAll(a) + SplitAll(b)
  {
    if a == [] {
      assert a + b == b;
    } else {
      assert (a + b)[1..] == a[1..] + b;
      SplitAllAppend(a[1..], b);
    }
  }

  lemma {:induction false} SplitAllPlain(texts: seq<string>)
    requires NoNewlines(texts)
    ensures SplitAll(texts) == texts
  {
    if texts != [] {
      SplitAllPlain(texts[1..]);
    }
  }

  /**
   * Joining newline-free tags and splitting the result gives the tags back,
   * so a layer occupies one text line per tag.
   */
  lemma LayerRoundTrip(tags: seq<string>)
    requires NoNewlines(tags)
    ensures Split(Join(tags)) == Layer(tags)
  {
    if tags != [] {
      SplitJoin(tags);
      SplitAllPlain(tags);
    }
  }

  lemma TagNewlineFree(p1: Point, p2: Point, fmt: Formatter)
    requires NewlineFree(fmt)
    ensures '\n' !in LineTag(p1, p2, fmt)
    ensures '\n' !in CircleTag(p1, fmt)
    ensures '\n' !in GlowTag(p1, fmt)
  {
    assert '\n' !in fmt(p1.x, 1) && '\n' !in fmt(p1.y, 1) && '\n' !in fmt(p2.x, 1) && '\n' !in fmt(p2.y, 1);
    assert '\n' !in fmt(p1.size, 1) && '\n' !in fmt(p1.opacity, 2) && '\n' !in fmt(p1.size * 4.0, 1);
  }

  lemma TagsNewlineFree(c: Constellation, fmt: Formatter)
    requires Resolvable(c.points, c.connections) && NewlineFree(fmt)
    ensures NoNewlines(LineTags(c.points, c.connections, fmt))
    ensures NoNewlines(CircleTags(c.points, fmt))
    ensures NoNewlines(GlowTags(c.points, fmt))
  {
    var lines := LineTags(c.points, c.connections, fmt);
    forall k | 0 <= k < |lines|
      ensures '\n' !in lines[k]
    {
      TagNewlineFree(c.points[c.connections[k].from], c.points[c.connections[k].to], fmt);
    }
    var circles := CircleTags(c.points, fmt);
    forall k | 0 <= k < |circles|
      ensures '\n' !in circles[k]
    {
      TagNewlineFree(c.points[k], c.points[k], fmt);
    }
    var glows := GlowTags(c.points, fmt);
    forall k | 0 <= k < |glows|
      ensures '\n' !in glows[k]
    {
      var p := c.points[GlowIndices(c.points)[k]];
      TagNewlineFree(p, p, fmt);
    }
  }

  lemma SplitAllSingle(x: string)
    ensures SplitAll([x]) == Split(x)
  {
    assert [x][1..] == [];
  }

  /** The lines of fixed text followed by one more text. */
  lemma SplitAllThen(a: seq<string>, x: string)
    ensures SplitAll(a + [x]) == SplitAll(a) + Split(x)
  {
    SplitAllAppend(a, [x]);
    SplitAllSingle(x);
  }

  /** The lines of text followed by texts that are single lines. */
  lemma SplitAllThenPlain(a: seq<string>, m: seq<string>)
    requires SplitAll(m) == m
    ensures SplitAll(a + m) == SplitAll(a) + m
  {
    SplitAllAppend(a, m);
  }

  /** The lines of fixed text with three texts slotted in. */
  lemma SplitTemplate(h: seq<string>, x: string, m1: seq<string>, y: string, m2: seq<string>, z: string, t: seq<string>)
    requires SplitAll(h) == h && SplitAll(m1) == m1 && SplitAll(m2) == m2 && SplitAll(t) == t
    ensures SplitAll(h + [x] + m1 + [y] + m2 + [z] + t)
      == h + Split(x) + m1 + Split(y) + m2 + Split(z) + t
  {
    var p1 := h + [x];
    var p2 := p1 + m1;
    var p3 := p2 + [y];
    var p4 := p3 + m2;
    var p5 := p4 + [z];
    var p6 := p5 + t;
    SplitAllThen(h, x);
    SplitAllThenPlain(p1, m1);
    SplitAllThen(p2, y);
    SplitAllThenPlain(p3, m2);
    SplitAllThen(p4, z);
    SplitAllThenPlain(p5, t);
  }

  lemma SvgOpenPlain()
    ensures '\n' !in SvgOpen
  {
    assert '\n' !in "<svg viewBox=\"0 0 800 200\" ";
    assert '\n' !in "xmlns=\"http://www.w3.org/2000/svg\">";
  }

  lemma BackgroundPlain()
    ensures '\n' !in Background
  {
    assert '\n' !in "  <rect width=\"800\" height=\"200\"";
    assert '\n' !in " fill=\"transparent\"/>";
  }

  lemma LinesGroupPlain()
    ensures '\n' !in LinesGroup
  {
    assert '\n' !in "  <g stroke=\"#58a6ff\"";
    assert '\n' !in " stroke-width=\"0.5\"";
    assert '\n' !in " opacity=\"0.3\">";
  }

  lemma HeadPlain()
    ensures NoNewlines(Head)
  {
    SvgOpenPlain();
    BackgroundPlain();
    LinesGroupPlain();
    assert '\n' !in Head[3];
  }

  lemma TemplatePlain()
    ensures NoNewlines(Head) && NoNewlines(BeforePoints) && NoNewlines(BeforeGlows) && NoNewlines(Tail)
  {
    HeadPlain();
    forall k | 0 <= k < |BeforePoints| ensures '\n' !in BeforePoints[k] {}
    forall k | 0 <= k < |BeforeGlows| ensures '\n' !in BeforeGlows[k] {}
    forall k | 0 <= k < |Tail| ensures '\n' !in Tail[k] {}
  }

  /**
   * The document, line by line: the fixed header, one line per connection
   * in connection order, the points header, one circle per point in point
   * order, the glow header, one glow per point above the threshold in point
   * order, and the closing lines.
   */
  lemma DocumentLines(c: Constellation, fmt: Formatter)
    requires Resolvable(c.points, c.connections) && NewlineFree(fmt)
    ensures Split(GenerateSvg(c, fmt)) ==
      Head + Layer(LineTags(c.points, c.connections, fmt))
      + BeforePoints + Layer(CircleTags(c.points, fmt))
      + BeforeGlows + Layer(GlowTags(c.points, fmt))
      + Tail
  {
    var lines := LineTags(c.points, c.connections, fmt);
    var circles := CircleTags(c.points, fmt);
    var glows := GlowTags(c.points, fmt);
    TagsNewlineFree(c, fmt);
    TemplatePlain();
    SplitAllPlain(Head);
    SplitAllPlain(BeforePoints);
    SplitAllPlain(BeforeGlows);
    SplitAllPlain(Tail);
    var texts := Head + [Join(lines)] + BeforePoints + [Join(circles)] + BeforeGlows + [Join(glows)] + Tail;
    SplitJoin(texts);
    SplitTemplate(Head, Join(lines), BeforePoints, Join(circles), BeforeGlows, Join(glows), Tail);
    LayerRoundTrip(lines);
    LayerRoundTrip(circles);
    LayerRoundTrip(glows);
  }

  /** The document opens by declaring the fixed 800 x 200 canvas and closes the svg element. */
  lemma DocumentFrame(c: Constellation, fmt: Formatter)
    requires Resolvable(c.points, c.connections) && NewlineFree(fmt)
    ensures var lines := Split(GenerateSvg(c, fmt));
      lines[0] == SvgOpen
      && lines[|lines| - 1] == "</svg>"
  {
    var body := Head + Layer(LineTags(c.points, c.connections, fmt))
      + BeforePoints + Layer(CircleTags(c.points, fmt))
      + BeforeGlows + Layer(GlowTags(c.points, fmt));
    var lines := Split(GenerateSvg(c, fmt));
    assert lines == body + Tail by {
      DocumentLines(c, fmt);
    }
    assert lines[0] == Head[0] by {
      assert body[0] == Head[0];
    }
    assert lines[|lines| - 1] == Tail[1];
  }
}
