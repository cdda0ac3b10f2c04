/** Serialisation of the attribute record by the template literal of
    `generateTextSVG`, followed by `.trim()`. How JavaScript writes a number
    as text is not modelled: the caller supplies it as `fmt`. */
module Render {
  import opened Strings
  import opened Options
  import opened SvgText

  const SvgNamespace: string := "http://www.w3.org/2000/svg"

  /** The template's last two lines, each with the line break before it. */
  const TextCloser: string := "\n    </text>"
  const SvgCloser: string := "\n</svg>"

  /** The fixed template text between interpolations: the end of the `<svg>`
      tag with the start of `<text`, the break after an attribute line that
      ends in a space (the first six), the break after one that does not,
      and the end of the `<text>` tag. */
  const TextOpener: string := ">\n    <text \n        "
  const AttrBreak: string := " \n        "
  const LineBreak: string := "\n        "
  const ContentOpener: string := "\n    >\n        "

  /** `name="value"`, with the value inserted as is (no escaping). */
  function Attr(name: string, value: string): string {
    name + "=\"" + value + "\""
  }

  /** The `<svg>` element of the template, cut into pieces: every attribute
      is a piece of its own, and so is the text content. */
  function Pieces(svg: TextSvg, fmt: real -> string): (ps: seq<string>)
    ensures |ps| == 28 && ps[0] == "<svg " && ps[26] == TextCloser && ps[27] == SvgCloser
  {
    [ "<svg ",
      Attr("width", fmt(svg.width)), " ",
      Attr("height", fmt(svg.height)), " ",
      Attr("xmlns", SvgNamespace),
      TextOpener,
      Attr("x", fmt(svg.x)), AttrBreak,
      Attr("y", fmt(svg.y)), AttrBreak,
      Attr("font-family", svg.fontFamily), AttrBreak,
      Attr("font-size", fmt(svg.fontSize)), AttrBreak,
      Attr("fill", svg.fill), AttrBreak,
      Attr("stroke", svg.stroke), AttrBreak,
      Attr("stroke-width", fmt(svg.strokeWidth)), LineBreak,
      Attr("text-anchor", svg.textAnchor), LineBreak,
      Attr("dominant-baseline", svg.dominantBaseline),
      ContentOpener,
      svg.content,
      TextCloser,
      SvgCloser ]
  }

  /** The template literal before trimming: a line break, the element, and
      a line break followed by the four spaces of the closing backtick's line. */
  function Template(svg: TextSvg, fmt: real -> string): (t: string)
    ensures Trim(t) == Concat(Pieces(svg, fmt))
  {
    var ps := Pieces(svg, fmt);
    ElementEnds(ps);
    PaddingIsWhiteSpace();
    TrimStripsPadding("\n", Concat(ps), "\n    ");
    "\n" + Concat(ps) + "\n    "
  }

  /** A concatenation that opens with "<svg " and closes with the closing
      tags starts with '<' and ends with '>'. */
  lemma ElementEnds(ps: seq<string>)
    requires |ps| >= 2 && ps[0] == "<svg " && ps[|ps| - 1] == SvgCloser
    ensures var body := Concat(ps);
      |body| >= 10 && body[..5] == "<svg " && body[|body| - 6..] == "</svg>"
  {
    var body := Concat(ps);
    assert body == ps[0] + Concat(ps[1..]);
    ConcatLast(ps);
    assert body == Concat(ps[..|ps| - 1]) + SvgCloser;
  }

  lemma PaddingIsWhiteSpace()
    ensures AllWhiteSpace("\n") && AllWhiteSpace("\n    ")
  {
  }

  /** The returned string: the trimmed template. Trimming takes off exactly
      the template's padding, so the result is the `<svg>` element from its
      first to its last character. */
  function Markup(svg: TextSvg, fmt: real -> string): (out: string)
    ensures out == Concat(Pieces(svg, fmt))
    ensures |out| >= 10 && out[..5] == "<svg " && out[|out| - 6..] == "</svg>"
  {
    ElementEnds(Pieces(svg, fmt));
    Trim(Template(svg, fmt))
  }

  /** The `<svg>` tag, as returned: the markup opens with `<svg `, then
      `width`, `height` and `xmlns` in this order, each after one space, and
      then the `<text` opener. Naming the tag pins each attribute to its
      place, so `stroke-width="v"` does not count as a `width`. */
  lemma RenderShowsRootAttributes(svg: TextSvg, fmt: real -> string)
    ensures var out := Markup(svg, fmt);
      && "<svg " + Attr("width", fmt(svg.width)) + " " + Attr("height", fmt(svg.height))
         + " " + Attr("xmlns", SvgNamespace) + TextOpener <= out
      && Contains(out, "<svg " + Attr("width", fmt(svg.width)))
      && Contains(out, " " + Attr("height", fmt(svg.height)))
      && Contains(out, " " + Attr("xmlns", SvgNamespace))
      && Contains(out, Attr("xmlns", SvgNamespace) + TextOpener)
  {
    PieceIndices(svg, fmt);
    SeparatorIndices(svg, fmt);
    RenderContainsAdjacent(svg, fmt, 0);
    RenderContainsAdjacent(svg, fmt, 2);
    RenderContainsAdjacent(svg, fmt, 4);
    RenderContainsAdjacent(svg, fmt, 5);
    MarkupOpensWithRootTag(svg, fmt);
  }

  /** The markup opens with the whole `<svg>` tag and the `<text` opener. */
  lemma MarkupOpensWithRootTag(svg: TextSvg, fmt: real -> string)
    ensures "<svg " + Attr("width", fmt(svg.width)) + " " + Attr("height", fmt(svg.height))
            + " " + Attr("xmlns", SvgNamespace) + TextOpener <= Markup(svg, fmt)
  {
    var ps := Pieces(svg, fmt);
    assert ps[1] == Attr("width", fmt(svg.width)) && ps[3] == Attr("height", fmt(svg.height))
        && ps[5] == Attr("xmlns", SvgNamespace);
    assert ps[2] == " " && ps[4] == " " && ps[6] == TextOpener;
    ConcatStartsWithSeven(ps);
  }

  /** The attributes of `<text>`, as returned: each at the start of a line
      of its own, `dominant-baseline` included; and the
      content right after the end of the `<text>` tag. The order of the
      lines is that of `Pieces`, which `Markup` joins. */
  lemma RenderShowsTextAttributes(svg: TextSvg, fmt: real -> string)
    ensures var out := Markup(svg, fmt);
      && Contains(out, TextOpener + Attr("x", fmt(svg.x)))
      && Contains(out, AttrBreak + Attr("y", fmt(svg.y)))
      && Contains(out, AttrBreak + Attr("font-family", svg.fontFamily))
      && Contains(out, AttrBreak + Attr("font-size", fmt(svg.fontSize)))
      && Contains(out, AttrBreak + Attr("fill", svg.fill))
      && Contains(out, AttrBreak + Attr("stroke", svg.stroke))
      && Contains(out, AttrBreak + Attr("stroke-width", fmt(svg.strokeWidth)))
      && Contains(out, LineBreak + Attr("text-anchor", svg.textAnchor))
      && Contains(out, LineBreak + Attr("dominant-baseline", svg.dominantBaseline))
      && Contains(out, ContentOpener + svg.content)
  {
    PieceIndices(svg, fmt);
    SeparatorIndices(svg, fmt);
    RenderContainsAdjacent(svg, fmt, 6);
    RenderContainsAdjacent(svg, fmt, 8);
    RenderContainsAdjacent(svg, fmt, 10);
    RenderContainsAdjacent(svg, fmt, 12);
    RenderContainsAdjacent(svg, fmt, 14);
    RenderContainsAdjacent(svg, fmt, 16);
    RenderContainsAdjacent(svg, fmt, 18);
    RenderContainsAdjacent(svg, fmt, 20);
    RenderContainsAdjacent(svg, fmt, 22);
    RenderContainsAdjacent(svg, fmt, 24);
  }

  /** Where each attribute sits in the list of pieces. */
  lemma PieceIndices(svg: TextSvg, fmt: real -> string)
    ensures var ps := Pieces(svg, fmt);
      && ps[1] == Attr("width", fmt(svg.width))
      && ps[3] == Attr("height", fmt(svg.height))
      && ps[5] == Attr("xmlns", SvgNamespace)
      && ps[7] == Attr("x", fmt(svg.x))
      && ps[9] == Attr("y", fmt(svg.y))
      && ps[11] == Attr("font-family", svg.fontFamily)
      && ps[13] == Attr("font-size", fmt(svg.fontSize))
      && ps[15] == Attr("fill", svg.fill)
      && ps[17] == Attr("stroke", svg.stroke)
      && ps[19] == Attr("stroke-width", fmt(svg.strokeWidth))
      && ps[21] == Attr("text-anchor", svg.textAnchor)
      && ps[23] == Attr("dominant-baseline", svg.dominantBaseline)
      && ps[25] == svg.content
  {
    var ps := Pieces(svg, fmt);
    assert ps[1] == Attr("width", fmt(svg.width));
    assert ps[3] == Attr("height", fmt(svg.height));
    assert ps[5] == Attr("xmlns", SvgNamespace);
    assert ps[7] == Attr("x", fmt(svg.x));
    assert ps[9] == Attr("y", fmt(svg.y));
    assert ps[11] == Attr("font-family", svg.fontFamily);
    assert ps[13] == Attr("font-size", fmt(svg.fontSize));
    assert ps[15] == Attr("fill", svg.fill);
    assert ps[17] == Attr("stroke", svg.stroke);
    assert ps[19] == Attr("stroke-width", fmt(svg.strokeWidth));
    assert ps[21] == Attr("text-anchor", svg.textAnchor);
    assert ps[23] == Attr("dominant-baseline", svg.dominantBaseline);
  }

  /** Where each fixed piece of template text sits in the list of pieces. */
  lemma SeparatorIndices(svg: TextSvg, fmt: real -> string)
    ensures var ps := Pieces(svg, fmt);
      && ps[0] == "<svg " && ps[2] == " " && ps[4] == " " && ps[6] == TextOpener
      && ps[8] == AttrBreak && ps[10] == AttrBreak && ps[12] == AttrBreak
      && ps[14] == AttrBreak && ps[16] == AttrBreak && ps[18] == AttrBreak
      && ps[20] == LineBreak && ps[22] == LineBreak && ps[24] == ContentOpener
  {
  }

  lemma RenderContainsContent(svg: TextSvg, fmt: real -> string)
    ensures Contains(Markup(svg, fmt), svg.content)
  {
    assert Pieces(svg, fmt)[25] == svg.content;
    RenderContainsPiece(svg, fmt, 25);
  }

  lemma RenderContainsPiece(svg: TextSvg, fmt: real -> string, k: nat)
    requires k < 28
    ensures Contains(Markup(svg, fmt), Pieces(svg, fmt)[k])
  {
    ConcatContainsParts(Pieces(svg, fmt), k);
  }

  lemma RenderContainsAdjacent(svg: TextSvg, fmt: real -> string, k: nat)
    requires k < 27
    ensures Contains(Markup(svg, fmt), Pieces(svg, fmt)[k] + Pieces(svg, fmt)[k + 1])
  {
    ConcatContainsAdjacent(Pieces(svg, fmt), k);
  }

  /** No attribute value the template interpolates holds a '<'. */
  predicate AttributesFreeOfAngle(svg: TextSvg, fmt: real -> string) {
    && '<' !in fmt(svg.width) && '<' !in fmt(svg.height)
    && '<' !in fmt(svg.x) && '<' !in fmt(svg.y)
    && '<' !in fmt(svg.fontSize) && '<' !in fmt(svg.strokeWidth)
    && '<' !in svg.fontFamily && '<' !in svg.fill && '<' !in svg.stroke
    && '<' !in svg.textAnchor && '<' !in svg.dominantBaseline
  }

  lemma AttrAvoids(name: string, value: string, c: char)
    requires c !in name && c != '=' && c != '"' && c !in value
    ensures c !in Attr(name, value)
  {
  }

  /** Between the `<svg` and `<text` openers the pieces hold no '<'. */
  lemma RootPiecesAvoidAngle(svg: TextSvg, fmt: real -> string)
    requires AttributesFreeOfAngle(svg, fmt)
    ensures forall k :: 1 <= k < 6 ==> '<' !in Pieces(svg, fmt)[k]
  {
    PieceIndices(svg, fmt);
    SeparatorIndices(svg, fmt);
    var ps := Pieces(svg, fmt);
    AttrAvoids("width", fmt(svg.width), '<');
    AttrAvoids("height", fmt(svg.height), '<');
    AttrAvoids("xmlns", SvgNamespace, '<');
    forall k | 1 <= k < 6
      ensures '<' !in ps[k]
    {
      assert k == 1 || k == 2 || k == 3 || k == 4 || k == 5;
    }
  }

  /** Between the `<text` opener and the content the pieces hold no '<'. */
  lemma TextPiecesAvoidAngle(svg: TextSvg, fmt: real -> string)
    requires AttributesFreeOfAngle(svg, fmt)
    ensures forall k :: 7 <= k < 25 ==> '<' !in Pieces(svg, fmt)[k]
  {
    PieceIndices(svg, fmt);
    SeparatorIndices(svg, fmt);
    var ps := Pieces(svg, fmt);
    AttrAvoids("x", fmt(svg.x), '<');
    AttrAvoids("y", fmt(svg.y), '<');
    AttrAvoids("font-family", svg.fontFamily, '<');
    AttrAvoids("font-size", fmt(svg.fontSize), '<');
    AttrAvoids("fill", svg.fill, '<');
    AttrAvoids("stroke", svg.stroke, '<');
    AttrAvoids("stroke-width", fmt(svg.strokeWidth), '<');
    AttrAvoids("text-anchor", svg.textAnchor, '<');
    AttrAvoids("dominant-baseline", svg.dominantBaseline, '<');
    forall k | 7 <= k < 25
      ensures '<' !in ps[k]
    {
      assert k == 7 || k == 8 || k == 9 || k == 10 || k == 11 || k == 12
          || k == 13 || k == 14 || k == 15 || k == 16 || k == 17 || k == 18
          || k == 19 || k == 20 || k == 21 || k == 22 || k == 23 || k == 24;
    }
  }

  lemma {:induction false} ConcatSuffix(ps: seq<string>, i: nat, j: nat)
    requires i <= j <= |ps|
    ensures Concat(ps[i..]) == Concat(ps[i..j]) + Concat(ps[j..])
  {
    assert ps[i..] == ps[i..j] + ps[j..];
    ConcatAppend(ps[i..j], ps[j..]);
  }

  /** The markup is, piece by piece, the opening tag, the `<svg>`
      attributes, the `<text` opener, the `<text>` attributes, the content
      and the closing tags. */
  lemma PiecesGrouped(ps: seq<string>)
    requires |ps| == 28
    ensures Concat(ps) == ps[0] + Concat(ps[1..6]) + ps[6] + Concat(ps[7..25]) + ps[25] + ps[26] + ps[27]
  {
    assert Concat(ps) == ps[0] + Concat(ps[1..]);
    ConcatSuffix(ps, 1, 6);
    assert Concat(ps[6..]) == ps[6] + Concat(ps[7..]) by {
      assert ps[6..][1..] == ps[7..];
    }
    ConcatSuffix(ps, 7, 25);
    assert Concat(ps[25..]) == ps[25] + Concat(ps[26..]) by {
      assert ps[25..][1..] == ps[26..];
    }
    assert Concat(ps[26..]) == ps[26] + Concat(ps[27..]) by {
      assert ps[26..][1..] == ps[27..];
    }
    assert Concat(ps[27..]) == ps[27] + Concat([]) by {
      assert ps[27..][1..] == [];
    }
  }

  lemma {:induction false} CountAppend7(a: string, b: string, c: string, d: string, e: string, f: string, g: string, ch: char)
    ensures Count(a + b + c + d + e + f + g, ch)
         == Count(a, ch) + Count(b, ch) + Count(c, ch) + Count(d, ch) + Count(e, ch) + Count(f, ch) + Count(g, ch)
  {
    CountAppend(a, b, ch);
    CountAppend(a + b, c, ch);
    CountAppend(a + b + c, d, ch);
    CountAppend(a + b + c + d, e, ch);
    CountAppend(a + b + c + d + e, f, ch);
    CountAppend(a + b + c + d + e + f, g, ch);
  }

  /** The markup holds exactly four tags of its own (`<svg`, `<text`,
      `</text>`, `</svg>`); every further '<' is one of the content's,
      inserted without escaping. */
  lemma RenderTagCount(svg: TextSvg, fmt: real -> string)
    requires AttributesFreeOfAngle(svg, fmt)
    ensures Count(Markup(svg, fmt), '<') == 4 + Count(svg.content, '<')
  {
    var ps := Pieces(svg, fmt);
    PiecesGrouped(ps);
    AttributeGroupsCountNoAngle(svg, fmt);
    FixedPiecesCount(svg, fmt);
    PieceIndices(svg, fmt);
    CountAppend7(ps[0], Concat(ps[1..6]), ps[6], Concat(ps[7..25]), ps[25], ps[26], ps[27], '<');
  }

  lemma AttributeGroupsCountNoAngle(svg: TextSvg, fmt: real -> string)
    requires AttributesFreeOfAngle(svg, fmt)
    ensures var ps := Pieces(svg, fmt);
      Count(Concat(ps[1..6]), '<') == 0 && Count(Concat(ps[7..25]), '<') == 0
  {
    var ps := Pieces(svg, fmt);
    RootPiecesAvoidAngle(svg, fmt);
    TextPiecesAvoidAngle(svg, fmt);
    assert forall k :: 0 <= k < 5 ==> ps[1..6][k] == ps[k + 1];
    assert forall k :: 0 <= k < 18 ==> ps[7..25][k] == ps[k + 7];
    ConcatAvoids(ps[1..6], '<');
    ConcatAvoids(ps[7..25], '<');
  }

  /** `<svg ` and the `<text` opener hold one '<' each, the closing tags two. */
  lemma FixedPiecesCount(svg: TextSvg, fmt: real -> string)
    ensures var ps := Pieces(svg, fmt);
      && Count(ps[0], '<') == 1 && Count(ps[6], '<') == 1
      && Count(ps[26], '<') == 1 && Count(ps[27], '<') == 1
  {
    SeparatorIndices(svg, fmt);
    SvgOpenerCount();
    TextOpenerCount();
    TextCloserCount();
    SvgCloserCount();
  }

  lemma SvgOpenerCount()
    ensures Count("<svg ", '<') == 1
  {
    OneOccurrence("", "svg ", '<');
    assert "<svg " == "" + ['<'] + "svg ";
  }

  lemma TextOpenerCount()
    ensures Count(TextOpener, '<') == 1
  {
    OneOccurrence(">\n    ", "text \n        ", '<');
    assert TextOpener == ">\n    " + ['<'] + "text \n        ";
  }

  lemma TextCloserCount()
    ensures Count(TextCloser, '<') == 1
  {
    OneOccurrence("\n    ", "/text>", '<');
    assert TextCloser == "\n    " + ['<'] + "/text>";
  }

  lemma SvgCloserCount()
    ensures Count(SvgCloser, '<') == 1
  {
    OneOccurrence("\n", "/svg>", '<');
    assert SvgCloser == "\n" + ['<'] + "/svg>";
  }

  lemma OneOccurrence(a: string, b: string, c: char)
    requires c !in a && c !in b
    ensures Count(a + [c] + b, c) == 1
  {
    CountAppend(a, [c], c);
    CountAppend(a + [c], b, c);
    assert Count([c], c) == 1 + Count([c][1..], c);
  }

  /** The whole call, markup included: `null` options throw, anything else
      yields the rendering of the attribute record for those options (`{}`
      when they are omitted): an `<svg>` element with the text inside it
      verbatim. */
  function GenerateMarkup(text: string, arg: OptionsArg, fmt: real -> string): (r: Result<string>)
    ensures r.Err? <==> arg.NullOptions?
    ensures arg.Object? ==> r == Ok(Markup(GenerateTextSvg(text, arg.options), fmt))
    ensures arg.Omitted? ==> r == Ok(Markup(GenerateTextSvg(text, NoOptions), fmt))
    ensures r.Ok? ==> |r.value| >= 10 && r.value[..5] == "<svg " && r.value[|r.value| - 6..] == "</svg>"
    ensures r.Ok? ==> Contains(r.value, text)
  {
    match Generate(text, arg)
    case Err(e) => Err(e)
    case Ok(svg) =>
      assert svg.content == text;
      RenderContainsContent(svg, fmt);
      Ok(Markup(svg, fmt))
  }

  /** End to end: the returned markup shows every resolved option in its
      place, the anchor point computed from them, and the text. */
  lemma MarkupShowsResolvedOptions(text: string, o: Options, fmt: real -> string)
    ensures var r := GenerateMarkup(text, Object(o), fmt);
      var c := Resolve(o);
      var p := Layout.Position(c);
      && r.Ok?
      && Contains(r.value, "<svg " + Attr("width", fmt(c.width)))
      && Contains(r.value, " " + Attr("height", fmt(c.height)))
      && Contains(r.value, TextOpener + Attr("x", fmt(p.x)))
      && Contains(r.value, AttrBreak + Attr("y", fmt(p.y)))
      && Contains(r.value, AttrBreak + Attr("font-family", c.fontFamily))
      && Contains(r.value, AttrBreak + Attr("font-size", fmt(c.fontSize)))
      && Contains(r.value, AttrBreak + Attr("fill", c.fill))
      && Contains(r.value, AttrBreak + Attr("stroke", c.stroke))
      && Contains(r.value, AttrBreak + Attr("stroke-width", fmt(c.strokeWidth)))
      && Contains(r.value, LineBreak + Attr("text-anchor", c.textAlign))
      && Contains(r.value, LineBreak + Attr("dominant-baseline", "auto"))
      && Contains(r.value, ContentOpener + text)
  {
    var c := Resolve(o);
    var p := Layout.Position(c);
    var svg := TextSvg(c.width, c.height, p.x, p.y, c.fontFamily, c.fontSize, c.fill, c.stroke,
                       c.strokeWidth, c.textAlign, "auto", text);
    assert GenerateMarkup(text, Object(o), fmt) == Ok(Markup(svg, fmt));
    RenderShowsRootAttributes(svg, fmt);
    RenderShowsTextAttributes(svg, fmt);
  }

  /** End to end: an option given a truthy value appears verbatim, in its
      place, as its attribute in the returned markup (a number through
      `fmt`). */
  lemma MarkupShowsGivenOptions(text: string, o: Options, fmt: real -> string)
    ensures var r := GenerateMarkup(text, Object(o), fmt);
      && r.Ok?
      && (!FalsyNumber(o.width) ==> Contains(r.value, "<svg " + Attr("width", fmt(o.width.value))))
      && (!FalsyNumber(o.height) ==> Contains(r.value, " " + Attr("height", fmt(o.height.value))))
      && (!FalsyNumber(o.fontSize) ==> Contains(r.value, AttrBreak + Attr("font-size", fmt(o.fontSize.value))))
      && (!FalsyString(o.fontFamily) ==> Contains(r.value, AttrBreak + Attr("font-family", o.fontFamily.value)))
      && (!FalsyString(o.fill) ==> Contains(r.value, AttrBreak + Attr("fill", o.fill.value)))
      && (!FalsyString(o.stroke) ==> Contains(r.value, AttrBreak + Attr("stroke", o.stroke.value)))
      && (!FalsyNumber(o.strokeWidth) ==> Contains(r.value, AttrBreak + Attr("stroke-width", fmt(o.strokeWidth.value))))
      && (!FalsyString(o.textAlign) ==> Contains(r.value, LineBreak + Attr("text-anchor", o.textAlign.value)))
      && Contains(r.value, LineBreak + Attr("dominant-baseline", "auto"))
      && Contains(r.value, ContentOpener + text)
  {
    MarkupShowsResolvedOptions(text, o, fmt);
    ResolveKeepsGivenValues(o);
  }

  /** End to end: an option left out or given a falsy value appears in the
      returned markup as its attribute with the default value; a default
      width also puts `x` at 150. */
  lemma MarkupShowsDefaults(text: string, o: Options, fmt: real -> string)
    ensures var r := GenerateMarkup(text, Object(o), fmt);
      && r.Ok?
      && (FalsyNumber(o.width) ==>
            Contains(r.value, "<svg " + Attr("width", fmt(300.0)))
            && Contains(r.value, TextOpener + Attr("x", fmt(150.0))))
      && (FalsyNumber(o.height) ==> Contains(r.value, " " + Attr("height", fmt(150.0))))
      && (FalsyNumber(o.fontSize) ==> Contains(r.value, AttrBreak + Attr("font-size", fmt(48.0))))
      && (FalsyString(o.fontFamily) ==> Contains(r.value, AttrBreak + Attr("font-family", "Arial, Helvetica, sans-serif")))
      && (FalsyString(o.fill) ==> Contains(r.value, AttrBreak + Attr("fill", "#000000")))
      && (FalsyString(o.stroke) ==> Contains(r.value, AttrBreak + Attr("stroke", "none")))
      && (FalsyNumber(o.strokeWidth) ==> Contains(r.value, AttrBreak + Attr("stroke-width", fmt(1.0))))
      && (FalsyString(o.textAlign) ==> Contains(r.value, LineBreak + Attr("text-anchor", "center")))
  {
    MarkupShowsResolvedOptions(text, o, fmt);
    ResolveFallsBackToDefaults(o);
  }

  /** End to end, with the options argument left out: the markup of
      `generateTextSVG(text)` is a 300 by 150 root whose text sits at
      (150, 621/7), in 48-unit Arial, black, unstroked, anchored "center". */
  lemma MarkupOmittedShowsDefaults(text: string, fmt: real -> string)
    ensures var r := GenerateMarkup(text, Omitted, fmt);
      && r.Ok?
      && Contains(r.value, "<svg " + Attr("width", fmt(300.0)))
      && Contains(r.value, " " + Attr("height", fmt(150.0)))
      && Contains(r.value, TextOpener + Attr("x", fmt(150.0)))
      && Contains(r.value, AttrBreak + Attr("y", fmt(621.0 / 7.0)))
      && Contains(r.value, AttrBreak + Attr("font-family", "Arial, Helvetica, sans-serif"))
      && Contains(r.value, AttrBreak + Attr("font-size", fmt(48.0)))
      && Contains(r.value, AttrBreak + Attr("fill", "#000000"))
      && Contains(r.value, AttrBreak + Attr("stroke", "none"))
      && Contains(r.value, AttrBreak + Attr("stroke-width", fmt(1.0)))
      && Contains(r.value, LineBreak + Attr("text-anchor", "center"))
      && Contains(r.value, ContentOpener + text)
  {
    MarkupShowsResolvedOptions(text, NoOptions, fmt);
    ResolveOfResolved(DefaultConfig);
    assert Layout.Position(DefaultConfig).y == 621.0 / 7.0;
  }
}
