/** `generateTextSVG(text, options)` up to serialisation: the attributes of
    the `<svg>` root and of its single `<text>` child, as an abstract record. */
module SvgText {
  import opened Options
  import opened Layout

  /** Everything the template interpolates, one field per attribute, plus the
      character content of `<text>`. */
  datatype TextSvg = TextSvg(
    width: real,               // <svg width>
    height: real,              // <svg height>
    x: real,                   // <text x>
    y: real,                   // <text y>
    fontFamily: string,        // font-family
    fontSize: real,            // font-size
    fill: string,              // fill
    stroke: string,            // stroke
    strokeWidth: real,         // stroke-width
    textAnchor: string,        // text-anchor
    dominantBaseline: string,  // dominant-baseline
    content: string)           // the text, unescaped

  /** The second argument as passed: left out (or `undefined`, which the
      default parameter `options = {}` replaces), `null`, or an object. */
  datatype OptionsArg = Omitted | NullOptions | Object(options: Options)

  /** Reading `options.width` of `null` throws a TypeError. */
  datatype Error = TypeError

  datatype Result<T> = Ok(value: T) | Err(error: Error)

  /** The function for an options object: resolve, lay out, and fill in the
      attributes. Every resolved field reaches its attribute unchanged, the
      anchor is forwarded from `textAlign` without validation, and the
      baseline mode is the constant "auto". */
  function GenerateTextSvg(text: string, o: Options): (svg: TextSvg)
    ensures var c := Resolve(o);
      && svg.width == c.width && svg.height == c.height
      && svg.fontFamily == c.fontFamily && svg.fontSize == c.fontSize
      && svg.fill == c.fill && svg.stroke == c.stroke && svg.strokeWidth == c.strokeWidth
      && svg.textAnchor == c.textAlign
    ensures svg.dominantBaseline == "auto"
    ensures svg.content == text
    ensures svg.x * 2.0 == svg.width
    ensures var va := Resolve(o).verticalAlign;
      && (va == "middle" ==> svg.y == svg.height / 2.0 + svg.fontSize * 2.0 / 7.0)
      && (va == "top" ==> svg.y == svg.fontSize)
      && (va != "middle" && va != "top" ==> svg.y == svg.height - 10.0)
  {
    var c := Resolve(o);
    var p := Position(c);
    TextSvg(c.width, c.height, p.x, p.y, c.fontFamily, c.fontSize, c.fill, c.stroke,
            c.strokeWidth, c.textAlign, "auto", text)
  }

  /** The call as JavaScript makes it: an omitted options argument means `{}`,
      an object is used as is, and `null` throws at the first property read.
      Among the argument shapes modelled, no other one fails. */
  function Generate(text: string, arg: OptionsArg): (r: Result<TextSvg>)
    ensures r.Err? <==> arg.NullOptions?
    ensures arg.Omitted? ==> r == Ok(GenerateTextSvg(text, NoOptions))
    ensures arg.Object? ==> r == Ok(GenerateTextSvg(text, arg.options))
  {
    match arg
    case Omitted => Ok(GenerateTextSvg(text, NoOptions))
    case NullOptions => Err(TypeError)
    case Object(o) => Ok(GenerateTextSvg(text, o))
  }

  /** An option given a truthy value shows up verbatim in its attribute. */
  lemma GivenOptionsReachOutput(text: string, o: Options)
    ensures var svg := GenerateTextSvg(text, o);
      && (!FalsyNumber(o.width) ==> svg.width == o.width.value)
      && (!FalsyNumber(o.height) ==> svg.height == o.height.value)
      && (!FalsyNumber(o.fontSize) ==> svg.fontSize == o.fontSize.value)
      && (!FalsyString(o.fontFamily) ==> svg.fontFamily == o.fontFamily.value)
      && (!FalsyString(o.fill) ==> svg.fill == o.fill.value)
      && (!FalsyString(o.stroke) ==> svg.stroke == o.stroke.value)
      && (!FalsyNumber(o.strokeWidth) ==> svg.strokeWidth == o.strokeWidth.value)
      && (!FalsyString(o.textAlign) ==> svg.textAnchor == o.textAlign.value)
  {
    ResolveKeepsGivenValues(o);
  }

  /** An option left out or given a falsy value shows up as its default. */
  lemma FalsyOptionsReachOutputAsDefaults(text: string, o: Options)
    ensures var svg := GenerateTextSvg(text, o);
      && (FalsyNumber(o.width) ==> svg.width == DefaultWidth && svg.x == 150.0)
      && (FalsyNumber(o.height) ==> svg.height == DefaultHeight)
      && (FalsyNumber(o.fontSize) ==> svg.fontSize == DefaultFontSize)
      && (FalsyString(o.fontFamily) ==> svg.fontFamily == DefaultFontFamily)
      && (FalsyString(o.fill) ==> svg.fill == DefaultFill)
      && (FalsyString(o.stroke) ==> svg.stroke == DefaultStroke)
      && (FalsyNumber(o.strokeWidth) ==> svg.strokeWidth == DefaultStrokeWidth)
      && (FalsyString(o.textAlign) ==> svg.textAnchor == DefaultTextAlign)
      && (FalsyString(o.verticalAlign) ==> svg.y == svg.height / 2.0 + svg.fontSize * 2.0 / 7.0)
  {
    ResolveFallsBackToDefaults(o);
  }

  /** Behaviour on concrete calls. */
  lemma ConcreteCalls()
    // generateTextSVG("A", {}): 300 x 150, font size 48, y = 75 + 48/3.5 = 621/7
    ensures var svg := GenerateTextSvg("A", NoOptions);
      svg.width == 300.0 && svg.height == 150.0 && svg.fontSize == 48.0 && svg.y == 621.0 / 7.0
    // { verticalAlign: "top", fontSize: 20 }: y = 20
    ensures GenerateTextSvg("B", NoOptions.(verticalAlign := Given("top"), fontSize := Given(20.0))).y == 20.0
    // { verticalAlign: "bottom", height: 100 }: y = 90
    ensures GenerateTextSvg("C", NoOptions.(verticalAlign := Given("bottom"), height := Given(100.0))).y == 90.0
    // { width: 400 }: x = 200
    ensures GenerateTextSvg("D", NoOptions.(width := Given(400.0))).x == 200.0
    // { width: 0 } does not give width 0
    ensures GenerateTextSvg("E", NoOptions.(width := Given(0.0))).width == 300.0
    // { fill: "" } and { fill: "#ff0000" }
    ensures GenerateTextSvg("F", NoOptions.(fill := Given(""))).fill == "#000000"
    ensures GenerateTextSvg("F", NoOptions.(fill := Given("#ff0000"))).fill == "#ff0000"
    // an unrecognised alignment such as "Middle" lands at the bottom
    ensures GenerateTextSvg("G", NoOptions.(verticalAlign := Given("Middle"))).y == 140.0
    // textAlign "left" is forwarded but x stays centred
    ensures var svg := GenerateTextSvg("H", NoOptions.(textAlign := Given("left")));
      svg.textAnchor == "left" && svg.x == 150.0
    // null options throw; omitted options are `{}`
    ensures Generate("I", NullOptions).Err?
    ensures Generate("I", Omitted) == Generate("I", Object(NoOptions))
  {
  }
}
