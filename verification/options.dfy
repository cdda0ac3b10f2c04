/** Option resolution of `generateTextSVG`: each of the nine fields of the
    caller's options object is replaced by its default when it is absent or
    falsy, and is taken unchanged otherwise. */
module Options {
  import opened JsValues

  /** One option as a caller can supply it: missing (or explicitly `undefined`),
      `null`, `false`, or a value of the field's own type. */
  datatype Opt<T> = Absent | Null | False | Given(value: T)

  /** The caller's options object; a missing key is `Absent`. */
  datatype Options = Options(
    width: Opt<real>,
    height: Opt<real>,
    fontSize: Opt<real>,
    fontFamily: Opt<string>,
    fill: Opt<string>,
    stroke: Opt<string>,
    strokeWidth: Opt<real>,
    textAlign: Opt<string>,
    verticalAlign: Opt<string>)

  /** The empty options object `{}`. */
  const NoOptions := Options(Absent, Absent, Absent, Absent, Absent, Absent, Absent, Absent, Absent)

  /** The resolved configuration the rest of the function reads. */
  datatype Config = Config(
    width: real,
    height: real,
    fontSize: real,
    fontFamily: string,
    fill: string,
    stroke: string,
    strokeWidth: real,
    textAlign: string,
    verticalAlign: string)

  const DefaultWidth: real := 300.0
  const DefaultHeight: real := 150.0
  const DefaultFontSize: real := 48.0
  const DefaultFontFamily: string := "Arial, Helvetica, sans-serif"
  const DefaultFill: string := "#000000"
  const DefaultStroke: string := "none"
  const DefaultStrokeWidth: real := 1.0
  const DefaultTextAlign: string := "center"
  const DefaultVerticalAlign: string := "middle"

  /** The configuration an empty options object resolves to. */
  const DefaultConfig := Config(DefaultWidth, DefaultHeight, DefaultFontSize, DefaultFontFamily,
                                DefaultFill, DefaultStroke, DefaultStrokeWidth, DefaultTextAlign,
                                DefaultVerticalAlign)

  /** The JavaScript value a numeric option stands for. */
  function NumberValue(o: Opt<real>): JsValue {
    match o
    case Absent => Undefined
    case Null => JsValue.Null
    case False => Boolean(false)
    case Given(n) => Number(n)
  }

  /** The JavaScript value a string option stands for. */
  function StringValue(o: Opt<string>): JsValue {
    match o
    case Absent => Undefined
    case Null => JsValue.Null
    case False => Boolean(false)
    case Given(s) => String(s)
  }

  /** A numeric option that `||` passes over: anything but a non-zero number. */
  predicate FalsyNumber(o: Opt<real>) {
    !o.Given? || o.value == 0.0
  }

  /** A string option that `||` passes over: anything but a non-empty string. */
  predicate FalsyString(o: Opt<string>) {
    !o.Given? || o.value == ""
  }

  /** `option || fallback` for a numeric field. */
  function OrNumber(o: Opt<real>, fallback: real): (r: real)
    ensures LogicalOr(NumberValue(o), Number(fallback)) == Number(r)
  {
    if FalsyNumber(o) then fallback else o.value
  }

  /** `option || fallback` for a string field. */
  function OrString(o: Opt<string>, fallback: string): (r: string)
    ensures LogicalOr(StringValue(o), String(fallback)) == String(r)
  {
    if FalsyString(o) then fallback else o.value
  }

  /** The `const config = { ... }` object literal: every field independently
      `options.field || default`. Since every default is truthy, so is every
      resolved field. */
  function Resolve(o: Options): (c: Config)
    ensures c.width != 0.0 && c.height != 0.0 && c.fontSize != 0.0 && c.strokeWidth != 0.0
    ensures c.fontFamily != "" && c.fill != "" && c.stroke != ""
    ensures c.textAlign != "" && c.verticalAlign != ""
  {
    Config(
      OrNumber(o.width, DefaultWidth),
      OrNumber(o.height, DefaultHeight),
      OrNumber(o.fontSize, DefaultFontSize),
      OrString(o.fontFamily, DefaultFontFamily),
      OrString(o.fill, DefaultFill),
      OrString(o.stroke, DefaultStroke),
      OrNumber(o.strokeWidth, DefaultStrokeWidth),
      OrString(o.textAlign, DefaultTextAlign),
      OrString(o.verticalAlign, DefaultVerticalAlign))
  }

  /** Falsiness of the typed options is exactly JavaScript's ToBoolean. */
  lemma FalsyIsToBoolean(n: Opt<real>, s: Opt<string>)
    ensures FalsyNumber(n) <==> !ToBoolean(NumberValue(n))
    ensures FalsyString(s) <==> !ToBoolean(StringValue(s))
  {
  }

  /** A field that is absent, null, false, zero or empty falls back to its default. */
  lemma ResolveFallsBackToDefaults(o: Options)
    ensures FalsyNumber(o.width) ==> Resolve(o).width == 300.0
    ensures FalsyNumber(o.height) ==> Resolve(o).height == 150.0
    ensures FalsyNumber(o.fontSize) ==> Resolve(o).fontSize == 48.0
    ensures FalsyString(o.fontFamily) ==> Resolve(o).fontFamily == "Arial, Helvetica, sans-serif"
    ensures FalsyString(o.fill) ==> Resolve(o).fill == "#000000"
    ensures FalsyString(o.stroke) ==> Resolve(o).stroke == "none"
    ensures FalsyNumber(o.strokeWidth) ==> Resolve(o).strokeWidth == 1.0
    ensures FalsyString(o.textAlign) ==> Resolve(o).textAlign == "center"
    ensures FalsyString(o.verticalAlign) ==> Resolve(o).verticalAlign == "middle"
  {
  }

  /** A field given a truthy value keeps that value unchanged. */
  lemma ResolveKeepsGivenValues(o: Options)
    ensures !FalsyNumber(o.width) ==> Resolve(o).width == o.width.value
    ensures !FalsyNumber(o.height) ==> Resolve(o).height == o.height.value
    ensures !FalsyNumber(o.fontSize) ==> Resolve(o).fontSize == o.fontSize.value
    ensures !FalsyString(o.fontFamily) ==> Resolve(o).fontFamily == o.fontFamily.value
    ensures !FalsyString(o.fill) ==> Resolve(o).fill == o.fill.value
    ensures !FalsyString(o.stroke) ==> Resolve(o).stroke == o.stroke.value
    ensures !FalsyNumber(o.strokeWidth) ==> Resolve(o).strokeWidth == o.strokeWidth.value
    ensures !FalsyString(o.textAlign) ==> Resolve(o).textAlign == o.textAlign.value
    ensures !FalsyString(o.verticalAlign) ==> Resolve(o).verticalAlign == o.verticalAlign.value
  {
  }

  /** Each resolved field depends on its own option only: two options objects
      that agree on a field resolve to the same value for it. */
  lemma ResolveFieldsIndependent(o: Options, o': Options)
    ensures o.width == o'.width ==> Resolve(o).width == Resolve(o').width
    ensures o.height == o'.height ==> Resolve(o).height == Resolve(o').height
    ensures o.fontSize == o'.fontSize ==> Resolve(o).fontSize == Resolve(o').fontSize
    ensures o.fontFamily == o'.fontFamily ==> Resolve(o).fontFamily == Resolve(o').fontFamily
    ensures o.fill == o'.fill ==> Resolve(o).fill == Resolve(o').fill
    ensures o.stroke == o'.stroke ==> Resolve(o).stroke == Resolve(o').stroke
    ensures o.strokeWidth == o'.strokeWidth ==> Resolve(o).strokeWidth == Resolve(o').strokeWidth
    ensures o.textAlign == o'.textAlign ==> Resolve(o).textAlign == Resolve(o').textAlign
    ensures o.verticalAlign == o'.verticalAlign ==> Resolve(o).verticalAlign == Resolve(o').verticalAlign
  {
  }

  /** Resolution is the identity on an options object whose fields are all
      given truthy values, and the empty object resolves to the defaults. */
  lemma ResolveOfResolved(c: Config)
    requires c.width != 0.0 && c.height != 0.0 && c.fontSize != 0.0 && c.strokeWidth != 0.0
    requires c.fontFamily != "" && c.fill != "" && c.stroke != ""
    requires c.textAlign != "" && c.verticalAlign != ""
    ensures Resolve(Options(Given(c.width), Given(c.height), Given(c.fontSize), Given(c.fontFamily),
                            Given(c.fill), Given(c.stroke), Given(c.strokeWidth), Given(c.textAlign),
                            Given(c.verticalAlign))) == c
    ensures Resolve(NoOptions) == DefaultConfig
  {
  }
}
