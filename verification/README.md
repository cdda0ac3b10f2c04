# SVG text generator — Dafny model

A model of `generateTextSVG(text, options)`, the JavaScript function that
turns a short string into an SVG document. The function has three stages,
and the model follows them:

1. **Option resolution.** Each of nine fields is resolved on its own as
   `options.field || default`. So a field that is missing, `undefined`,
   `null`, `false`, `0` or `""` gets its default, and any other value is
   used as given. The defaults are: width 300, height 150, font size 48,
   font family `Arial, Helvetica, sans-serif`, fill `#000000`, stroke
   `none`, stroke width 1, text alignment `center`, vertical alignment
   `middle`.
2. **Layout.** `x` is always half the width. `y` comes from a three-way
   branch on `verticalAlign` by strict equality:
   - `"middle"` gives `height/2 + fontSize/3.5`;
   - `"top"` gives `fontSize`;
   - any other string gives `height - 10`.
3. **Serialisation.** A fixed template writes one `<svg>` root holding one
   `<text>` element. `textAlign` is forwarded as `text-anchor`,
   `dominant-baseline` is the constant `auto`, the text is inserted without
   escaping, and the result is trimmed.

Six modules: one per stage (`Options`, `Layout`, `Render`), the call
itself (`SvgText`), and two helpers (`JsValues`, `Strings`):

- `JsValues` (`js_values.dfy`): JavaScript primitives, ToBoolean and `||`.
  These are the reference for what resolution must do.
- `Options` (`options.dfy`): the options object, its resolution and the
  resolved `Config`.
- `Layout` (`layout.dfy`): the anchor point `(x, y)`.
- `SvgText` (`svg_text.dfy`): the output as an abstract attribute record
  `TextSvg`, and the call itself, including how the options argument is
  passed.
- `Strings` (`strings.dfy`): `String.prototype.trim`, concatenation,
  occurrence and counting.
- `Render` (`render.dfy`): the template literal and the trimmed markup
  string.

Numbers are `real`, so `fontSize / 3.5` is exactly `fontSize * 2 / 7`. How
JavaScript prints a number is not modelled. `Render.Markup` takes the formatter
as a parameter `fmt: real -> string` and proves only the facts that hold
for every formatter.

Option values are typed: `Opt<T> = Absent | Null | False | Given(value)`.
A numeric option is falsy when it is not `Given` or is `Given(0.0)`. A
string option is falsy when it is not `Given` or is `Given("")`.
`Options.FalsyIsToBoolean` shows that this matches ECMAScript's ToBoolean.
`OrNumber` and `OrString` are proved equal to JavaScript's `||` on the
corresponding values.

Every operation of the model is a pure function with no precondition.
Calling `generateTextSVG` with `null` options throws a TypeError at line
10, because the default parameter `options = {}` replaces only
`undefined`. Among the option types the model expresses, this is the only
call that throws: `SvgText.Generate` returns `Err(TypeError)` exactly for
`NullOptions`. Option values the model cannot express, which can also
throw, are listed under "Left out".

## Model

| member | source | states |
|---|---|---|
| `JsValues.LogicalOr` | img/codeToSvg/svg-generator.js:10-18 | the logical-or of two values is one of them. It is the left one, unchanged, exactly when that one is truthy; otherwise it is the right one |
| `Options.OrNumber` | img/codeToSvg/svg-generator.js:10-16 | resolving a numeric option gives the same value as JavaScript's logical-or of the option and the default |
| `Options.OrString` | img/codeToSvg/svg-generator.js:13-18 | resolving a string option gives the same value as JavaScript's logical-or of the option and the default |
| `Options.FalsyIsToBoolean` | img/codeToSvg/svg-generator.js:10-18 | an option counts as falsy exactly when ECMAScript's ToBoolean is false for the value it stands for |
| `Options.Resolve` | img/codeToSvg/svg-generator.js:9-19 | no resolved field is falsy: no zero number and no empty string, whatever the options were |
| `Options.ResolveFallsBackToDefaults` | img/codeToSvg/svg-generator.js:10-18 | each of the nine fields that is absent, null, false, zero or empty resolves to its default, e.g. `width: 0` gives 300 |
| `Options.ResolveKeepsGivenValues` | img/codeToSvg/svg-generator.js:10-18 | each of the nine fields given a truthy value resolves to exactly that value |
| `Options.ResolveFieldsIndependent` | img/codeToSvg/svg-generator.js:9-19 | two options objects that agree on a field resolve to the same value for it; no field depends on another |
| `Options.ResolveOfResolved` | img/codeToSvg/svg-generator.js:9-19 | resolving a fully given truthy configuration gives that configuration back, and `{}` resolves to the default table |
| `Layout.Baseline` | img/codeToSvg/svg-generator.js:22-29 | the baseline `y` is `fontSize*2/7` below the vertical centre for "middle", one font size below the top edge for "top", and 10 above the bottom edge for every other value |
| `Layout.Position` | img/codeToSvg/svg-generator.js:22-35 | `x` is half the width. `y` is `height/2 + fontSize*2/7` for "middle", `fontSize` for "top", and `height - 10` for every other value |
| `Layout.PositionIgnoresTextAlign` | img/codeToSvg/svg-generator.js:35 | changing `textAlign` never moves the anchor point |
| `Layout.UnrecognisedAlignIsBottom` | img/codeToSvg/svg-generator.js:23-28 | any vertical alignment other than exactly "middle" or "top" (e.g. "Middle") is laid out exactly like "bottom" |
| `Layout.PositionDependsOnGeometryOnly` | img/codeToSvg/svg-generator.js:22-35 | the anchor point depends only on width, height, font size and vertical alignment |
| `SvgText.GenerateTextSvg` | img/codeToSvg/svg-generator.js:7-51 | each attribute carries its resolved field. `text-anchor` is the resolved `textAlign` unvalidated, `dominant-baseline` is "auto", the content is the text, `x` is half the width, and `y` follows the three alignment cases |
| `SvgText.Generate` | img/codeToSvg/svg-generator.js:7-10 | an omitted options argument behaves as `{}`. The call fails with a TypeError exactly when options is `null` |
| `SvgText.GivenOptionsReachOutput` | img/codeToSvg/svg-generator.js:10-42 | a field given a truthy value appears unchanged in its output attribute, e.g. `fill: "#ff0000"` gives fill `#ff0000` |
| `SvgText.FalsyOptionsReachOutputAsDefaults` | img/codeToSvg/svg-generator.js:10-42 | a falsy or missing field appears as its default in the output. A falsy vertical alignment gives the "middle" baseline |
| `SvgText.ConcreteCalls` | img/codeToSvg/svg-generator.js:7-51 | on concrete calls: `{}` gives 300×150 and `y = 621/7`; top with font size 20 gives `y = 20`; bottom with height 100 gives `y = 90`; width 400 gives `x = 200`; `width: 0` gives 300; "Middle" gives the bottom baseline; `null` throws |
| `Strings.TrimStart` | img/codeToSvg/svg-generator.js:48 | the result is a suffix of the input, everything dropped is white space, and the result does not start with white space |
| `Strings.TrimEnd` | img/codeToSvg/svg-generator.js:48 | the result is a prefix of the input, everything dropped is white space, and the result does not end with white space |
| `Strings.TrimStartDropsLongestPrefix` | img/codeToSvg/svg-generator.js:48 | the start of `trim` removes exactly the longest white-space prefix |
| `Strings.TrimEndDropsLongestSuffix` | img/codeToSvg/svg-generator.js:48 | the end of `trim` removes exactly the longest white-space suffix |
| `Strings.Trim` | img/codeToSvg/svg-generator.js:48 | a trimmed string neither starts nor ends with white space, and it is empty exactly when the input was all white space |
| `Strings.TrimStripsPadding` | img/codeToSvg/svg-generator.js:32-48 | trimming white-space padding around a body that neither starts nor ends with white space gives back exactly that body |
| `Render.Pieces` | img/codeToSvg/svg-generator.js:32-47 | the template is cut into 28 pieces. It opens with `<svg ` and closes with the `</text>` line and the `</svg>` line. The helper lemmas `PieceIndices` and `SeparatorIndices` spell out the rest: the twelve attributes in the template's order, the text, and the fixed text between them verbatim |
| `Render.Template` | img/codeToSvg/svg-generator.js:32-48 | trimming the template literal (a leading line break, the element, and the indentation of the closing backtick's line) leaves exactly the joined pieces |
| `Render.Markup` | img/codeToSvg/svg-generator.js:32-48 | the returned string is exactly the joined pieces. It starts with `<svg ` and ends with `</svg>` |
| `Render.MarkupOpensWithRootTag` | img/codeToSvg/svg-generator.js:33-34 | the markup starts with the whole root tag as written: `<svg width="…" height="…" xmlns="http://www.w3.org/2000/svg">`, followed by the `<text` opener |
| `Render.RenderShowsRootAttributes` | img/codeToSvg/svg-generator.js:33 | the markup starts with `<svg `, then `width="…"`, ` height="…"` and ` xmlns="http://www.w3.org/2000/svg"` in this order, then `>` and the `<text` opener. Each value appears verbatim, so `stroke-width` cannot stand in for `width` |
| `Render.RenderShowsTextAttributes` | img/codeToSvg/svg-generator.js:34-45 | each `<text>` attribute (`x`, `y`, `font-family`, `font-size`, `fill`, `stroke`, `stroke-width`, `text-anchor`, `dominant-baseline`) appears verbatim as `name="value"` at the start of its own template line, and the content follows the tag's closing `>` line |
| `Render.RenderTagCount` | img/codeToSvg/svg-generator.js:32-47 | when no attribute value holds a `<`, the markup has exactly 4 `<` characters plus those of the content. So the template contributes one `<svg>` and one `<text>` with their closing tags, and any further tag comes from the unescaped text |
| `Render.GenerateMarkup` | img/codeToSvg/svg-generator.js:7-51 | the whole call fails exactly for `null` options. For an object it returns the rendering of that object's attribute record, and for omitted options that of `{}`. Either way the result is an `<svg ` … `</svg>` string that contains the text verbatim |
| `Render.MarkupShowsResolvedOptions` | img/codeToSvg/svg-generator.js:9-45 | end to end: the returned markup shows every resolved option in its place, together with the anchor point computed from them, `dominant-baseline="auto"` and the text |
| `Render.MarkupShowsGivenOptions` | img/codeToSvg/svg-generator.js:10-45 | end to end: a truthy option appears in the returned markup as its `name="value"` attribute in its place (numbers through the formatter), e.g. `width: 400` gives `<svg width="400"` |
| `Render.MarkupShowsDefaults` | img/codeToSvg/svg-generator.js:10-45 | end to end: an option that is absent, null, false, zero or empty appears in the returned markup with its default, e.g. `width: 0` gives `<svg width="300"` and `x="150"`, and `fill: ""` gives `fill="#000000"` |
| `Render.MarkupOmittedShowsDefaults` | img/codeToSvg/svg-generator.js:7-45 | end to end, with no options argument: the markup has width 300, height 150, `x` 150, `y` 621/7, font family `Arial, Helvetica, sans-serif`, font size 48, fill `#000000`, stroke `none`, stroke width 1, `text-anchor="center"` and the text |

## Left out

- The usage example, its `console.log` and the browser download block
  (`Blob`, `URL.createObjectURL`, the anchor click) at lines 53-76. They
  are demonstration callers and host I/O, not part of the function.
- Number-to-string conversion inside the template literal (for example
  `88.71428571428571`). It is a parameter `fmt` of `Render.Markup`, and only
  facts true for every formatter are proved.
- IEEE-754 rounding of `/ 2` and `/ 3.5`. The arithmetic is over `real`.
- `NaN` and the BigInt `0n` as falsy option values. `Opt<real>` cannot
  express them; both resolve to the default like any other falsy value.
- JavaScript type coercion: any option of a JavaScript type other than
  its field's, and a `text` that is not a string. Each field's type is
  fixed by the `Opt<T>` type it is given. Examples: `fill: true` prints
  `fill="true"` (lines 14 and 39); `verticalAlign: true` gives the bottom
  layout; `width: {}` prints `[object Object]` and `x="NaN"`.
- Symbol option values. The template literal converts the value of every
  field except `verticalAlign` to a string (lines 33-45), and converting a
  Symbol throws a TypeError. `verticalAlign` is only compared with `===`
  (lines 23 and 25), so a Symbol there gives the bottom layout and no error.
- BigInt option values. A non-zero BigInt `width` throws a TypeError at line 35,
  where `config.width / 2` mixes it with a Number. For the same reason a
  non-zero BigInt `height` throws under "middle" and "bottom" (lines 24 and 28), and
  a non-zero BigInt `fontSize` throws under "middle" (line 24). Other BigInt values
  do not throw: `verticalAlign` is only compared, and every other field is
  printed.
- Objects without a prototype (`Object.create(null)`) as option values.
  They have no `toString`, so the template throws when it converts one,
  for every field except `verticalAlign` (lines 33-45). As `verticalAlign`
  such an object gives the bottom layout.
- `Infinity` and `-Infinity` as numeric option values. They are truthy,
  but `Opt<real>` cannot express them.
- A primitive (non-object, non-null) options argument. JavaScript reads
  `undefined` from it for every field. This is the same as `Omitted` and
  is not modelled separately.
- XML escaping of `text` and of attribute values. The source does none,
  and the model adds none; `Render.RenderTagCount` shows the effect.
