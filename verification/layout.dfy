/** Where `generateTextSVG` places the text: the anchor point `(x, y)` of the
    `<text>` element, computed from the resolved configuration. Arithmetic is
    over the reals; the source's `fontSize / 3.5` is `fontSize * 2 / 7`. */
module Layout {
  import opened Options

  datatype Point = Point(x: real, y: real)

  /** The baseline `y`: a three-way branch on `verticalAlign` by strict
      equality, with every value other than "middle" and "top" placed 10
      units above the bottom edge. */
  function Baseline(c: Config): (y: real)
    ensures c.verticalAlign == "middle" ==> y - c.height / 2.0 == c.fontSize * 2.0 / 7.0
    ensures c.verticalAlign == "top" ==> y == c.fontSize
    ensures c.verticalAlign != "middle" && c.verticalAlign != "top" ==> c.height - y == 10.0
  {
    if c.verticalAlign == "middle" then
      c.height / 2.0 + c.fontSize / 3.5
    else if c.verticalAlign == "top" then
      c.fontSize
    else
      c.height - 10.0
  }

  /** The anchor point: horizontally always the centre of the canvas,
      whatever `textAlign` says; vertically the baseline. */
  function Position(c: Config): (p: Point)
    ensures p.x * 2.0 == c.width
    ensures c.verticalAlign == "middle" ==> p.y == c.height / 2.0 + c.fontSize * 2.0 / 7.0
    ensures c.verticalAlign == "top" ==> p.y == c.fontSize
    ensures c.verticalAlign != "middle" && c.verticalAlign != "top" ==> p.y == c.height - 10.0
  {
    Point(c.width / 2.0, Baseline(c))
  }

  /** `textAlign` never moves the anchor point. */
  lemma PositionIgnoresTextAlign(c: Config, align: string)
    ensures Position(c.(textAlign := align)) == Position(c)
  {
  }

  /** Strict equality: any `verticalAlign` other than exactly "middle" or
      "top" (say "Middle" or "center") is laid out exactly like "bottom". */
  lemma UnrecognisedAlignIsBottom(c: Config, align: string)
    requires align != "middle" && align != "top"
    ensures Position(c.(verticalAlign := align)) == Position(c.(verticalAlign := "bottom"))
  {
  }

  /** The anchor point reads only the width, height, font size and vertical
      alignment of the configuration. */
  lemma PositionDependsOnGeometryOnly(c: Config, c': Config)
    requires c.width == c'.width && c.height == c'.height
    requires c.fontSize == c'.fontSize && c.verticalAlign == c'.verticalAlign
    ensures Position(c) == Position(c')
  {
  }
}
