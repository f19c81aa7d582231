// RGBA colours as the programs store them: four components in [0, 1], kept
// as plain four-element arrays in the source and as a value here.

module Colors {

  datatype Rgba = Rgba(r: real, g: real, b: real, a: real)

  const White: Rgba := Rgba(1.0, 1.0, 1.0, 1.0)
  const Yellow: Rgba := Rgba(1.0, 1.0, 0.0, 1.0)

  predicate InUnitRange(c: Rgba) {
    0.0 <= c.r <= 1.0 && 0.0 <= c.g <= 1.0 && 0.0 <= c.b <= 1.0 && 0.0 <= c.a <= 1.0
  }
}
