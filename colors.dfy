/** The two colour helpers of the `UIColor` extension: lighten and darken a
    colour by clamping each RGB channel, leaving alpha alone. */
module Colors {

  /** A colour either decomposes into red, green, blue and alpha channels
      (`getRed(_:green:blue:alpha:)` succeeds) or it does not (a pattern
      colour, say), in which case only its identity is known. */
  datatype Color = Rgba(red: real, green: real, blue: real, alpha: real) | NonRgb(id: nat)

  const RedColor: Color := Rgba(1.0, 0.0, 0.0, 1.0)
  const ClearColor: Color := Rgba(0.0, 0.0, 0.0, 0.0)

  function Min(x: real, y: real): real { if x <= y then x else y }

  function Max(x: real, y: real): real { if x >= y then x else y }

  /** `x` is the smaller of `a` and `b`. */
  predicate IsMinOf(x: real, a: real, b: real) { x <= a && x <= b && (x == a || x == b) }

  /** `x` is the larger of `a` and `b`. */
  predicate IsMaxOf(x: real, a: real, b: real) { x >= a && x >= b && (x == a || x == b) }

  predicate InUnit(x: real) { 0.0 <= x <= 1.0 }

  /** Every RGB channel of a decomposable colour lies in [0, 1]. */
  predicate ChannelsInUnit(c: Color) {
    c.Rgba? ==> InUnit(c.red) && InUnit(c.green) && InUnit(c.blue)
  }

  /** `lightenColor`: each channel becomes min(channel + factor, 1), alpha is kept;
      a colour that does not decompose comes back unchanged. */
  function LightenColor(c: Color, factor: real): (r: Color)
    ensures c.NonRgb? ==> r == c
    ensures c.Rgba? ==> r.Rgba? && r.alpha == c.alpha
    ensures c.Rgba? ==>
              && IsMinOf(r.red, c.red + factor, 1.0)
              && IsMinOf(r.green, c.green + factor, 1.0)
              && IsMinOf(r.blue, c.blue + factor, 1.0)
    ensures ChannelsInUnit(c) && factor >= 0.0 ==> ChannelsInUnit(r)
    ensures c.Rgba? && factor >= 0.0 && ChannelsInUnit(c) ==>
              r.red >= c.red && r.green >= c.green && r.blue >= c.blue
  {
    match c
    case Rgba(red, green, blue, alpha) =>
      Rgba(Min(red + factor, 1.0), Min(green + factor, 1.0), Min(blue + factor, 1.0), alpha)
    case NonRgb(_) => c
  }

  /** `darkenColor`: each channel becomes max(channel - factor, 0), alpha is kept;
      a colour that does not decompose comes back unchanged. */
  function DarkenColor(c: Color, factor: real): (r: Color)
    ensures c.NonRgb? ==> r == c
    ensures c.Rgba? ==> r.Rgba? && r.alpha == c.alpha
    ensures c.Rgba? ==>
              && IsMaxOf(r.red, c.red - factor, 0.0)
              && IsMaxOf(r.green, c.green - factor, 0.0)
              && IsMaxOf(r.blue, c.blue - factor, 0.0)
    ensures ChannelsInUnit(c) && factor >= 0.0 ==> ChannelsInUnit(r)
    ensures c.Rgba? && factor >= 0.0 && ChannelsInUnit(c) ==>
              r.red <= c.red && r.green <= c.green && r.blue <= c.blue
  {
    match c
    case Rgba(red, green, blue, alpha) =>
      Rgba(Max(red - factor, 0.0), Max(green - factor, 0.0), Max(blue - factor, 0.0), alpha)
    case NonRgb(_) => c
  }

  /** Darkening undoes a lightening that did not hit the ceiling of any channel. */
  lemma DarkenUndoesUnclampedLighten(c: Color, factor: real)
    requires c.Rgba? && factor >= 0.0 && ChannelsInUnit(c)
    requires c.red + factor <= 1.0 && c.green + factor <= 1.0 && c.blue + factor <= 1.0
    ensures DarkenColor(LightenColor(c, factor), factor) == c
  {
  }

  /** Lightening twice by non-negative factors is lightening once by their sum. */
  lemma LightenComposes(c: Color, f: real, g: real)
    requires f >= 0.0 && g >= 0.0
    ensures LightenColor(LightenColor(c, f), g) == LightenColor(c, f + g)
  {
  }
}
