/** The parts of the third-party `colour` package (and of `colorhash` and
    `colortrans`) that autopalette relies on.

    Their internals are not modelled: every conversion they perform is a field
    of `Library`, a record of total functions that the rest of the model takes
    as a parameter. Nothing is assumed about these functions beyond what a
    lemma states in its own `requires`. */
module Colour {
  import opened Failures

  /** Hue, saturation and luminance, the coordinates colour.Color keeps. */
  datatype Hsl = Hsl(hue: real, saturation: real, luminance: real)

  datatype Library = Library(
    names: set<string>,           // the keys of colour.COLOR_NAME_TO_RGB
    web: string -> Result<Hsl>,   // colour.Color(s) for a name or hex string, or the exception it raises
    hexL: Hsl -> string,          // Color.hex_l
    rgb: Hsl -> seq<real>,        // Color.rgb, three channels in [0, 1]
    hashHex: string -> string,    // colorhash.ColorHash(s).hex
    rgb2short: string -> int,     // int(colortrans.rgb2short(hex_l)[0])
    short2rgb: int -> string      // colortrans.short2rgb(str(code)), six hex digits without '#'
  )

  /** colour.Color(s): a new colour from a name or a hex string, or the
      exception the package raises for it (ValueError for an unknown name,
      AttributeError for a '#' string that is not 3 or 6 hex digits). The
      package decides which; the model does not fix it. */
  function FromWeb(lib: Library, s: string): Result<Hsl>
  {
    lib.web(s)
  }

  /** A colour.Color object. The package stores a colour as its HSL triple and
      derives RGB and hex from it; `set_hue`, `set_saturation` and
      `set_luminance` replace one coordinate in place. */
  class Color {
    var hue: real
    var saturation: real
    var luminance: real

    constructor (c: Hsl)
      ensures Value() == c
    {
      hue, saturation, luminance := c.hue, c.saturation, c.luminance;
    }

    /** Color.hsl */
    function Value(): Hsl
      reads this
    {
      Hsl(hue, saturation, luminance)
    }

    method SetHue(v: real)
      modifies this
      ensures Value() == old(Value()).(hue := v)
    {
      hue := v;
    }

    method SetSaturation(v: real)
      modifies this
      ensures Value() == old(Value()).(saturation := v)
    {
      saturation := v;
    }

    method SetLuminance(v: real)
      modifies this
      ensures Value() == old(Value()).(luminance := v)
    {
      luminance := v;
    }
  }
}
