/** select_palette and select_render_engine (utils.py): the palette class and
    the renderer class picked from a hint, the environment and the config
    file. The environment is a map from variable names to values, and the
    config is what read_config returns (Utils.ReadConfig reads it from the
    lines of the file); both functions read the same file. */
module Selection {
  import opened Failures
  import opened Utils
  import opened Palettes
  import opened Render

  /** The hint: a number of colours, or the value of $TERM. */
  datatype Hint = Count(n: int) | Term(s: string)

  // ---------------------------------------------------------------------------
  // str() of an int

  function DigitChar(d: nat): (c: char)
    requires d < 10
    ensures '0' <= c <= '9'
  {
    ('0' as int + d) as char
  }

  /** The decimal numeral of n, without leading zeros. */
  function Digits(n: nat): (s: string)
    ensures |s| >= 1 && forall i :: 0 <= i < |s| ==> '0' <= s[i] <= '9'
    ensures (|s| > 1 ==> s[0] != '0')
  {
    if n < 10 then [DigitChar(n)] else Digits(n / 10) + [DigitChar(n % 10)]
  }

  /** The value of a string of decimal digits. */
  function DigitsValue(s: string): nat
  {
    if s == [] then 0
    else
      var d := s[|s| - 1] as int - '0' as int;
      DigitsValue(s[..|s| - 1]) * 10 + (if 0 <= d then d else 0)
  }

  /** Reading the numeral back gives the number. */
  lemma {:induction false} DigitsRoundTrip(n: nat)
    ensures DigitsValue(Digits(n)) == n
  {
    if n >= 10 {
      var s := Digits(n);
      assert s[..|s| - 1] == Digits(n / 10);
      DigitsRoundTrip(n / 10);
    }
  }

  /** str(n) */
  function Decimal(n: int): (s: string)
    ensures n >= 0 ==> s == Digits(n)
    ensures n < 0 ==> s == "-" + Digits(-n)
  {
    if n < 0 then "-" + Digits(-n) else Digits(n)
  }

  /** Different numbers have different numerals. */
  lemma DecimalInjective(m: int, n: int)
    requires Decimal(m) == Decimal(n)
    ensures m == n
  {
    if m >= 0 && n >= 0 {
      DigitsRoundTrip(m);
      DigitsRoundTrip(n);
    } else if m < 0 && n < 0 {
      assert Decimal(m)[1..] == Digits(-m);
      assert Decimal(n)[1..] == Digits(-n);
      DigitsRoundTrip(-m);
      DigitsRoundTrip(-n);
    }
  }

  /** `str(value).lower()` */
  function Spelling(h: Hint): (s: string)
    ensures h.Count? ==> s == Decimal(h.n)
    ensures h.Term? ==> s == Lower(h.s)
  {
    LowerKeepsDecimal(if h.Count? then h.n else 0);
    Lower(match h case Count(n) => Decimal(n) case Term(s) => s)
  }

  /** A numeral has no upper-case letter, so lower-casing keeps it. */
  lemma {:induction false} LowerKeepsDecimal(n: int)
    ensures Lower(Decimal(n)) == Decimal(n)
  {
    var s := Decimal(n);
    assert forall i :: 0 <= i < |s| ==> s[i] == '-' || '0' <= s[i] <= '9';
    assert Lower(s) == s;
  }

  // ---------------------------------------------------------------------------
  // The override order

  /** Whether the hint or the environment asks for no colour: a hint equal
      to 0, or NO_COLOR set to any value. A hint spelled "0" is not equal
      to 0. */
  predicate NoColour(env: map<string, string>, hint: Hint)
  {
    hint == Count(0) || "NO_COLOR" in env
  }

  /** The name select_palette looks up: $AUTOPALETTE, else the config's
      'palette', else the hint. */
  function PaletteName(env: map<string, string>, config: map<string, string>, hint: Hint): (name: string)
    ensures "AUTOPALETTE" in env ==> name == Lower(env["AUTOPALETTE"])
    ensures "AUTOPALETTE" !in env && "palette" in config ==> name == Lower(config["palette"])
    ensures "AUTOPALETTE" !in env && "palette" !in config ==> name == Spelling(hint)
  {
    var palette := if "palette" in config then Term(config["palette"]) else hint;
    var palette := if "AUTOPALETTE" in env then Term(env["AUTOPALETTE"]) else palette;
    Spelling(palette)
  }

  /** The name select_render_engine looks up: $AUTOPALETTE_RENDERER, else the
      config's 'renderer', else a non-empty $COLORTERM, else $TERM, else the
      hint. */
  function RendererName(env: map<string, string>, config: map<string, string>, hint: Hint): (name: string)
    ensures "AUTOPALETTE_RENDERER" in env ==> name == Lower(env["AUTOPALETTE_RENDERER"])
    ensures "AUTOPALETTE_RENDERER" !in env && "renderer" in config ==> name == Lower(config["renderer"])
    ensures ("AUTOPALETTE_RENDERER" !in env && "renderer" !in config &&
             "COLORTERM" in env && env["COLORTERM"] != "") ==> name == Lower(env["COLORTERM"])
    ensures ("AUTOPALETTE_RENDERER" !in env && "renderer" !in config &&
             ("COLORTERM" !in env || env["COLORTERM"] == "") && "TERM" in env) ==> name == Lower(env["TERM"])
    ensures ("AUTOPALETTE_RENDERER" !in env && "renderer" !in config &&
             ("COLORTERM" !in env || env["COLORTERM"] == "") && "TERM" !in env) ==> name == Spelling(hint)
  {
    var renderer := if "TERM" in env then Term(env["TERM"]) else hint;
    var renderer := if "COLORTERM" in env && env["COLORTERM"] != "" then Term(env["COLORTERM"]) else renderer;
    var renderer := if "renderer" in config then Term(config["renderer"]) else renderer;
    var renderer := if "AUTOPALETTE_RENDERER" in env then Term(env["AUTOPALETTE_RENDERER"]) else renderer;
    Spelling(renderer)
  }

  /** The looked-up name is always in lower case. */
  lemma {:induction false} NamesAreLowerCase(env: map<string, string>, config: map<string, string>, hint: Hint)
    ensures Lower(PaletteName(env, config, hint)) == PaletteName(env, config, hint)
    ensures Lower(RendererName(env, config, hint)) == RendererName(env, config, hint)
  {
    forall s: string ensures Lower(Lower(s)) == Lower(s) {
      LowerIdempotent(s);
    }
  }

  lemma LowerIdempotent(s: string)
    ensures Lower(Lower(s)) == Lower(s)
  {
    var t := Lower(s);
    assert forall i :: 0 <= i < |s| ==> LowerChar(t[i]) == t[i];
  }

  /** select_palette(hint) */
  function SelectPalette(env: map<string, string>, config: Result<map<string, string>>, hint: Hint): (r: Result<PaletteClass>)
    ensures NoColour(env, hint) ==> r == Ok(Ansi8Palette)
    ensures !NoColour(env, hint) && config.Raise? ==> r == Raise(config.exc)
    ensures !NoColour(env, hint) && config.Ok? ==> r == PaletteLookup(PaletteName(env, config.value, hint))
  {
    if NoColour(env, hint) then
      LookupFirst(PaletteMap, "0", 1);
      PaletteLookup("0")
    else
      var c :- config;
      PaletteLookup(PaletteName(env, c, hint))
  }

  /** select_render_engine(hint) */
  function SelectRenderer(env: map<string, string>, config: Result<map<string, string>>, hint: Hint): (r: Result<RendererClass>)
    ensures NoColour(env, hint) ==> r == Ok(AnsiNoColorRenderer)
    ensures !NoColour(env, hint) && config.Raise? ==> r == Raise(config.exc)
    ensures !NoColour(env, hint) && config.Ok? ==> r == RendererLookup(RendererName(env, config.value, hint))
  {
    if NoColour(env, hint) then
      LookupFirst(RenderMap, "0", 1);
      RendererLookup("0")
    else
      var c :- config;
      RendererLookup(RendererName(env, c, hint))
  }

  // ---------------------------------------------------------------------------
  // What the order means

  /** A value of higher priority decides alone: once $AUTOPALETTE_RENDERER
      is set, neither the config, nor the other variables, nor the hint
      matter. */
  lemma RendererOverrideWins(env: map<string, string>, env': map<string, string>,
                             c: map<string, string>, c': map<string, string>, hint: Hint, hint': Hint)
    requires "AUTOPALETTE_RENDERER" in env && "AUTOPALETTE_RENDERER" in env'
    requires env["AUTOPALETTE_RENDERER"] == env'["AUTOPALETTE_RENDERER"]
    ensures RendererName(env, c, hint) == RendererName(env', c', hint')
  {
  }

  /** A non-empty $COLORTERM beats $TERM and the hint; an empty one is
      skipped. */
  lemma ColortermOverTerm(env: map<string, string>, config: map<string, string>, hint: Hint)
    requires "AUTOPALETTE_RENDERER" !in env && "renderer" !in config && "TERM" in env
    ensures "COLORTERM" in env && env["COLORTERM"] != "" ==>
      RendererName(env, config, hint) == RendererName(env[ "TERM" := "dumb"], config, Count(256))
    ensures "COLORTERM" in env && env["COLORTERM"] == "" ==>
      RendererName(env, config, hint) == RendererName(env - {"COLORTERM"}, config, hint)
  {
  }

  /** A broken config file matters only when there is colour to choose. */
  lemma BrokenConfigIgnoredWithoutColour(env: map<string, string>, lines: seq<string>, hint: Hint)
    requires ConfigOf(lines).Raise?
    ensures SelectRenderer(env, ConfigOf(lines), hint).Raise? <==> !NoColour(env, hint)
    ensures SelectPalette(env, ConfigOf(lines), hint).Raise? <==> !NoColour(env, hint)
  {
  }

  /** An xterm advertising truecolor, with no config, gets the truecolor
      renderer ... */
  lemma TruecolorTerminal()
    ensures SelectRenderer(map["TERM" := "xterm-256color", "COLORTERM" := "truecolor"], Ok(map[]), Count(256))
      == Ok(AnsiTruecolorRenderer)
  {
    assert Lower("truecolor") == "truecolor";
    LookupFirst(RenderMap, "truecolor", 8);
  }

  /** ... and, since select_palette does not read $TERM or $COLORTERM, the
      palette of the hint's numeral. */
  lemma TruecolorTerminalPalette()
    ensures SelectPalette(map["TERM" := "xterm-256color", "COLORTERM" := "truecolor"], Ok(map[]), Count(256))
      == Ok(Ansi256Palette)
  {
    assert Digits(256) == "256" by {
      assert Digits(2) == "2";
      assert Digits(25) == "25";
    }
    LookupFirst(PaletteMap, "256", 5);
  }

  /** A hint of 8 colours under a plain xterm: Ansi16Renderer from $TERM and
      Ansi8Palette from the hint. */
  lemma PlainXterm()
    ensures var env := map["TERM" := "xterm"];
      SelectRenderer(env, Ok(map[]), Count(8)) == Ok(Ansi16Renderer) &&
      SelectPalette(env, Ok(map[]), Count(8)) == Ok(Ansi8Palette)
  {
    var env := map["TERM" := "xterm"];
    assert Lower("xterm") == "xterm";
    assert Spelling(Count(8)) == "8";
    LookupFirst(RenderMap, "xterm", 15);
    LookupFirst(PaletteMap, "8", 2);
  }
}
