/** render.py: the renderers, which turn a text and one or two colours into
    a string with terminal escape sequences.

    The escape strings themselves come from the `sty` package and are not
    modelled: `Sty` is a record of them, taken as a parameter. */
module Render {
  import opened Failures
  import opened Colour
  import opened Utils
  import opened Colormatch
  import opened Palettes

  datatype RendererClass =
    | Ansi256Renderer
    | AnsiNoColorRenderer
    | Ansi16Renderer
    | Ansi8Renderer
    | AnsiTruecolorRenderer

  /** What autopalette uses of `sty`: `sty.fg(code)`, `sty.bg(code)` (an RGB
      triple is passed as `Rgb255`), `sty.rs.all` and the effects of `sty.ef`. */
  datatype Sty = Sty(
    fg: AnsiCode -> string,
    bg: AnsiCode -> string,
    resetAll: string,
    bold: string,
    italic: string,
    underl: string,
    inverse: string,
    dim: string
  )

  // ---------------------------------------------------------------------------
  // render and _render

  /** Whether `render` returns the text unchanged when `ansi_reset` is set.
      Ansi16Renderer and Ansi8Renderer forward False instead. */
  predicate HonoursReset(cls: RendererClass)
  {
    cls == Ansi256Renderer || cls == AnsiTruecolorRenderer
  }

  /** The `ansi` flag a renderer passes to `palette.match` in `render`. */
  predicate AnsiFlag(cls: RendererClass)
  {
    cls != AnsiTruecolorRenderer
  }

  /** A code the ansi renderers treat as missing: '' or None. */
  predicate MissingCode(a: AnsiCode)
  {
    a == Markup("") || a == NoCode
  }

  /** The point `render` draws a colour with: the palette's match, and for the
      ansi renderers a re-match of its target against the fallback
      Ansi256Palette when the palette's code is missing. */
  function PointFor(lib: Library, cls: RendererClass, pcls: PaletteClass, points: seq<ColorPoint>, q: Hsl): (r: Result<ColorPoint>)
    ensures r.Raise? <==>
      PaletteMatch(lib, pcls, points, AnsiFlag(cls), q).Raise? ||
      (AnsiFlag(cls) && MissingCode(PaletteMatch(lib, pcls, points, true, q).value.ansi) && Ansi256Point(lib, PaletteMatch(lib, pcls, points, true, q).value.target).Raise?)
    ensures AnsiFlag(cls) && r.Ok? ==> !MissingCode(r.value.ansi)
    ensures PaletteMatch(lib, pcls, points, AnsiFlag(cls), q).Ok? && !(AnsiFlag(cls) && MissingCode(PaletteMatch(lib, pcls, points, true, q).value.ansi)) ==>
      r == PaletteMatch(lib, pcls, points, AnsiFlag(cls), q)
  {
    if cls == AnsiTruecolorRenderer then PaletteMatch(lib, pcls, points, false, q)
    else
      var p :- PaletteMatch(lib, pcls, points, true, q);
      if MissingCode(p.ansi) then Ansi256Point(lib, p.target) else Ok(p)
  }

  /** The escape sequence `_render` writes for a point: its code for the ansi
      renderers, the RGB of its target for the truecolor renderer. */
  function Escape(lib: Library, sty: Sty, cls: RendererClass, p: ColorPoint, background: bool): string
  {
    var code := if cls == AnsiTruecolorRenderer then Rgb255(RgbToRgb255(lib.rgb(p.target))) else p.ansi;
    if background then sty.bg(code) else sty.fg(code)
  }

  /** `_render`: the foreground escape, the background escape when there is
      a background, the text, and the reset. */
  function Draw(lib: Library, sty: Sty, cls: RendererClass, text: string, fg: ColorPoint, bg: Option<ColorPoint>): string
  {
    Escape(lib, sty, cls, fg, false) + (if bg.Some? then Escape(lib, sty, cls, bg.value, true) else "") + text + sty.resetAll
  }

  /** What a call of `render` answers, and the values the foreground and the
      background colour objects hold afterwards. */
  datatype Outcome = Outcome(out: Result<string>, fg: Hsl, bg: Option<Hsl>)

  /** `render(text, fg, bg, ansi_reset)` for a renderer whose palette has class
      pcls and index points. The palette rewrites the colours it matches in
      place: the foreground is matched first; when the background is the same
      colour object, it is matched with the value the first match left. */
  function RenderOf(lib: Library, sty: Sty, cls: RendererClass, pcls: PaletteClass, points: seq<ColorPoint>,
                    text: string, f: Hsl, b: Option<Hsl>, same: bool, ansiReset: bool): (o: Outcome)
  {
    if cls == AnsiNoColorRenderer || (ansiReset && HonoursReset(cls)) then Outcome(Ok(text), f, b)
    else
      var f1 := QueryTransform(pcls, AnsiFlag(cls), f);
      var fp := PointFor(lib, cls, pcls, points, f);
      if fp.Raise? then Outcome(Raise(fp.exc), f1, if same && b.Some? then Some(f1) else b)
      else if b.None? then Outcome(Ok(Draw(lib, sty, cls, text, fp.value, None)), f1, None)
      else
        var qb := if same then f1 else b.value;
        var b1 := QueryTransform(pcls, AnsiFlag(cls), qb);
        var bp := PointFor(lib, cls, pcls, points, qb);
        var fAfter := if same then b1 else f1;
        if bp.Raise? then Outcome(Raise(bp.exc), fAfter, Some(b1))
        else Outcome(Ok(Draw(lib, sty, cls, text, fp.value, Some(bp.value))), fAfter, Some(b1))
  }

  /** The no-colour renderer returns the text unchanged and touches neither
      colour, whatever it is given. */
  lemma NoColorPassesThrough(lib: Library, sty: Sty, pcls: PaletteClass, points: seq<ColorPoint>,
                             text: string, f: Hsl, b: Option<Hsl>, same: bool, ansiReset: bool)
    ensures RenderOf(lib, sty, AnsiNoColorRenderer, pcls, points, text, f, b, same, ansiReset) == Outcome(Ok(text), f, b)
  {
  }

  /** With `ansi_reset`, the 256-colour and truecolor renderers return the
      text unchanged; the 16- and 8-colour renderers answer exactly what they
      answer without it. */
  lemma ResetHandling(lib: Library, sty: Sty, cls: RendererClass, pcls: PaletteClass, points: seq<ColorPoint>,
                      text: string, f: Hsl, b: Option<Hsl>, same: bool)
    ensures HonoursReset(cls) ==> RenderOf(lib, sty, cls, pcls, points, text, f, b, same, true) == Outcome(Ok(text), f, b)
    ensures cls in {Ansi16Renderer, Ansi8Renderer} ==>
      RenderOf(lib, sty, cls, pcls, points, text, f, b, same, true) == RenderOf(lib, sty, cls, pcls, points, text, f, b, same, false)
  {
  }

  /** A rendered string is one or two escapes, then the text once, then the
      reset; the background escape is there exactly when a background was
      given, and the ansi renderers never write a missing code. */
  lemma {:induction false} RenderShape(lib: Library, sty: Sty, cls: RendererClass, pcls: PaletteClass, points: seq<ColorPoint>,
                                       text: string, f: Hsl, b: Option<Hsl>, same: bool, ansiReset: bool)
    requires cls != AnsiNoColorRenderer && !(ansiReset && HonoursReset(cls))
    requires RenderOf(lib, sty, cls, pcls, points, text, f, b, same, ansiReset).out.Ok?
    ensures var out := RenderOf(lib, sty, cls, pcls, points, text, f, b, same, ansiReset).out.value;
      var fp := PointFor(lib, cls, pcls, points, f);
      fp.Ok? && (AnsiFlag(cls) ==> !MissingCode(fp.value.ansi)) &&
      (b.None? ==> out == Escape(lib, sty, cls, fp.value, false) + text + sty.resetAll) &&
      (b.Some? ==> exists bp: ColorPoint ::
        (AnsiFlag(cls) ==> !MissingCode(bp.ansi)) &&
        out == Escape(lib, sty, cls, fp.value, false) + Escape(lib, sty, cls, bp, true) + text + sty.resetAll)
  {
    var fp := PointFor(lib, cls, pcls, points, f);
    if b.Some? {
      var qb := if same then QueryTransform(pcls, AnsiFlag(cls), f) else b.value;
      var bp := PointFor(lib, cls, pcls, points, qb).value;
      assert (AnsiFlag(cls) ==> !MissingCode(bp.ansi)) &&
        RenderOf(lib, sty, cls, pcls, points, text, f, b, same, ansiReset).out.value ==
          Escape(lib, sty, cls, fp.value, false) + Escape(lib, sty, cls, bp, true) + text + sty.resetAll;
    }
  }

  /** render fails exactly when a colour it consults cannot be matched; the
      background is consulted only when there is one. */
  lemma RenderFailures(lib: Library, sty: Sty, cls: RendererClass, pcls: PaletteClass, points: seq<ColorPoint>,
                       text: string, f: Hsl, b: Option<Hsl>, same: bool, ansiReset: bool)
    requires cls != AnsiNoColorRenderer && !(ansiReset && HonoursReset(cls))
    ensures var o := RenderOf(lib, sty, cls, pcls, points, text, f, b, same, ansiReset);
      o.out.Raise? <==> (PointFor(lib, cls, pcls, points, f).Raise? ||
        (b.Some? && PointFor(lib, cls, pcls, points, if same then QueryTransform(pcls, AnsiFlag(cls), f) else b.value).Raise?))
  {
  }

  /** When foreground and background are the same colour object and the
      palette rewrites queries, the background is matched against the
      rewritten foreground, and the object ends up rewritten twice. */
  lemma SameColourRewrittenTwice(lib: Library, sty: Sty, cls: RendererClass, pcls: PaletteClass, points: seq<ColorPoint>,
                                 text: string, f: Hsl, ansiReset: bool)
    requires cls != AnsiNoColorRenderer && !(ansiReset && HonoursReset(cls))
    requires PointFor(lib, cls, pcls, points, f).Ok?
    ensures var o := RenderOf(lib, sty, cls, pcls, points, text, f, Some(f), true, ansiReset);
      var f1 := QueryTransform(pcls, AnsiFlag(cls), f);
      var f2 := QueryTransform(pcls, AnsiFlag(cls), f1);
      o.fg == f2 && o.bg == Some(f2) &&
      (o.out.Ok? ==> o.out.value == Draw(lib, sty, cls, text, PointFor(lib, cls, pcls, points, f).value,
                                         Some(PointFor(lib, cls, pcls, points, f1).value)))
  {
  }

  // ---------------------------------------------------------------------------
  // is_bright

  /** BaseRenderer.is_bright */
  predicate BaseBright(c: Hsl)
  {
    (c.saturation == 0.0 && c.luminance == 1.0) || c.luminance > 0.7 || (c.saturation >= 0.3 && c.luminance >= 0.3)
  }

  /** The rule for white is subsumed by the luminance rule, and brightness
      survives raising the luminance. */
  lemma BaseBrightRules(c: Hsl, d: Hsl)
    ensures BaseBright(c) <==> c.luminance > 0.7 || (c.saturation >= 0.3 && c.luminance >= 0.3)
    ensures BaseBright(c) && d.saturation == c.saturation && d.luminance >= c.luminance ==> BaseBright(d)
  {
  }

  /** The codes of the 16-colour range Ansi256Renderer.is_bright calls dark. */
  const DarkCodes: set<int> := {0, 1, 2, 3, 4, 5, 6, 8}

  /** `is_bright(color)`: the truecolor renderer applies the base rule; the
      others match the colour (with ansi false), call a code below 16 dark
      exactly when it is in DarkCodes, and apply the base rule to the
      rewritten colour otherwise. A code that is not an int cannot be
      compared with 16 and raises TypeError. */
  function BrightOf(lib: Library, cls: RendererClass, pcls: PaletteClass, points: seq<ColorPoint>, q: Hsl): (r: Result<bool>)
    ensures cls == AnsiTruecolorRenderer ==> r == Ok(BaseBright(q))
    ensures cls != AnsiTruecolorRenderer ==>
      var m := PaletteMatch(lib, pcls, points, false, q);
      (m.Raise? ==> r == Raise(m.exc)) &&
      (m.Ok? && !m.value.ansi.Code? ==> r == Raise(TypeError)) &&
      (m.Ok? && m.value.ansi.Code? && m.value.ansi.n < 16 ==> (r == Ok(false) <==> m.value.ansi.n in DarkCodes)) &&
      (m.Ok? && m.value.ansi.Code? && m.value.ansi.n >= 16 ==> r == Ok(BaseBright(QueryTransform(pcls, false, q))))
  {
    if cls == AnsiTruecolorRenderer then Ok(BaseBright(q))
    else
      var p :- PaletteMatch(lib, pcls, points, false, q);
      match p.ansi
      case Code(n) => if n < 16 then Ok(n !in DarkCodes) else Ok(BaseBright(QueryTransform(pcls, false, q)))
      case _ => Raise(TypeError)
  }

  /** Below code 16 the answer depends on the code alone: two colours that
      match points with the same such code get the same answer. */
  lemma BrightByLowCode(lib: Library, cls: RendererClass, pcls: PaletteClass, points: seq<ColorPoint>, q1: Hsl, q2: Hsl, n: int)
    requires cls != AnsiTruecolorRenderer && n < 16
    requires PaletteMatch(lib, pcls, points, false, q1).Ok? && PaletteMatch(lib, pcls, points, false, q1).value.ansi == Code(n)
    requires PaletteMatch(lib, pcls, points, false, q2).Ok? && PaletteMatch(lib, pcls, points, false, q2).value.ansi == Code(n)
    ensures BrightOf(lib, cls, pcls, points, q1) == BrightOf(lib, cls, pcls, points, q2) == Ok(n !in DarkCodes)
  {
  }

  // ---------------------------------------------------------------------------
  // fg and bg

  /** `fg(color)`: the foreground escape of the palette's match, without the
      fallback render uses. */
  function FgOf(lib: Library, sty: Sty, cls: RendererClass, pcls: PaletteClass, points: seq<ColorPoint>, q: Hsl): (r: Result<string>)
    ensures r.Ok? <==> PaletteMatch(lib, pcls, points, AnsiFlag(cls), q).Ok?
  {
    var p :- PaletteMatch(lib, pcls, points, AnsiFlag(cls), q);
    Ok(Escape(lib, sty, cls, p, false))
  }

  /** `bg(color)`: the background escape of the palette's match for the ansi
      renderers; the truecolor renderer writes a foreground escape here. */
  function BgOf(lib: Library, sty: Sty, cls: RendererClass, pcls: PaletteClass, points: seq<ColorPoint>, q: Hsl): (r: Result<string>)
    ensures r.Ok? <==> PaletteMatch(lib, pcls, points, AnsiFlag(cls), q).Ok?
  {
    var p :- PaletteMatch(lib, pcls, points, AnsiFlag(cls), q);
    Ok(Escape(lib, sty, cls, p, cls != AnsiTruecolorRenderer))
  }

  /** The truecolor renderer's bg(color) is its fg(color). */
  lemma TruecolorBgIsFg(lib: Library, sty: Sty, pcls: PaletteClass, points: seq<ColorPoint>, q: Hsl)
    ensures BgOf(lib, sty, AnsiTruecolorRenderer, pcls, points, q) == FgOf(lib, sty, AnsiTruecolorRenderer, pcls, points, q)
  {
  }

  /** Rendering with a foreground only is fg(color), the text and the reset,
      whenever the palette's code is not missing (so no fallback happens). */
  lemma RenderIsFgTextReset(lib: Library, sty: Sty, cls: RendererClass, pcls: PaletteClass, points: seq<ColorPoint>,
                            text: string, f: Hsl, ansiReset: bool)
    requires cls != AnsiNoColorRenderer && !(ansiReset && HonoursReset(cls))
    requires PaletteMatch(lib, pcls, points, AnsiFlag(cls), f).Ok?
    requires !(AnsiFlag(cls) && MissingCode(PaletteMatch(lib, pcls, points, AnsiFlag(cls), f).value.ansi))
    ensures RenderOf(lib, sty, cls, pcls, points, text, f, None, false, ansiReset).out ==
      Ok(FgOf(lib, sty, cls, pcls, points, f).value + text + sty.resetAll)
  {
    var e := Escape(lib, sty, cls, PointFor(lib, cls, pcls, points, f).value, false);
    assert e + "" == e;
  }

  // ---------------------------------------------------------------------------
  // The renderer objects

  class Renderer {
    const cls: RendererClass
    /** self.palette; Theme replaces it with its own palette after construction. */
    var palette: Palette
    /** self.fallback: an Ansi256Palette */
    const fallback: Palette

    /** `cls(palette=...)` followed by Theme's `renderer.palette = palette`. */
    /** The fallback is an Ansi256Palette. */
    predicate Valid()
    {
      fallback.cls == Ansi256Palette
    }

    constructor (cls: RendererClass, palette: Palette)
      ensures this.cls == cls && this.palette == palette
      ensures fresh(fallback) && Valid()
    {
      this.cls := cls;
      this.palette := palette;
      fallback := new Palette.Ansi256();
    }

    /** The point render uses for one colour, rewriting that colour. */
    method PointOf(lib: Library, color: Color) returns (r: Result<ColorPoint>)
      requires Valid()
      modifies color
      ensures color.Value() == QueryTransform(palette.cls, AnsiFlag(cls), old(color.Value()))
      ensures r == PointFor(lib, cls, palette.cls, palette.tree.points, old(color.Value()))
    {
      var ansi := cls != AnsiTruecolorRenderer;
      r := palette.Match(lib, color, ansi);
      if ansi && r.Ok? && (r.value.ansi == Markup("") || r.value.ansi == NoCode) {
        var target := new Color(r.value.target);
        r := fallback.Match(lib, target, true);
      }
    }

    /** render(text, fg, bg, ansi_reset); a null bg stands for None. */
    method Render(lib: Library, sty: Sty, text: string, fg: Color, bg: Color?, ansiReset: bool) returns (r: Result<string>)
      requires Valid()
      modifies fg, bg
      ensures var o := RenderOf(lib, sty, cls, palette.cls, palette.tree.points, text, old(fg.Value()),
                                if bg == null then None else Some(old(bg.Value())), fg == bg, ansiReset);
        r == o.out && fg.Value() == o.fg && (bg != null ==> o.bg == Some(bg.Value()))
    {
      if cls == AnsiNoColorRenderer || (ansiReset && (cls == Ansi256Renderer || cls == AnsiTruecolorRenderer)) {
        return Ok(text);
      }
      var fp := PointOf(lib, fg);
      if fp.Raise? {
        return Raise(fp.exc);
      }
      if bg == null {
        return Ok(Draw(lib, sty, cls, text, fp.value, None));
      }
      var bp := PointOf(lib, bg);
      if bp.Raise? {
        return Raise(bp.exc);
      }
      return Ok(Draw(lib, sty, cls, text, fp.value, Some(bp.value)));
    }

    /** is_bright(color) */
    method IsBright(lib: Library, color: Color) returns (r: Result<bool>)
      requires Valid()
      modifies color
      ensures r == BrightOf(lib, cls, palette.cls, palette.tree.points, old(color.Value()))
      ensures cls == AnsiTruecolorRenderer ==> color.Value() == old(color.Value())
      ensures cls != AnsiTruecolorRenderer ==> color.Value() == QueryTransform(palette.cls, false, old(color.Value()))
    {
      if cls == AnsiTruecolorRenderer {
        return Ok(BaseBright(color.Value()));
      }
      var p := palette.Match(lib, color, false);
      if p.Raise? {
        return Raise(p.exc);
      }
      match p.value.ansi {
        case Code(n) =>
          if n < 16 {
            return Ok(!(n in {0, 1, 2, 3, 4, 5, 6, 8}));
          }
          return Ok(BaseBright(color.Value()));
        case _ =>
          return Raise(TypeError);
      }
    }

    /** fg(color) */
    method Fg(lib: Library, sty: Sty, color: Color) returns (r: Result<string>)
      requires Valid()
      modifies color
      ensures r == FgOf(lib, sty, cls, palette.cls, palette.tree.points, old(color.Value()))
      ensures color.Value() == QueryTransform(palette.cls, AnsiFlag(cls), old(color.Value()))
    {
      var p := palette.Match(lib, color, cls != AnsiTruecolorRenderer);
      if p.Raise? {
        return Raise(p.exc);
      }
      r := Ok(Escape(lib, sty, cls, p.value, false));
    }

    /** bg(color) */
    method Bg(lib: Library, sty: Sty, color: Color) returns (r: Result<string>)
      requires Valid()
      modifies color
      ensures r == BgOf(lib, sty, cls, palette.cls, palette.tree.points, old(color.Value()))
      ensures color.Value() == QueryTransform(palette.cls, AnsiFlag(cls), old(color.Value()))
    {
      var p := palette.Match(lib, color, cls != AnsiTruecolorRenderer);
      if p.Raise? {
        return Raise(p.exc);
      }
      r := Ok(Escape(lib, sty, cls, p.value, cls != AnsiTruecolorRenderer));
    }
  }

  // ---------------------------------------------------------------------------
  // render_map

  /** render_map, entry by entry in the order the module lists them. */
  const RenderMap: seq<(string, RendererClass)> := [
    ("-1", AnsiTruecolorRenderer),
    ("0", AnsiNoColorRenderer),
    ("8", Ansi8Renderer),
    ("16", Ansi16Renderer),
    ("88", Ansi256Renderer),
    ("256", Ansi256Renderer),
    ("ansi", Ansi256Renderer),
    ("rgb", AnsiTruecolorRenderer),
    ("truecolor", AnsiTruecolorRenderer),
    ("24bit", AnsiTruecolorRenderer),
    ("vt100", AnsiNoColorRenderer),
    ("vt200", AnsiNoColorRenderer),
    ("vt220", AnsiNoColorRenderer),
    ("rxvt", Ansi16Renderer),
    ("rxvt-88color", Ansi256Renderer),
    ("xterm", Ansi16Renderer),
    ("xterm-color", Ansi16Renderer),
    ("xterm-256color", Ansi256Renderer)
  ]

  /** `render_map[name]`: the class listed under the name, KeyError for a
      name it lacks. */
  function RendererLookup(name: string): (r: Result<RendererClass>)
    ensures r.Ok? <==> exists i :: 0 <= i < |RenderMap| && RenderMap[i].0 == name
    ensures r.Ok? ==> exists i :: 0 <= i < |RenderMap| && RenderMap[i] == (name, r.value)
    ensures r.Raise? ==> r.exc == KeyError
  {
    match Lookup(RenderMap, name)
    case Some(c) => Ok(c)
    case None => Raise(KeyError)
  }

  /** The numeric names: '-1' is truecolor, '0' no colour, and '8' and '16'
      their ansi renderers. */
  lemma RenderMapNumbers()
    ensures RendererLookup("-1") == Ok(AnsiTruecolorRenderer) && RendererLookup("0") == Ok(AnsiNoColorRenderer)
    ensures RendererLookup("8") == Ok(Ansi8Renderer) && RendererLookup("16") == Ok(Ansi16Renderer)
  {
    LookupFirst(RenderMap, "-1", 0);
    LookupFirst(RenderMap, "0", 1);
    LookupFirst(RenderMap, "8", 2);
    LookupFirst(RenderMap, "16", 3);
  }
}
