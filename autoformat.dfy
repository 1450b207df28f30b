/** autoformat.py: the formatter façade. A ColoredString is a str that
    remembers its theme; its accessors return new strings with the body
    styled. AutoFormat picks the colour count, the renderer, the palette and
    the theme once, and wraps text into ColoredStrings.

    The colour count that `terminal_colors()` probes is a parameter, and so
    are the foreign text fixers (ftfy's fix_text and emoji2text). */
module Autoformat {
  import opened Failures
  import opened Colour
  import opened Utils
  import opened Palettes
  import opened Render
  import opened Themes
  import opened Selection

  /** ColoredString(body, theme, key) */
  datatype ColoredString = ColoredString(body: string, theme: Theme, key: string)

  // ---------------------------------------------------------------------------
  // Effects

  /** The effect accessors b, i, u, r and m. */
  datatype Effect = Bold | Italic | Underline | Inverse | Dim

  /** The `sty.ef` escape of an effect. */
  function EffectCode(sty: Sty, e: Effect): string
  {
    match e
    case Bold => sty.bold
    case Italic => sty.italic
    case Underline => sty.underl
    case Inverse => sty.inverse
    case Dim => sty.dim
  }

  /** An effect accessor, given what `terminal_colors()` answers: a copy of
      the body when there are no colours, otherwise a copy of the effect's
      escape, the body and the reset. A copy keeps the theme and drops the
      key. */
  function Effected(sty: Sty, colors: int, s: ColoredString, e: Effect): (r: ColoredString)
    ensures r.theme == s.theme && r.key == ""
    ensures colors == 0 ==> r.body == s.body
    ensures colors != 0 ==> |r.body| == |EffectCode(sty, e)| + |s.body| + |sty.resetAll|
  {
    if colors == 0 then ColoredString(s.body, s.theme, "")
    else ColoredString(EffectCode(sty, e) + s.body + sty.resetAll, s.theme, "")
  }

  /** With colours, the body is found again between the effect's escape and
      the reset, and nothing else is added. */
  lemma EffectWrapsBody(sty: Sty, colors: int, s: ColoredString, e: Effect)
    requires colors != 0
    ensures var r := Effected(sty, colors, s, e).body;
      var n := |EffectCode(sty, e)|;
      r[..n] == EffectCode(sty, e) &&
      r[n..n + |s.body|] == s.body &&
      r[n + |s.body|..] == sty.resetAll
  {
    var r := Effected(sty, colors, s, e).body;
    var n := |EffectCode(sty, e)|;
    assert r == EffectCode(sty, e) + s.body + sty.resetAll;
    assert r[..n] == EffectCode(sty, e);
    assert r[n..n + |s.body|] == s.body;
  }

  // ---------------------------------------------------------------------------
  // Theme accessors

  /** The accessor names and the theme style each one calls. */
  const StyleAccessors: map<string, string> := map[
    "p" := "base", "light" := "light", "dark" := "dark",
    "h1" := "h1", "h2" := "h2", "h3" := "h3", "h4" := "h4",
    "li" := "light", "err" := "error", "warn" := "warning",
    "info" := "info", "ok" := "ok"
  ]

  /** The text an accessor hands to its style: li adds a bullet. */
  function AccessedText(accessor: string, body: string): (t: string)
    ensures accessor == "li" ==> t == "- " + body
    ensures accessor != "li" ==> t == body
  {
    if accessor == "li" then "- " + body else body
  }

  /** The p, li, err and warn accessors call base, light (on a bulleted body),
      error and warning; light, dark, h1-h4, info and ok call the style of
      their own name. */
  lemma AccessorStyles(body: string)
    ensures StyleAccessors["p"] == "base" && AccessedText("p", body) == body
    ensures StyleAccessors["li"] == "light" && AccessedText("li", body) == "- " + body
    ensures StyleAccessors["err"] == "error" && StyleAccessors["warn"] == "warning"
    ensures forall a :: a in StyleAccessors && a !in {"p", "li", "err", "warn"} ==> StyleAccessors[a] == a
  {
  }

  /** The objects a style call rewrites: its colours. */
  function StyleColors(s: ColoredString, accessor: string): set<object?>
    requires accessor in StyleAccessors
    reads s.theme
  {
    var slot := StyleAccessors[accessor];
    if slot in s.theme.styles then {s.theme.styles[slot].fg, s.theme.styles[slot].bg} else {}
  }

  /** A theme accessor: `self.theme.<style>(text)` copied into a new string
      with the same theme. A theme without that style raises AttributeError.
      The style rewrites its own colours, as every style call does. */
  method Styled(lib: Library, sty: Sty, s: ColoredString, accessor: string) returns (r: Result<ColoredString>)
    requires accessor in StyleAccessors
    requires StyleAccessors[accessor] in s.theme.styles ==> s.theme.styles[StyleAccessors[accessor]].renderer.Valid()
    modifies StyleColors(s, accessor)
    ensures StyleAccessors[accessor] !in s.theme.styles ==> r == Raise(AttributeError)
    ensures StyleAccessors[accessor] in s.theme.styles ==>
      var st := s.theme.styles[StyleAccessors[accessor]];
      var o := RenderOf(lib, sty, st.renderer.cls, st.renderer.palette.cls, st.renderer.palette.tree.points,
                        AccessedText(accessor, s.body), old(st.fg.Value()),
                        if st.bg == null then None else Some(old(st.bg.Value())), st.fg == st.bg, st.ansiReset);
      (r.Ok? <==> o.out.Ok?) &&
      (r.Raise? ==> o.out == Raise(r.exc)) &&
      (r.Ok? ==> r.value == ColoredString(o.out.value, s.theme, "")) &&
      st.fg.Value() == o.fg && (st.bg != null ==> o.bg == Some(st.bg.Value()))
  {
    var slot := StyleAccessors[accessor];
    if slot !in s.theme.styles {
      return Raise(AttributeError);
    }
    var text := s.theme.styles[slot].Call(lib, sty, AccessedText(accessor, s.body));
    if text.Raise? {
      return Raise(text.exc);
    }
    return Ok(ColoredString(text.value, s.theme, ""));
  }

  /** The colour `id` renders with: parse_color of the key, or of the body
      when the key is empty. */
  function IdColor(lib: Library, s: ColoredString): (r: Result<Hsl>)
    ensures s.key != "" ==> r == ParseColor(lib, Text(s.key))
    ensures s.key == "" ==> r == ParseColor(lib, Text(s.body))
  {
    ParseColor(lib, Text(if s.key != "" then s.key else s.body))
  }

  /** Strings with the same non-empty key get the same colour, whatever
      their bodies. */
  lemma {:induction false} SameKeySameColour(lib: Library, s: ColoredString, t: ColoredString)
    requires s.key != "" && s.key == t.key
    ensures IdColor(lib, s) == IdColor(lib, t)
  {
  }

  /** ColoredString.id: the body rendered by the theme's renderer with the
      id colour as foreground and no background, copied. The colour is a new
      object, so nothing the caller holds is rewritten. */
  method Id(lib: Library, sty: Sty, s: ColoredString) returns (r: Result<ColoredString>)
    requires s.theme.renderer.Valid()
    ensures IdColor(lib, s).Raise? ==> r == Raise(ValueError)
    ensures IdColor(lib, s).Ok? ==>
      var rd := s.theme.renderer;
      var o := RenderOf(lib, sty, rd.cls, rd.palette.cls, rd.palette.tree.points, s.body, IdColor(lib, s).value, None, false, false);
      (r.Ok? <==> o.out.Ok?) &&
      (r.Raise? ==> o.out == Raise(r.exc)) &&
      (r.Ok? ==> r.value == ColoredString(o.out.value, s.theme, ""))
  {
    var c := IdColor(lib, s);
    if c.Raise? {
      return Raise(c.exc);
    }
    var color := new Color(c.value);
    var text := s.theme.renderer.Render(lib, sty, s.body, color, null, false);
    if text.Raise? {
      return Raise(text.exc);
    }
    return Ok(ColoredString(text.value, s.theme, ""));
  }

  // ---------------------------------------------------------------------------
  // AutoFormat

  /** need_text_fix and need_emoji_fix: a terminal of at most 16 colours, or
      none. */
  predicate NeedsFix(termColors: int)
  {
    0 <= termColors <= 16
  }

  /** `x or y` for an optional class argument. */
  function Given<T>(x: Option<T>, y: Result<T>): (r: Result<T>)
    ensures x.Some? ==> r == Ok(x.value)
    ensures x.None? ==> r == y
  {
    if x.Some? then Ok(x.value) else y
  }

  /** The exception building the theme raises for a chosen palette class, if
      any: the palette's catalog fails first, then a slot step. */
  function ThemeError(lib: Library, paletteCls: PaletteClass, vs: seq<SlotValue>): Option<Exception>
  {
    match PaletteIndex(lib, Some(paletteCls))
    case Raise(x) => Some(x)
    case Ok(index) =>
      match ThemeOf(lib, index.0, index.1, vs)
      case Raise(x) => Some(x)
      case Ok(_) => None
  }

  /** t is the theme `theme(palette=..., renderer=...)` builds for palette
      class pc from the slot values vs: its palette holds pc's index, its
      renderer draws on that palette with an Ansi256Palette fallback, and its
      styles are the ones ThemeOf gives, each made by the theme itself. */
  ghost predicate IsBuilt(lib: Library, pc: PaletteClass, vs: seq<SlotValue>, t: Theme)
    reads t, t.palette.tree, t.renderer, set n | n in t.styles :: t.styles[n],
      set n | n in t.styles :: t.styles[n].fg, set n | n in t.styles && t.styles[n].bg != null :: t.styles[n].bg
  {
    var index := PaletteIndex(lib, Some(pc));
    index.Ok? && ThemeOf(lib, pc, index.value.1, vs).Ok? &&
    t.palette.cls == pc && t.palette.tree.points == index.value.1 && t.renderer.palette == t.palette &&
    t.renderer.Valid() && Owns(t) &&
    Holds(t, ThemeOf(lib, pc, index.value.1, vs).value, t.renderer)
  }

  /** The exception init raises for a colour count, if any: the renderer
      selection, then the palette selection, then the theme. */
  function InitError(lib: Library, env: map<string, string>, config: Result<map<string, string>>, count: int,
                     renderer: Option<RendererClass>, palette: Option<PaletteClass>, vs: seq<SlotValue>): Option<Exception>
  {
    match Given(renderer, SelectRenderer(env, config, Count(count)))
    case Raise(x) => Some(x)
    case Ok(_) =>
      match Given(palette, SelectPalette(env, config, Count(count)))
      case Raise(x) => Some(x)
      case Ok(p) => ThemeError(lib, p, vs)
  }

  /** Classes given by the caller bypass the environment and the config
      file: init then fails only on the theme. */
  lemma GivenClassesSkipSelection(lib: Library, env: map<string, string>, config: Result<map<string, string>>, count: int,
                                  renderer: RendererClass, palette: PaletteClass, vs: seq<SlotValue>)
    ensures InitError(lib, env, config, count, Some(renderer), Some(palette), vs) == ThemeError(lib, palette, vs)
  {
  }

  /** Without colour (a count of 0, or NO_COLOR set) the selections cannot
      fail, even on a broken config file. */
  lemma NoColourSelectionsSucceed(lib: Library, env: map<string, string>, config: Result<map<string, string>>, count: int,
                                  vs: seq<SlotValue>)
    requires NoColour(env, Count(count))
    ensures InitError(lib, env, config, count, None, None, vs) == ThemeError(lib, Ansi8Palette, vs)
  {
  }

  class AutoFormat {
    var termColors: int
    var rendererCls: RendererClass
    var paletteCls: PaletteClass
    /** null until init has built it */
    var theme: Theme?
    var needTextFix: bool
    var needEmojiFix: bool
    /** Whether fix_text has been replaced by ftfy's, and fix_emoji by
        emoji2text; otherwise they are the identity. */
    var textFixed: bool
    var emojiFixed: bool

    /** The object before init runs: no theme, and the identity fixers. */
    constructor Blank()
      ensures theme == null && !textFixed && !emojiFixed
    {
      termColors := 0;
      rendererCls := Ansi256Renderer;
      paletteCls := Ansi256Palette;
      theme := null;
      needTextFix, needEmojiFix := false, false;
      textFixed, emojiFixed := false, false;
    }

    /** AutoFormat(term_colors, renderer, palette, theme): a blank object on
        which init runs with fix_all and fix_text false. `slots` are the
        slots of the theme class, BasicTheme's when none is given. */
    static method Create(lib: Library, env: map<string, string>, config: Result<map<string, string>>, probe: int,
                         termColors: int, renderer: Option<RendererClass>, palette: Option<PaletteClass>, slots: seq<Slot>)
      returns (r: Result<AutoFormat>)
      modifies set i | 0 <= i < |slots| :: slots[i].attr
      ensures var count := if termColors != 0 then termColors else probe;
        var err := InitError(lib, env, config, count, renderer, palette, old(SlotValues(slots)));
        (r.Raise? <==> err.Some?) && (r.Raise? ==> r.exc == err.value)
      ensures r.Ok? ==>
        var a := r.value;
        var count := if termColors != 0 then termColors else probe;
        fresh(a) && a.termColors == count &&
        a.rendererCls == Given(renderer, SelectRenderer(env, config, Count(count))).value &&
        a.paletteCls == Given(palette, SelectPalette(env, config, Count(count))).value &&
        a.theme != null && a.theme.renderer.cls == a.rendererCls &&
        IsBuilt(lib, a.paletteCls, old(SlotValues(slots)), a.theme) && fresh(a.theme.Repr) &&
        a.needTextFix == NeedsFix(count) && a.needEmojiFix == NeedsFix(count) &&
        !a.textFixed && !a.emojiFixed
    {
      ghost var vs := SlotValues(slots);
      var a := new AutoFormat.Blank();
      assert SlotValues(slots) == vs;
      var e := a.Init(lib, env, config, probe, termColors, renderer, palette, slots, false, false);
      if e.Some? {
        return Raise(e.value);
      }
      return Ok(a);
    }

    /** init(term_colors, renderer, palette, theme, fix_all, fix_text). A
        term_colors of 0 means "probe". The fields are set in order, so an
        exception leaves the ones before it set and the ones after it as
        they were. */
    method Init(lib: Library, env: map<string, string>, config: Result<map<string, string>>, probe: int,
                termColors: int, renderer: Option<RendererClass>, palette: Option<PaletteClass>, slots: seq<Slot>,
                fixAll: bool, fixText: bool)
      returns (e: Option<Exception>)
      modifies this, set i | 0 <= i < |slots| :: slots[i].attr
      ensures this.termColors == if termColors != 0 then termColors else probe
      ensures e == InitError(lib, env, config, if termColors != 0 then termColors else probe, renderer, palette, old(SlotValues(slots)))
      ensures var rs := Given(renderer, SelectRenderer(env, config, Count(this.termColors)));
        var ps := Given(palette, SelectPalette(env, config, Count(this.termColors)));
        (rs.Raise? ==> rendererCls == old(rendererCls) && paletteCls == old(paletteCls) &&
                       unchanged(set i | 0 <= i < |slots| :: slots[i].attr)) &&
        (rs.Ok? ==> rendererCls == rs.value) &&
        (rs.Ok? && ps.Raise? ==> paletteCls == old(paletteCls)) &&
        (rs.Ok? && ps.Ok? ==> paletteCls == ps.value)
      ensures e.Some? ==> theme == old(theme) && textFixed == old(textFixed) && emojiFixed == old(emojiFixed) &&
                          needTextFix == old(needTextFix) && needEmojiFix == old(needEmojiFix)
      ensures e.None? ==> theme != null && theme.renderer.cls == rendererCls &&
                          IsBuilt(lib, paletteCls, old(SlotValues(slots)), theme) && fresh(theme.Repr) &&
                          needTextFix == NeedsFix(this.termColors) && needEmojiFix == NeedsFix(this.termColors) &&
                          emojiFixed == (old(emojiFixed) || (fixAll && NeedsFix(this.termColors))) &&
                          textFixed == (old(textFixed) || ((fixText || fixAll) && NeedsFix(this.termColors)))
    {
      ghost var vs := SlotValues(slots);
      var count := if termColors != 0 then termColors else probe;
      this.termColors := count;
      e := Choose(env, config, count, renderer, palette);
      if e.Some? {
        return;
      }
      e := Finish(lib, slots, vs, paletteCls, fixAll, fixText);
    }

    /** The classes init picks for the colour count already set. */
    method Choose(env: map<string, string>, config: Result<map<string, string>>, count: int,
                  renderer: Option<RendererClass>, palette: Option<PaletteClass>)
      returns (e: Option<Exception>)
      requires count == termColors
      modifies this
      ensures termColors == old(termColors) && theme == old(theme)
      ensures textFixed == old(textFixed) && emojiFixed == old(emojiFixed)
      ensures needTextFix == old(needTextFix) && needEmojiFix == old(needEmojiFix)
      ensures var rs := Given(renderer, SelectRenderer(env, config, Count(count)));
        var ps := Given(palette, SelectPalette(env, config, Count(count)));
        (rs.Raise? ==> e == Some(rs.exc) && rendererCls == old(rendererCls) && paletteCls == old(paletteCls)) &&
        (rs.Ok? ==> rendererCls == rs.value) &&
        (rs.Ok? && ps.Raise? ==> e == Some(ps.exc) && paletteCls == old(paletteCls)) &&
        (rs.Ok? && ps.Ok? ==> e.None? && paletteCls == ps.value)
    {
      var rs := Given(renderer, SelectRenderer(env, config, Count(count)));
      if rs.Raise? {
        return Some(rs.exc);
      }
      rendererCls := rs.value;
      var ps := Given(palette, SelectPalette(env, config, Count(count)));
      if ps.Raise? {
        return Some(ps.exc);
      }
      paletteCls := ps.value;
      return None;
    }

    /** The rest of init once the classes are chosen: the theme, the
        need_* flags and the fixers. */
    method Finish(lib: Library, slots: seq<Slot>, ghost vs: seq<SlotValue>, pc: PaletteClass, fixAll: bool, fixText: bool) returns (e: Option<Exception>)
      requires vs == SlotValues(slots) && pc == paletteCls
      modifies this, set i | 0 <= i < |slots| :: slots[i].attr
      ensures termColors == old(termColors) && rendererCls == old(rendererCls) && paletteCls == old(paletteCls)
      ensures e == ThemeError(lib, pc, vs)
      ensures e.None? ==> theme != null && theme.renderer.cls == rendererCls && IsBuilt(lib, pc, vs, theme) && fresh(theme.Repr)
      ensures e.None? ==> needTextFix == NeedsFix(termColors) && needEmojiFix == NeedsFix(termColors)
      ensures e.None? ==> emojiFixed == (old(emojiFixed) || (fixAll && NeedsFix(termColors)))
      ensures e.None? ==> textFixed == (old(textFixed) || ((fixText || fixAll) && NeedsFix(termColors)))
      ensures e.Some? ==> theme == old(theme) && textFixed == old(textFixed) && emojiFixed == old(emojiFixed)
      ensures e.Some? ==> needTextFix == old(needTextFix) && needEmojiFix == old(needEmojiFix)
    {
      var t := MakeTheme(lib, pc, rendererCls, slots);
      if t.Raise? {
        return Some(t.exc);
      }
      SetUp(t.value, fixAll, fixText);
      return None;
    }

    /** The end of init once the theme is built: the theme is stored, the
        need_* flags are set, and the fixers are replaced as asked. */
    method SetUp(t: Theme, fixAll: bool, fixText: bool)
      modifies this
      ensures termColors == old(termColors) && rendererCls == old(rendererCls) && paletteCls == old(paletteCls)
      ensures theme == t
      ensures needTextFix == NeedsFix(termColors) && needEmojiFix == NeedsFix(termColors)
      ensures emojiFixed == (old(emojiFixed) || (fixAll && NeedsFix(termColors)))
      ensures textFixed == (old(textFixed) || ((fixText || fixAll) && NeedsFix(termColors)))
    {
      theme := t;
      needTextFix := NeedsFix(termColors);
      needEmojiFix := NeedsFix(termColors);
      var fixText := fixText;
      if fixAll && needEmojiFix {
        fixText := true;
        emojiFixed := true;
      }
      if fixText && needTextFix {
        textFixed := true;
      }
    }

    /** `theme(palette=..., renderer=...)` for the chosen classes. */
    static method MakeTheme(lib: Library, paletteCls: PaletteClass, rendererCls: RendererClass, slots: seq<Slot>)
      returns (r: Result<Theme>)
      modifies set i | 0 <= i < |slots| :: slots[i].attr
      ensures (if r.Raise? then Some(r.exc) else None) == ThemeError(lib, paletteCls, old(SlotValues(slots)))
      ensures r.Ok? ==> r.value.renderer.cls == rendererCls && IsBuilt(lib, paletteCls, old(SlotValues(slots)), r.value) &&
                        fresh(r.value.Repr)
      ensures Tracks(slots, old(SlotValues(slots)))
    {
      r := Theme.Create(lib, Some(paletteCls), Some(rendererCls), slots);
    }

    /** `self.fix_text(text)` */
    function FixText(ftfy: string -> string, text: string): string
      reads this
    {
      if textFixed then ftfy(text) else text
    }

    /** `self.fix_emoji(text, ':')` */
    function FixEmoji(emoji2text: (string, string) -> string, text: string): string
      reads this
    {
      if emojiFixed then emoji2text(text, ":") else text
    }

    /** formatter(content, key=key): the content, through fix_text and then
        fix_emoji when the terminal needs them, as a ColoredString with the
        formatter's theme and the key. */
    function Call(ftfy: string -> string, emoji2text: (string, string) -> string, content: string, key: string): (r: ColoredString)
      reads this
      requires theme != null
      ensures r.theme == theme && r.key == key
      ensures !needTextFix && !needEmojiFix ==> r.body == content
      ensures !textFixed && !emojiFixed ==> r.body == content
      ensures needTextFix && needEmojiFix ==> r.body == FixEmoji(emoji2text, FixText(ftfy, content))
    {
      var content := if needTextFix then FixText(ftfy, content) else content;
      var content := if needEmojiFix then FixEmoji(emoji2text, content) else content;
      ColoredString(content, theme, key)
    }
  }

  /** A formatter created with the default fixers wraps any content
      unchanged. */
  method DefaultFormatterKeepsContent(lib: Library, env: map<string, string>, config: Result<map<string, string>>, probe: int,
                                      termColors: int, slots: seq<Slot>,
                                      ftfy: string -> string, emoji2text: (string, string) -> string, content: string)
    returns (r: Option<ColoredString>)
    modifies set i | 0 <= i < |slots| :: slots[i].attr
    ensures r.Some? ==> r.value.body == content && r.value.key == ""
  {
    var f := AutoFormat.Create(lib, env, config, probe, termColors, None, None, slots);
    if f.Raise? {
      return None;
    }
    return Some(f.value.Call(ftfy, emoji2text, content, ""));
  }
}
