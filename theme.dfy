/** theme.py: themes, which name styles and resolve each one against a
    palette when the theme is built.

    A Python theme class declares its slots as class attributes holding
    ThemeColor objects, and Theme.__init__ walks the class's own `__dict__` in
    declaration order. The model passes that walk in as an ordered sequence
    of slots. */
module Themes {
  import opened Failures
  import opened Colour
  import opened Colormatch
  import opened Palettes
  import opened Render
  import opened Utils

  // ---------------------------------------------------------------------------
  // Edits and their replay

  datatype Component = Hue | Saturation | Luminance

  /** One recorded call: `set_hue`, `set_saturation` or `set_luminance` with
      its value, or `reset`. */
  datatype Edit = Assign(which: Component, value: real) | Reset

  function Get(c: Hsl, k: Component): real
  {
    match k
    case Hue => c.hue
    case Saturation => c.saturation
    case Luminance => c.luminance
  }

  /** What one edit does to a colour: a setter replaces its coordinate; a
      reset leaves the colour alone. */
  function Step(c: Hsl, e: Edit): Hsl
  {
    match e
    case Assign(Hue, v) => c.(hue := v)
    case Assign(Saturation, v) => c.(saturation := v)
    case Assign(Luminance, v) => c.(luminance := v)
    case Reset => c
  }

  /** The colour after replaying the edits in the order they were recorded. */
  function Replay(c: Hsl, edits: seq<Edit>): Hsl
  {
    if edits == [] then c else Step(Replay(c, edits[..|edits| - 1]), edits[|edits| - 1])
  }

  predicate Touches(e: Edit, k: Component)
  {
    e.Assign? && e.which == k
  }

  /** The last edit of a component decides it, whatever came before. */
  lemma {:induction false} LastEditWins(c: Hsl, edits: seq<Edit>, i: int, k: Component, v: real)
    requires 0 <= i < |edits| && edits[i] == Assign(k, v)
    requires forall j :: i < j < |edits| ==> !Touches(edits[j], k)
    ensures Get(Replay(c, edits), k) == v
  {
    if i < |edits| - 1 {
      LastEditWins(c, edits[..|edits| - 1], i, k, v);
    }
  }

  /** A component no edit touches keeps its value. */
  lemma {:induction false} UntouchedComponentKept(c: Hsl, edits: seq<Edit>, k: Component)
    requires forall j :: 0 <= j < |edits| ==> !Touches(edits[j], k)
    ensures Get(Replay(c, edits), k) == Get(c, k)
  {
    if edits != [] {
      UntouchedComponentKept(c, edits[..|edits| - 1], k);
    }
  }

  /** The edits with every reset removed. */
  function Setters(edits: seq<Edit>): (s: seq<Edit>)
    ensures |s| <= |edits|
    ensures forall e :: e in s ==> e.Assign?
  {
    if edits == [] then []
    else
      var rest := Setters(edits[..|edits| - 1]);
      if edits[|edits| - 1].Reset? then rest else rest + [edits[|edits| - 1]]
  }

  /** Resets change no colour component: replaying the setters alone gives
      the same colour. */
  lemma {:induction false} ResetsChangeNoColour(c: Hsl, edits: seq<Edit>)
    ensures Replay(c, Setters(edits)) == Replay(c, edits)
  {
    if edits != [] {
      var init := edits[..|edits| - 1];
      ResetsChangeNoColour(c, init);
      var rest := Setters(init);
      if edits[|edits| - 1].Assign? {
        assert (rest + [edits[|edits| - 1]])[..|rest|] == rest;
      }
    }
  }

  // ---------------------------------------------------------------------------
  // ThemeColor and ThemeStyle

  /** A ThemeColor: a colour name and the edits recorded on it. `ansi_reset`
      is set by `apply` when the edits hold a reset; the object belongs to the
      theme class, so the flag stays set once any theme has applied it. */
  class ThemeColor {
    /** self._color */
    const color: string
    /** self._ansi, which nothing reads */
    const ansi: AnsiCode
    /** self._edits */
    var edits: seq<Edit>
    var ansiReset: bool

    /** ThemeColor(color, ansi=None) */
    constructor (color: string, ansi: AnsiCode)
      ensures this.color == color && this.ansi == ansi && edits == [] && !ansiReset
    {
      this.color := color;
      this.ansi := ansi;
      edits := [];
      ansiReset := false;
    }

    /** set_hue(value): records one edit and returns the same object. */
    method SetHue(v: real) returns (self: ThemeColor)
      modifies this
      ensures self == this && edits == old(edits) + [Assign(Hue, v)] && ansiReset == old(ansiReset)
    {
      edits := edits + [Assign(Hue, v)];
      return this;
    }

    /** set_saturation(value) */
    method SetSaturation(v: real) returns (self: ThemeColor)
      modifies this
      ensures self == this && edits == old(edits) + [Assign(Saturation, v)] && ansiReset == old(ansiReset)
    {
      edits := edits + [Assign(Saturation, v)];
      return this;
    }

    /** set_luminance(value) */
    method SetLuminance(v: real) returns (self: ThemeColor)
      modifies this
      ensures self == this && edits == old(edits) + [Assign(Luminance, v)] && ansiReset == old(ansiReset)
    {
      edits := edits + [Assign(Luminance, v)];
      return this;
    }

    /** reset(): records a reset; the flag itself changes only in apply. */
    method Reset() returns (self: ThemeColor)
      modifies this
      ensures self == this && edits == old(edits) + [Edit.Reset] && ansiReset == old(ansiReset)
    {
      edits := edits + [Edit.Reset];
      return this;
    }

    /** apply(color): replays the edits on the colour in order, turning on
        ansi_reset for a reset, and returns the same object. */
    method Apply(c: Color) returns (self: ThemeColor)
      modifies this, c
      ensures self == this && edits == old(edits)
      ensures c.Value() == Replay(old(c.Value()), edits)
      ensures ansiReset == (old(ansiReset) || Edit.Reset in edits)
    {
      var i := 0;
      while i < |edits|
        invariant 0 <= i <= |edits| && edits == old(edits)
        invariant c.Value() == Replay(old(c.Value()), edits[..i])
        invariant ansiReset == (old(ansiReset) || Edit.Reset in edits[..i])
      {
        match edits[i] {
          case Reset => ansiReset := true;
          case Assign(Hue, v) => c.SetHue(v);
          case Assign(Saturation, v) => c.SetSaturation(v);
          case Assign(Luminance, v) => c.SetLuminance(v);
        }
        assert edits[..i + 1][..i] == edits[..i];
        assert edits[..i + 1] == edits[..i] + [edits[i]];
        i := i + 1;
      }
      assert edits[..i] == edits;
      return this;
    }
  }

  /** `ThemeColor('white').set_luminance(.8)` records exactly one edit and
      keeps its colour name. */
  method WhiteWithLuminanceExample() returns (t: ThemeColor)
    ensures t.color == "white" && t.edits == [Assign(Luminance, 0.8)] && !t.ansiReset
  {
    var base := new ThemeColor("white", NoCode);
    t := base.SetLuminance(0.8);
  }

  /** A style of a built theme: the resolved colours and the renderer. */
  class ThemeStyle {
    const fg: Color
    /** null stands for None */
    const bg: Color?
    const renderer: Renderer
    const ansiReset: bool

    constructor (fg: Color, bg: Color?, renderer: Renderer, ansiReset: bool)
      ensures this.fg == fg && this.bg == bg && this.renderer == renderer && this.ansiReset == ansiReset
    {
      this.fg := fg;
      this.bg := bg;
      this.renderer := renderer;
      this.ansiReset := ansiReset;
    }

    /** style(text): the renderer's render of the text with the stored colours
        and flag. The palette rewrites the stored colours in place, so a
        second call may match different colours. */
    method Call(lib: Library, sty: Sty, text: string) returns (r: Result<string>)
      requires renderer.Valid()
      modifies fg, bg
      ensures var o := RenderOf(lib, sty, renderer.cls, renderer.palette.cls, renderer.palette.tree.points, text,
                                old(fg.Value()), if bg == null then None else Some(old(bg.Value())), fg == bg, ansiReset);
        r == o.out && fg.Value() == o.fg && (bg != null ==> o.bg == Some(bg.Value()))
    {
      r := renderer.Render(lib, sty, text, fg, bg, ansiReset);
    }
  }

  // ---------------------------------------------------------------------------
  // Slot resolution

  /** A declared slot: its attribute name and the ThemeColor it holds. */
  datatype Slot = Slot(name: string, attr: ThemeColor)

  /** A slot's name and the state of its ThemeColor. */
  datatype SlotValue = SlotValue(name: string, color: string, edits: seq<Edit>, ansiReset: bool)

  function SlotValues(slots: seq<Slot>): (vs: seq<SlotValue>)
    reads set i | 0 <= i < |slots| :: slots[i].attr
    ensures |vs| == |slots|
    ensures forall i :: 0 <= i < |slots| ==>
      vs[i] == SlotValue(slots[i].name, slots[i].attr.color, slots[i].attr.edits, slots[i].attr.ansiReset)
  {
    if slots == [] then []
    else SlotValues(slots[..|slots| - 1]) + [var s := slots[|slots| - 1]; SlotValue(s.name, s.attr.color, s.attr.edits, s.attr.ansiReset)]
  }

  function Names(vs: seq<SlotValue>): (ns: seq<string>)
    ensures |ns| == |vs| && forall i :: 0 <= i < |vs| ==> ns[i] == vs[i].name
  {
    seq(|vs|, i requires 0 <= i < |vs| => vs[i].name)
  }

  /** A class `__dict__` holds each name once. */
  predicate DistinctNames(vs: seq<SlotValue>)
  {
    forall i, j :: 0 <= i < j < |vs| ==> vs[i].name != vs[j].name
  }

  predicate IsBackgroundName(name: string)
  {
    |name| > 0 && name[0] == '_'
  }

  /** Names a theme answers to besides its slots. */
  const OwnAttributes: set<string> := {"palette", "renderer"}

  /** hasattr(theme, name) */
  predicate HasAttribute(vs: seq<SlotValue>, name: string)
  {
    name in Names(vs) || name in OwnAttributes
  }

  /** The first slot of a name at position i or later, when there is one. */
  function FindFrom(vs: seq<SlotValue>, name: string, i: nat): (r: Option<nat>)
    ensures r.Some? <==> exists j :: i <= j < |vs| && vs[j].name == name
    ensures r.Some? ==> i <= r.value < |vs| && vs[r.value].name == name
    decreases |vs| - i
  {
    if i >= |vs| then None
    else if vs[i].name == name then Some(i)
    else FindFrom(vs, name, i + 1)
  }

  /** The slot of a name, when there is one. */
  function Find(vs: seq<SlotValue>, name: string): (r: Option<nat>)
    ensures r.Some? <==> name in Names(vs)
    ensures r.Some? ==> r.value < |vs| && vs[r.value].name == name
  {
    var r := FindFrom(vs, name, 0);
    assert r.Some? ==> Names(vs)[r.value] == name;
    r
  }

  /** The colour a slot resolves to: its colour name is parsed, matched
      against the palette (with ansi false), and a new colour is parsed from
      the hex of the matched target; then the slot's edits are replayed on it.
      The query colour is a throwaway, so the palette's targets stay as they
      were. */
  function SlotColor(lib: Library, pcls: PaletteClass, points: seq<ColorPoint>, color: string, edits: seq<Edit>): (r: Result<Hsl>)
  {
    var q :- FromWeb(lib, color);
    var m :- PaletteMatch(lib, pcls, points, false, q);
    var t :- FromWeb(lib, lib.hexL(m.target));
    Ok(Replay(t, edits))
  }

  /** Theme.__init__ hands the slot's colour name to colour.Color itself, so
      a name the package rejects raises the package's own exception
      (AttributeError for a malformed '#' code), where parse_color would
      have turned the same spelling into ValueError. */
  lemma SlotColorKeepsColourException(lib: Library, pcls: PaletteClass, points: seq<ColorPoint>, color: string, edits: seq<Edit>)
    requires lib.web(color).Raise?
    ensures SlotColor(lib, pcls, points, color, edits) == Raise(lib.web(color).exc)
    ensures WebSpelling(lib, color) == color ==> ParseColor(lib, Text(color)) == Raise(ValueError)
  {
  }

  /** The values a ThemeStyle is built with. */
  datatype StyleSpec = StyleSpec(fg: Hsl, bg: Option<Hsl>, ansiReset: bool)

  /** One step of the walk: a background slot is skipped when the theme has
      the unprefixed name and is a ValueError otherwise; a foreground slot
      gives a style, with a background when a `_name` slot exists. */
  function SlotStyle(lib: Library, pcls: PaletteClass, points: seq<ColorPoint>, vs: seq<SlotValue>, v: SlotValue): (r: Result<Option<StyleSpec>>)
    ensures IsBackgroundName(v.name) ==> r == (if HasAttribute(vs, v.name[1..]) then Ok(None) else Raise(ValueError))
    ensures !IsBackgroundName(v.name) && r.Ok? ==> r.value.Some? && (r.value.value.bg.Some? <==> "_" + v.name in Names(vs))
  {
    if IsBackgroundName(v.name) then
      if HasAttribute(vs, v.name[1..]) then Ok(None) else Raise(ValueError)
    else
      var fg :- SlotColor(lib, pcls, points, v.color, v.edits);
      var reset := v.ansiReset || Edit.Reset in v.edits;
      match Find(vs, "_" + v.name)
      case None => Ok(Some(StyleSpec(fg, None, reset)))
      case Some(i) =>
        var bg :- SlotColor(lib, pcls, points, vs[i].color, vs[i].edits);
        Ok(Some(StyleSpec(fg, Some(bg), reset)))
  }

  /** The outcome of each step of the walk, slot by slot. */
  function Steps(lib: Library, pcls: PaletteClass, points: seq<ColorPoint>, vs: seq<SlotValue>, k: nat): (ss: seq<Result<Option<StyleSpec>>>)
    requires k <= |vs|
    ensures |ss| == k
  {
    if k == 0 then [] else Steps(lib, pcls, points, vs, k - 1) + [SlotStyle(lib, pcls, points, vs, vs[k - 1])]
  }

  /** Step i of the walk is slot i's own step. */
  lemma {:induction false} StepsAre(lib: Library, pcls: PaletteClass, points: seq<ColorPoint>, vs: seq<SlotValue>, k: nat)
    requires k <= |vs|
    ensures forall i :: 0 <= i < k ==> Steps(lib, pcls, points, vs, k)[i] == SlotStyle(lib, pcls, points, vs, vs[i])
  {
    if k > 0 {
      StepsAre(lib, pcls, points, vs, k - 1);
    }
  }

  /** The styles set by the first k steps, given the outcome of each step,
      or the exception of the first step that failed. */
  function Walked(vs: seq<SlotValue>, ss: seq<Result<Option<StyleSpec>>>, k: nat): Result<map<string, StyleSpec>>
    requires k <= |vs| && k <= |ss|
  {
    if k == 0 then Ok(map[])
    else
      var m :- Walked(vs, ss, k - 1);
      var s :- ss[k - 1];
      if s.None? then Ok(m) else Ok(m[vs[k - 1].name := s.value])
  }

  /** The styles Theme.__init__ sets on a theme with the given slots, or the
      exception that stops it. */
  function ThemeOf(lib: Library, pcls: PaletteClass, points: seq<ColorPoint>, vs: seq<SlotValue>): Result<map<string, StyleSpec>>
  {
    Walked(vs, Steps(lib, pcls, points, vs, |vs|), |vs|)
  }

  /** A foreground slot's style carries ansi_reset exactly when the slot's
      flag was on or its edits hold a reset, and its colour has the value
      of the last edit of each component. */
  lemma SlotStyleFacts(lib: Library, pcls: PaletteClass, points: seq<ColorPoint>, vs: seq<SlotValue>, v: SlotValue,
                       j: int, k: Component, x: real)
    requires !IsBackgroundName(v.name) && SlotStyle(lib, pcls, points, vs, v).Ok?
    ensures SlotStyle(lib, pcls, points, vs, v).value.value.ansiReset == (v.ansiReset || Edit.Reset in v.edits)
    ensures 0 <= j < |v.edits| && v.edits[j] == Assign(k, x) && (forall l :: j < l < |v.edits| ==> !Touches(v.edits[l], k)) ==>
      Get(SlotStyle(lib, pcls, points, vs, v).value.value.fg, k) == x
  {
    if 0 <= j < |v.edits| && v.edits[j] == Assign(k, x) && (forall l :: j < l < |v.edits| ==> !Touches(v.edits[l], k)) {
      var q := FromWeb(lib, v.color).value;
      var m := PaletteMatch(lib, pcls, points, false, q).value;
      var t := FromWeb(lib, lib.hexL(m.target)).value;
      LastEditWins(t, v.edits, j, k, x);
    }
  }

  /** The walk fails exactly when some step up to k fails. */
  lemma {:induction false} WalkedFailsIff(vs: seq<SlotValue>, ss: seq<Result<Option<StyleSpec>>>, k: nat)
    requires k <= |vs| && k <= |ss|
    ensures Walked(vs, ss, k).Raise? <==> exists j :: 0 <= j < k && ss[j].Raise?
  {
    if k > 0 {
      WalkedFailsIff(vs, ss, k - 1);
    }
  }

  /** The names a finished walk sets are those of the steps that gave a
      style. */
  lemma {:induction false} WalkedNames(vs: seq<SlotValue>, ss: seq<Result<Option<StyleSpec>>>, k: nat)
    requires k <= |vs| && k <= |ss| && Walked(vs, ss, k).Ok?
    ensures forall j :: 0 <= j < k ==> ss[j].Ok? && (ss[j].value.Some? ==> vs[j].name in Walked(vs, ss, k).value)
    ensures forall n :: n in Walked(vs, ss, k).value ==> exists j :: 0 <= j < k && vs[j].name == n && ss[j].Ok? && ss[j].value.Some?
  {
    if k > 0 {
      WalkedNames(vs, ss, k - 1);
    }
  }

  /** With names declared once, the style of a name is the one its own step
      gave: no later step overwrites it. */
  lemma {:induction false} WalkedStyleOfSlot(vs: seq<SlotValue>, ss: seq<Result<Option<StyleSpec>>>, k: nat, j: nat)
    requires k <= |vs| && k <= |ss| && DistinctNames(vs) && Walked(vs, ss, k).Ok?
    requires j < k && ss[j].Ok? && ss[j].value.Some?
    ensures vs[j].name in Walked(vs, ss, k).value && Walked(vs, ss, k).value[vs[j].name] == ss[j].value.value
  {
    if j < k - 1 {
      WalkedStyleOfSlot(vs, ss, k - 1, j);
      assert vs[k - 1].name != vs[j].name;
    }
  }

  /** One more step of a walk that has not failed. */
  lemma WalkedStep(vs: seq<SlotValue>, ss: seq<Result<Option<StyleSpec>>>, k: nat, m: map<string, StyleSpec>)
    requires k < |vs| && k < |ss| && Walked(vs, ss, k) == Ok(m)
    ensures Walked(vs, ss, k + 1) ==
      if ss[k].Raise? then Raise(ss[k].exc) else if ss[k].value.None? then Ok(m) else Ok(m[vs[k].name := ss[k].value.value])
  {
  }

  /** Once a step fails, the walk answers that failure however far it goes. */
  lemma {:induction false} WalkedFailurePersists(vs: seq<SlotValue>, ss: seq<Result<Option<StyleSpec>>>, k: nat, l: nat)
    requires k <= l <= |vs| && l <= |ss|
    requires Walked(vs, ss, k).Raise?
    ensures Walked(vs, ss, l) == Walked(vs, ss, k)
  {
    if k < l {
      WalkedFailurePersists(vs, ss, k, l - 1);
    }
  }

  /** Building a theme fails exactly when some slot's step fails. */
  lemma ThemeFailsIff(lib: Library, pcls: PaletteClass, points: seq<ColorPoint>, vs: seq<SlotValue>)
    ensures ThemeOf(lib, pcls, points, vs).Raise? <==> exists j :: 0 <= j < |vs| && SlotStyle(lib, pcls, points, vs, vs[j]).Raise?
  {
    WalkedFailsIff(vs, Steps(lib, pcls, points, vs, |vs|), |vs|);
    StepsAre(lib, pcls, points, vs, |vs|);
  }

  /** The styles of a built theme are exactly its foreground slots:
      background slots never become styles. */
  lemma ThemeStyleNames(lib: Library, pcls: PaletteClass, points: seq<ColorPoint>, vs: seq<SlotValue>)
    requires ThemeOf(lib, pcls, points, vs).Ok?
    ensures forall j :: 0 <= j < |vs| && !IsBackgroundName(vs[j].name) ==> vs[j].name in ThemeOf(lib, pcls, points, vs).value
    ensures forall n :: n in ThemeOf(lib, pcls, points, vs).value ==> !IsBackgroundName(n) && n in Names(vs)
  {
    var ss := Steps(lib, pcls, points, vs, |vs|);
    StepsAre(lib, pcls, points, vs, |vs|);
    WalkedNames(vs, ss, |vs|);
    forall n | n in ThemeOf(lib, pcls, points, vs).value
      ensures !IsBackgroundName(n) && n in Names(vs)
    {
      var j :| 0 <= j < |vs| && vs[j].name == n && ss[j].Ok? && ss[j].value.Some?;
      assert Names(vs)[j] == n;
    }
  }

  /** Each foreground slot's style is the one its own step computed. */
  lemma ThemeStyleOfSlot(lib: Library, pcls: PaletteClass, points: seq<ColorPoint>, vs: seq<SlotValue>, j: nat)
    requires DistinctNames(vs) && j < |vs| && !IsBackgroundName(vs[j].name)
    requires ThemeOf(lib, pcls, points, vs).Ok?
    ensures SlotStyle(lib, pcls, points, vs, vs[j]).Ok?
    ensures vs[j].name in ThemeOf(lib, pcls, points, vs).value
    ensures ThemeOf(lib, pcls, points, vs).value[vs[j].name] == SlotStyle(lib, pcls, points, vs, vs[j]).value.value
  {
    var ss := Steps(lib, pcls, points, vs, |vs|);
    StepsAre(lib, pcls, points, vs, |vs|);
    WalkedNames(vs, ss, |vs|);
    WalkedStyleOfSlot(vs, ss, |vs|, j);
  }

  /** An orphan background slot stops the walk with ValueError when every
      earlier step succeeded. */
  lemma OrphanRaises(lib: Library, pcls: PaletteClass, points: seq<ColorPoint>, vs: seq<SlotValue>, j: nat)
    requires j < |vs| && IsBackgroundName(vs[j].name) && !HasAttribute(vs, vs[j].name[1..])
    requires forall l :: 0 <= l < j ==> SlotStyle(lib, pcls, points, vs, vs[l]).Ok?
    ensures ThemeOf(lib, pcls, points, vs) == Raise(ValueError)
  {
    var ss := Steps(lib, pcls, points, vs, |vs|);
    assert ss[j] == Raise(ValueError) && forall l :: 0 <= l < j ==> ss[l].Ok? by {
      StepsAre(lib, pcls, points, vs, |vs|);
    }
    WalkedFailsIff(vs, ss, j);
    WalkedStep(vs, ss, j, Walked(vs, ss, j).value);
    WalkedFailurePersists(vs, ss, j + 1, |vs|);
  }

  /** Every background slot of the theme has its foreground. */
  predicate NoOrphans(vs: seq<SlotValue>)
  {
    forall i :: 0 <= i < |vs| && IsBackgroundName(vs[i].name) ==> HasAttribute(vs, vs[i].name[1..])
  }

  /** Whether every background slot at position i or later directly follows
      the slot of its unprefixed name, as the shipped themes declare them. */
  predicate PairedFrom(vs: seq<SlotValue>, i: nat)
    decreases |vs| - i
  {
    i >= |vs| ||
    ((!IsBackgroundName(vs[i].name) || (i > 0 && vs[i - 1].name == vs[i].name[1..])) && PairedFrom(vs, i + 1))
  }

  /** A theme whose background slots follow their foregrounds has no orphans. */
  lemma {:induction false} PairedHasNoOrphans(vs: seq<SlotValue>, i: nat)
    requires PairedFrom(vs, i)
    ensures forall j :: i <= j < |vs| && IsBackgroundName(vs[j].name) ==> HasAttribute(vs, vs[j].name[1..])
    decreases |vs| - i
  {
    if i < |vs| {
      PairedHasNoOrphans(vs, i + 1);
      if IsBackgroundName(vs[i].name) {
        assert Names(vs)[i - 1] == vs[i].name[1..];
      }
    }
  }

  /** Without orphans the walk fails only on a colour it cannot parse or
      match. */
  lemma {:induction false} NoOrphansFailOnColours(lib: Library, pcls: PaletteClass, points: seq<ColorPoint>, vs: seq<SlotValue>)
    requires NoOrphans(vs)
    ensures ThemeOf(lib, pcls, points, vs).Raise? <==>
      exists j :: 0 <= j < |vs| && !IsBackgroundName(vs[j].name) &&
        (SlotColor(lib, pcls, points, vs[j].color, vs[j].edits).Raise? ||
         (Find(vs, "_" + vs[j].name).Some? &&
          SlotColor(lib, pcls, points, vs[Find(vs, "_" + vs[j].name).value].color, vs[Find(vs, "_" + vs[j].name).value].edits).Raise?))
  {
    ThemeFailsIff(lib, pcls, points, vs);
  }

  // ---------------------------------------------------------------------------
  // Theme

  /** The values a built style holds. */
  predicate StyleHolds(s: ThemeStyle, spec: StyleSpec, renderer: Renderer)
    reads s, s.fg, s.bg
  {
    s.fg.Value() == spec.fg &&
    (s.bg == null <==> spec.bg.None?) &&
    (s.bg != null ==> s.bg.Value() == spec.bg.value) &&
    s.ansiReset == spec.ansiReset && s.renderer == renderer
  }

  /** The class and index of the palette `palette()` builds, or
      Ansi256Palette() when no palette class is given. */
  function PaletteIndex(lib: Library, paletteCls: Option<PaletteClass>): Result<(PaletteClass, seq<ColorPoint>)>
  {
    match paletteCls
    case None => Ok((Ansi256Palette, []))
    case Some(Ansi256Palette) => Ok((Ansi256Palette, []))
    case Some(c) =>
      var table :- CatalogOf(lib, c, NoCatalog);
      Ok((c, Values(table)))
  }

  /** The slots still hold the values they had when the walk began, except
      that a ThemeColor applied by the walk may have turned on its flag. */
  predicate Tracks(slots: seq<Slot>, vs: seq<SlotValue>)
    reads set i | 0 <= i < |slots| :: slots[i].attr
  {
    |slots| == |vs| &&
    (forall j {:trigger slots[j]} :: 0 <= j < |slots| ==>
      slots[j].name == vs[j].name && slots[j].attr.color == vs[j].color && slots[j].attr.edits == vs[j].edits) &&
    (forall j {:trigger slots[j]} :: 0 <= j < |slots| ==> vs[j].ansiReset ==> slots[j].attr.ansiReset) &&
    (forall j {:trigger slots[j]} :: 0 <= j < |slots| ==> slots[j].attr.ansiReset ==> vs[j].ansiReset || Edit.Reset in vs[j].edits)
  }

  lemma TracksItself(slots: seq<Slot>)
    ensures Tracks(slots, SlotValues(slots))
  {
  }

  /** The theme's styles hold the values of m, one per name. */
  predicate Holds(theme: Theme, m: map<string, StyleSpec>, renderer: Renderer)
    reads theme, set n | n in theme.styles :: theme.styles[n],
      set n | n in theme.styles :: theme.styles[n].fg, set n | n in theme.styles && theme.styles[n].bg != null :: theme.styles[n].bg
  {
    theme.styles.Keys == m.Keys && forall n :: n in m ==> StyleHolds(theme.styles[n], m[n], renderer)
  }

  /** A style object and the colours it holds. */
  ghost function StyleObjects(s: ThemeStyle): set<object>
  {
    {s, s.fg} + if s.bg != null then {s.bg} else {}
  }

  /** Every style set on the theme, and each of its colours, is one of the
      objects the theme's construction made; a style's background is not its
      foreground, and no two styles share an object. */
  ghost predicate Owns(theme: Theme)
    reads theme
  {
    (forall n :: n in theme.styles ==>
       StyleObjects(theme.styles[n]) <= theme.Repr && theme.styles[n].fg != theme.styles[n].bg) &&
    (forall n, n' :: n in theme.styles && n' in theme.styles && n != n' ==>
       StyleObjects(theme.styles[n]) !! StyleObjects(theme.styles[n']))
  }

  class Theme {
    const palette: Palette
    const renderer: Renderer
    /** The styles set on the theme, by slot name. */
    var styles: map<string, ThemeStyle>
    /** The styles set on the theme and their colours, all made while the
        theme was built. */
    ghost var Repr: set<object>

    constructor (palette: Palette, renderer: Renderer)
      ensures this.palette == palette && this.renderer == renderer && styles == map[] && Repr == {}
    {
      this.palette := palette;
      this.renderer := renderer;
      styles := map[];
      Repr := {};
    }

    /** Theme.__init__(palette, renderer) for a theme class declaring the
        given slots, in order. */
    static method Create(lib: Library, paletteCls: Option<PaletteClass>, rendererCls: Option<RendererClass>, slots: seq<Slot>)
      returns (r: Result<Theme>)
      modifies set i | 0 <= i < |slots| :: slots[i].attr
      ensures var vs := old(SlotValues(slots));
        var index := PaletteIndex(lib, paletteCls);
        r.Ok? <==> index.Ok? && ThemeOf(lib, index.value.0, index.value.1, vs).Ok?
      ensures var vs := old(SlotValues(slots));
        var index := PaletteIndex(lib, paletteCls);
        r.Raise? && index.Ok? ==> ThemeOf(lib, index.value.0, index.value.1, vs) == Raise(r.exc)
      ensures PaletteIndex(lib, paletteCls).Raise? ==> r == Raise(PaletteIndex(lib, paletteCls).exc)
      ensures Tracks(slots, old(SlotValues(slots)))
      ensures r.Ok? ==>
        var vs := old(SlotValues(slots));
        var index := PaletteIndex(lib, paletteCls).value;
        var m := ThemeOf(lib, index.0, index.1, vs).value;
        var t := r.value;
        t.palette.cls == index.0 && t.palette.tree.points == index.1 &&
        t.renderer.cls == (if rendererCls.Some? then rendererCls.value else Ansi256Renderer) &&
        t.renderer.palette == t.palette && t.renderer.Valid() && Holds(t, m, t.renderer)
      ensures r.Ok? ==> Owns(r.value) && fresh(r.value.Repr)
    {
      ghost var vs := SlotValues(slots);
      var p := OpenPalette(lib, paletteCls);
      if p.Raise? {
        TracksItself(slots);
        return Raise(p.exc);
      }
      assert SlotValues(slots) == vs;
      r := Assemble(lib, p.value, if rendererCls.Some? then rendererCls.value else Ansi256Renderer, slots);
    }

    /** A renderer of the given class on the palette, then the walk. */
    static method Assemble(lib: Library, palette: Palette, rendererCls: RendererClass, slots: seq<Slot>) returns (r: Result<Theme>)
      modifies set i | 0 <= i < |slots| :: slots[i].attr
      ensures var m := ThemeOf(lib, palette.cls, palette.tree.points, old(SlotValues(slots)));
        (r.Ok? <==> m.Ok?) && (r.Raise? ==> m == Raise(r.exc)) &&
        (r.Ok? ==> r.value.palette == palette && r.value.renderer.cls == rendererCls &&
                   r.value.renderer.palette == palette && r.value.renderer.Valid() && Holds(r.value, m.value, r.value.renderer))
      ensures r.Ok? ==> Owns(r.value) && fresh(r.value.Repr)
      ensures Tracks(slots, old(SlotValues(slots)))
    {
      ghost var vs := SlotValues(slots);
      var renderer := new Renderer(rendererCls, palette);
      assert SlotValues(slots) == vs;
      r := Build(lib, palette, renderer, slots);
    }

    /** The palette of the theme: the class given, with its own catalog, or
        Ansi256Palette when there is none. */
    static method OpenPalette(lib: Library, paletteCls: Option<PaletteClass>) returns (r: Result<Palette>)
      ensures r.Ok? <==> PaletteIndex(lib, paletteCls).Ok?
      ensures r.Raise? ==> PaletteIndex(lib, paletteCls) == Raise(r.exc)
      ensures r.Ok? ==> fresh(r.value) && fresh(r.value.tree)
      ensures r.Ok? ==> (r.value.cls, r.value.tree.points) == PaletteIndex(lib, paletteCls).value
    {
      if paletteCls.None? {
        var palette := new Palette.Ansi256();
        return Ok(palette);
      }
      r := Palette.Create(lib, paletteCls.value, NoCatalog);
    }

    /** The walk over the slots, for a palette and a renderer already made. */
    static method Build(lib: Library, palette: Palette, renderer: Renderer, slots: seq<Slot>) returns (r: Result<Theme>)
      requires renderer.Valid() && renderer.palette == palette
      modifies set i | 0 <= i < |slots| :: slots[i].attr
      ensures var vs := old(SlotValues(slots));
        var m := ThemeOf(lib, palette.cls, palette.tree.points, vs);
        (r.Ok? <==> m.Ok?) && (r.Raise? ==> m == Raise(r.exc)) &&
        (r.Ok? ==> fresh(r.value) && r.value.palette == palette && r.value.renderer == renderer &&
                   renderer.palette == palette && Holds(r.value, m.value, renderer))
      ensures r.Ok? ==> Owns(r.value) && fresh(r.value.Repr)
      ensures Tracks(slots, old(SlotValues(slots)))
    {
      var vs := SlotValues(slots);
      var theme := new Theme(palette, renderer);
      var stop, m := Walk(lib, palette, renderer, theme, slots, vs, palette.tree.points, Steps(lib, palette.cls, palette.tree.points, vs, |vs|));
      if stop.Some? {
        return Raise(stop.value);
      }
      return Ok(theme);
    }

    /** The loop of Theme.__init__ over the slots, in order; ss holds what
        each step is to give. */
    static method Walk(lib: Library, palette: Palette, renderer: Renderer, theme: Theme, slots: seq<Slot>, vs: seq<SlotValue>,
                       ghost points: seq<ColorPoint>, ghost ss: seq<Result<Option<StyleSpec>>>)
      returns (stop: Option<Exception>, ghost m: map<string, StyleSpec>)
      requires Tracks(slots, vs) && palette.tree.points == points && theme.styles == map[] && theme.Repr == {}
      requires ss == Steps(lib, palette.cls, points, vs, |vs|)
      modifies theme, set j | 0 <= j < |slots| :: slots[j].attr
      ensures palette.tree.points == points
      ensures stop.Some? ==> Walked(vs, ss, |vs|) == Raise(stop.value)
      ensures stop.None? ==> Walked(vs, ss, |vs|) == Ok(m) && Holds(theme, m, renderer)
      ensures Owns(theme) && fresh(theme.Repr)
      ensures Tracks(slots, vs)
    {
      var i := 0;
      m := map[];
      while i < |slots|
        invariant 0 <= i <= |slots|
        invariant Tracks(slots, vs) && palette.tree.points == points
        invariant Walked(vs, ss, i) == Ok(m)
        invariant Holds(theme, m, renderer)
        invariant Owns(theme) && fresh(theme.Repr)
      {
        stop, m := Advance(lib, palette, renderer, theme, slots, vs, i, points, ss, m);
        if stop.Some? {
          WalkedFailurePersists(vs, ss, i + 1, |vs|);
          return;
        }
        i := i + 1;
      }
      return None, m;
    }

    /** Step i of the walk on the theme being built: the style of slot i is
        set on the theme, or the exception that stops the walk is answered. */
    static method Advance(lib: Library, palette: Palette, renderer: Renderer, theme: Theme, slots: seq<Slot>, vs: seq<SlotValue>, i: nat,
                          ghost points: seq<ColorPoint>, ghost ss: seq<Result<Option<StyleSpec>>>, ghost m: map<string, StyleSpec>)
      returns (stop: Option<Exception>, ghost m1: map<string, StyleSpec>)
      requires i < |slots| && Tracks(slots, vs) && palette.tree.points == points
      requires ss == Steps(lib, palette.cls, points, vs, |vs|)
      requires Walked(vs, ss, i) == Ok(m)
      requires Holds(theme, m, renderer) && Owns(theme)
      modifies theme, set j | 0 <= j < |slots| :: slots[j].attr
      ensures Tracks(slots, vs) && palette.tree.points == points
      ensures Owns(theme) && old(theme.Repr) <= theme.Repr && fresh(theme.Repr - old(theme.Repr))
      ensures stop.Some? ==> Walked(vs, ss, i + 1) == Raise(stop.value)
      ensures stop.None? ==> Walked(vs, ss, i + 1) == Ok(m1) && Holds(theme, m1, renderer)
    {
      assert ss[i] == SlotStyle(lib, palette.cls, points, vs, vs[i]) by {
        StepsAre(lib, palette.cls, points, vs, |vs|);
      }
      stop, m1 := Place(lib, palette, renderer, theme, slots, vs, i, ss[i], m);
      WalkedStep(vs, ss, i, m);
    }

    /** The body of the loop for slot i: its style, when it has one, is set on
        the theme, and the exception of a failed step is answered. */
    static method Place(lib: Library, palette: Palette, renderer: Renderer, theme: Theme, slots: seq<Slot>, vs: seq<SlotValue>, i: nat,
                        ghost step: Result<Option<StyleSpec>>, ghost m: map<string, StyleSpec>)
      returns (stop: Option<Exception>, ghost m1: map<string, StyleSpec>)
      requires i < |slots| && Tracks(slots, vs)
      requires step == SlotStyle(lib, palette.cls, palette.tree.points, vs, vs[i])
      requires Holds(theme, m, renderer) && Owns(theme)
      modifies theme, set j | 0 <= j < |slots| :: slots[j].attr
      ensures Tracks(slots, vs)
      ensures Owns(theme) && old(theme.Repr) <= theme.Repr && fresh(theme.Repr - old(theme.Repr))
      ensures (stop.Some? <==> step.Raise?) && (stop.Some? ==> stop.value == step.exc)
      ensures stop.None? ==> m1 == (if step.value.None? then m else m[vs[i].name := step.value.value]) && Holds(theme, m1, renderer)
    {
      var style := MakeStyle(lib, palette, renderer, slots, vs, i, theme.Repr);
      assert Holds(theme, m, renderer);
      if style.Raise? {
        return Some(style.exc), m;
      }
      m1 := m;
      if style.value != null {
        m1 := Record(theme, renderer, slots[i].name, style.value, m, step.value.value);
      }
      return None, m1;
    }

    /** setattr(theme, name, style): one more style on the theme. */
    static method Record(theme: Theme, renderer: Renderer, name: string, style: ThemeStyle, ghost m: map<string, StyleSpec>, ghost spec: StyleSpec)
      returns (ghost m1: map<string, StyleSpec>)
      requires Holds(theme, m, renderer) && StyleHolds(style, spec, renderer) && Owns(theme)
      requires StyleObjects(style) !! theme.Repr && style.fg != style.bg
      modifies theme
      ensures theme.styles == old(theme.styles)[name := style]
      ensures theme.Repr == old(theme.Repr) + StyleObjects(style) && Owns(theme)
      ensures m1 == m[name := spec] && Holds(theme, m1, renderer)
    {
      theme.styles := theme.styles[name := style];
      theme.Repr := theme.Repr + StyleObjects(style);
      m1 := m[name := spec];
      forall n | n in m1
        ensures StyleHolds(theme.styles[n], m1[n], renderer)
      {
        if n != name {
          assert n in m && StyleHolds(theme.styles[n], m[n], renderer);
        }
      }
    }

    /** One step of the walk: the style a slot gives, none for a background
        slot, or the exception that stops the walk. */
    static method MakeStyle(lib: Library, palette: Palette, renderer: Renderer, slots: seq<Slot>, vs: seq<SlotValue>, i: nat,
                            ghost existing: set<object>)
      returns (r: Result<ThemeStyle?>)
      requires i < |slots| && Tracks(slots, vs)
      modifies set j | 0 <= j < |slots| :: slots[j].attr
      ensures Tracks(slots, vs)
      ensures var s := SlotStyle(lib, palette.cls, palette.tree.points, vs, vs[i]);
        (r.Ok? <==> s.Ok?) && (r.Raise? ==> r.exc == s.exc) &&
        (r.Ok? ==> (r.value == null <==> s.value.None?)) &&
        (r.Ok? && r.value != null ==> (fresh(r.value) && StyleHolds(r.value, s.value.value, renderer) &&
           fresh(r.value.fg) && (r.value.bg != null ==> fresh(r.value.bg)) && r.value.fg != r.value.bg &&
           StyleObjects(r.value) !! existing))
    {
      var slot := slots[i];
      if IsBackgroundName(slot.name) {
        if !HasAttribute(vs, slot.name[1..]) {
          return Raise(ValueError);
        }
        return Ok(null);
      }
      var fs := ForegroundStyle(lib, palette, renderer, slots, vs, i);
      if fs.Raise? {
        return Raise(fs.exc);
      }
      return Ok(fs.value);
    }

    /** The step for a foreground slot. */
    static method ForegroundStyle(lib: Library, palette: Palette, renderer: Renderer, slots: seq<Slot>, vs: seq<SlotValue>, i: nat)
      returns (r: Result<ThemeStyle>)
      requires i < |slots| && Tracks(slots, vs) && !IsBackgroundName(vs[i].name)
      modifies set j | 0 <= j < |slots| :: slots[j].attr
      ensures Tracks(slots, vs)
      ensures var s := SlotStyle(lib, palette.cls, palette.tree.points, vs, vs[i]);
        (r.Ok? <==> s.Ok?) && (r.Raise? ==> r.exc == s.exc) &&
        (r.Ok? ==> (fresh(r.value) && StyleHolds(r.value, s.value.value, renderer) &&
           fresh(r.value.fg) && (r.value.bg != null ==> fresh(r.value.bg)) && r.value.fg != r.value.bg))
    {
      var attr := slots[i].attr;
      ghost var v := vs[i];
      assert attr.color == v.color && attr.edits == v.edits;
      var fg := Resolve(lib, palette, attr);
      if fg.Raise? {
        return Raise(fg.exc);
      }
      assert attr.ansiReset == (v.ansiReset || Edit.Reset in v.edits);
      var bg := Background(lib, palette, slots, vs, i);
      if bg.Raise? {
        return Raise(bg.exc);
      }
      var reset := attr.ansiReset;
      var style := new ThemeStyle(fg.value, bg.value, renderer, reset);
      return Ok(style);
    }

    /** The background of a foreground slot: none without a `_name` slot,
        otherwise that slot's colour. */
    static method Background(lib: Library, palette: Palette, slots: seq<Slot>, vs: seq<SlotValue>, i: nat)
      returns (r: Result<Color?>)
      requires i < |slots| && Tracks(slots, vs)
      modifies set j | 0 <= j < |slots| :: slots[j].attr
      ensures Tracks(slots, vs)
      ensures forall j :: 0 <= j < |slots| ==>
        slots[j].attr.ansiReset == (old(slots[j].attr.ansiReset) || (slots[j].attr.ansiReset && Edit.Reset in vs[j].edits))
      ensures Find(vs, "_" + vs[i].name).None? ==> r == Ok(null)
      ensures Find(vs, "_" + vs[i].name).Some? ==>
        var b := vs[Find(vs, "_" + vs[i].name).value];
        var c := SlotColor(lib, palette.cls, palette.tree.points, b.color, b.edits);
        (r.Ok? <==> c.Ok?) && (r.Raise? ==> r.exc == c.exc) &&
        (r.Ok? ==> r.value != null && fresh(r.value) && r.value.Value() == c.value)
    {
      var bi := Find(vs, "_" + slots[i].name);
      if bi.None? {
        return Ok(null);
      }
      var b := Resolve(lib, palette, slots[bi.value].attr);
      if b.Raise? {
        return Raise(b.exc);
      }
      return Ok(b.value);
    }

    /** The colour of one slot: match the parsed colour name, parse the
        target's hex into a new colour, and apply the slot's edits to it. */
    static method Resolve(lib: Library, palette: Palette, attr: ThemeColor) returns (r: Result<Color>)
      modifies attr
      ensures attr.edits == old(attr.edits)
      ensures r.Ok? <==> SlotColor(lib, palette.cls, palette.tree.points, attr.color, attr.edits).Ok?
      ensures r.Ok? ==> fresh(r.value) && r.value.Value() == SlotColor(lib, palette.cls, palette.tree.points, attr.color, attr.edits).value
      ensures r.Raise? ==> r.exc == SlotColor(lib, palette.cls, palette.tree.points, attr.color, attr.edits).exc
      ensures attr.ansiReset == (old(attr.ansiReset) || (r.Ok? && Edit.Reset in attr.edits))
    {
      var q := FromWeb(lib, attr.color);
      if q.Raise? {
        return Raise(q.exc);
      }
      var query := new Color(q.value);
      var m := palette.Match(lib, query, false);
      if m.Raise? {
        return Raise(m.exc);
      }
      var t := FromWeb(lib, lib.hexL(m.value.target));
      if t.Raise? {
        return Raise(t.exc);
      }
      var c := new Color(t.value);
      var _ := attr.Apply(c);
      return Ok(c);
    }
  }

  // ---------------------------------------------------------------------------
  // The two themes autopalette ships

  function S(name: string, color: string, edits: seq<Edit>): SlotValue
  {
    SlotValue(name, color, edits, false)
  }

  /** BasicTheme's slots as declared, before any theme has been built. */
  const BasicThemeSlots: seq<SlotValue> := [
    S("base", "white", [Reset]),
    S("light", "silver", []),
    S("dark", "purple", [Assign(Luminance, 0.2)]),
    S("h1", "black", []),
    S("_h1", "yellow", []),
    S("h2", "white", []),
    S("_h2", "blue", []),
    S("h3", "black", []),
    S("_h3", "green", [Assign(Luminance, 0.8)]),
    S("h4", "white", [Assign(Luminance, 1.0)]),
    S("_h4", "purple", [Assign(Luminance, 0.2)]),
    S("error", "white", []),
    S("_error", "red", []),
    S("warning", "red", []),
    S("info", "lightblue", [Assign(Luminance, 0.5), Assign(Saturation, 0.7)]),
    S("ok", "green", [])
  ]

  /** FourColorTheme's slots as declared. */
  const FourColorThemeSlots: seq<SlotValue> := [
    S("base", "black", [Assign(Luminance, 0.7)]),
    S("light", "black", [Assign(Luminance, 0.9)]),
    S("dark", "black", [Assign(Luminance, 0.4)]),
    S("h1", "white", []),
    S("_h1", "silver", [Assign(Luminance, 0.5)]),
    S("h2", "white", []),
    S("_h2", "gray", []),
    S("h3", "white", []),
    S("_h3", "black", []),
    S("h4", "white", []),
    S("_h4", "gray", []),
    S("error", "white", [Assign(Luminance, 0.5)]),
    S("_error", "black", [Assign(Luminance, 0.5), Assign(Saturation, 0.5)]),
    S("warning", "gray", []),
    S("_warning", "black", [Assign(Luminance, 0.5), Assign(Saturation, 0.5)]),
    S("info", "gray", [Assign(Luminance, 0.5), Assign(Saturation, 0.7)]),
    S("ok", "white", [Assign(Luminance, 0.5), Assign(Saturation, 0.7)])
  ]

  /** BasicTheme gives every background slot its foreground. */
  lemma BasicThemeHasNoOrphans()
    ensures NoOrphans(BasicThemeSlots)
  {
    assert PairedFrom(BasicThemeSlots, 15);
    assert PairedFrom(BasicThemeSlots, 14);
    assert PairedFrom(BasicThemeSlots, 13);
    assert PairedFrom(BasicThemeSlots, 12);
    assert PairedFrom(BasicThemeSlots, 11);
    assert PairedFrom(BasicThemeSlots, 10);
    assert PairedFrom(BasicThemeSlots, 9);
    assert PairedFrom(BasicThemeSlots, 8);
    assert PairedFrom(BasicThemeSlots, 7);
    assert PairedFrom(BasicThemeSlots, 6);
    assert PairedFrom(BasicThemeSlots, 5);
    assert PairedFrom(BasicThemeSlots, 4);
    assert PairedFrom(BasicThemeSlots, 3);
    assert PairedFrom(BasicThemeSlots, 2);
    assert PairedFrom(BasicThemeSlots, 1);
    assert PairedFrom(BasicThemeSlots, 0);
    PairedHasNoOrphans(BasicThemeSlots, 0);
  }

  /** FourColorTheme gives every background slot its foreground. */
  lemma FourColorThemeHasNoOrphans()
    ensures NoOrphans(FourColorThemeSlots)
  {
    assert PairedFrom(FourColorThemeSlots, 16);
    assert PairedFrom(FourColorThemeSlots, 15);
    assert PairedFrom(FourColorThemeSlots, 14);
    assert PairedFrom(FourColorThemeSlots, 13);
    assert PairedFrom(FourColorThemeSlots, 12);
    assert PairedFrom(FourColorThemeSlots, 11);
    assert PairedFrom(FourColorThemeSlots, 10);
    assert PairedFrom(FourColorThemeSlots, 9);
    assert PairedFrom(FourColorThemeSlots, 8);
    assert PairedFrom(FourColorThemeSlots, 7);
    assert PairedFrom(FourColorThemeSlots, 6);
    assert PairedFrom(FourColorThemeSlots, 5);
    assert PairedFrom(FourColorThemeSlots, 4);
    assert PairedFrom(FourColorThemeSlots, 3);
    assert PairedFrom(FourColorThemeSlots, 2);
    assert PairedFrom(FourColorThemeSlots, 1);
    assert PairedFrom(FourColorThemeSlots, 0);
    PairedHasNoOrphans(FourColorThemeSlots, 0);
  }

  /** In BasicTheme, `base` carries a reset, `h1` has a background slot,
      `warning` has none, and `dark` ends with luminance 0.2; SlotStyleFacts
      and SlotStyle turn these into the styles' flag, backgrounds and colour. */
  lemma BasicThemeData()
    ensures BasicThemeSlots[0].name == "base" && Edit.Reset in BasicThemeSlots[0].edits
    ensures BasicThemeSlots[3].name == "h1" && "_" + BasicThemeSlots[3].name in Names(BasicThemeSlots)
    ensures BasicThemeSlots[13].name == "warning" && "_" + BasicThemeSlots[13].name !in Names(BasicThemeSlots)
    ensures BasicThemeSlots[2].name == "dark" && BasicThemeSlots[2].edits == [Assign(Luminance, 0.2)]
  {
    assert "_" + BasicThemeSlots[3].name == Names(BasicThemeSlots)[4];
  }
}
