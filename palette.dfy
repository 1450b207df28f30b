/** palette.py: palettes, which send any colour to one of a fixed set of
    target colours with their ansi codes.

    `Ansi256Palette` computes its answer with colortrans; every other palette
    is an `AutoPalette` whose catalog (colour name -> (target, ansi code)) is
    turned into a nearest-colour index at construction. Several subclasses
    rewrite the query colour before the lookup, in place, on the caller's
    colour.Color object. */
module Palettes {
  import opened Failures
  import opened Colour
  import opened Utils
  import opened Colormatch

  /** The palette classes of palette.py. */
  datatype PaletteClass =
    | Ansi256Palette
    | AutoPalette
    | Ansi8Palette
    | Ansi16Palette
    | Gray4Palette
    | Oil6Palette
    | GameBoyChocolatePalette
    | GameBoyGreenPalette
    | ColorsCCPalette
    | BasicPalette
    | DutronPalette

  /** A catalog value: the `(target, ansi)` tuple of the class catalogs, or a
      record `{'source': Color, 'target': Color, 'ansi': code}`. */
  datatype Payload = Pair(targetArg: ColorArg, ansi: AnsiCode) | Record(source: Hsl, target: Hsl, ansi: AnsiCode)

  /** The `colors` argument of AutoPalette.__init__: None or another falsy
      value, a dict (its items in order), or a truthy value that is not a dict. */
  datatype CatalogArg = NoCatalog | Dict(items: seq<(string, Payload)>) | NotDict

  /** An ordered dict from source hex to its index entry, as colors_from_dict
      builds it. */
  type ColorTable = seq<(string, ColorPoint)>

  // ---------------------------------------------------------------------------
  // The class-level catalogs

  function Entry(name: string, target: string, code: int): (string, Payload)
  {
    (name, Pair(Text(target), Code(code)))
  }

  /** The class attribute `colors` of each palette class, in definition order;
      AutoPalette has none (getattr falls back to {}), Ansi256Palette is not
      built from a catalog. */
  function ClassColors(cls: PaletteClass): seq<(string, Payload)>
  {
    match cls
    case Ansi256Palette => []
    case AutoPalette => []
    case Ansi8Palette => Ansi8Catalog
    case Ansi16Palette => Ansi16Catalog
    case Gray4Palette => Gray4Catalog
    case Oil6Palette => Oil6Catalog
    case GameBoyChocolatePalette => GameBoyChocolateCatalog
    case GameBoyGreenPalette => GameBoyGreenCatalog
    case ColorsCCPalette => ColorsCCCatalog
    case BasicPalette => BasicCatalog
    case DutronPalette => DutronCatalog
  }

  /** The catalogs of palette.py, as `name: (target, ansi)` items. */
  const Ansi8Catalog: seq<(string, Payload)> :=
    [Entry("black", "#000000", 0), Entry("red", "#ff0000", 1), Entry("lime", "#00ff00", 2),
     Entry("yellow", "#ffff00", 3), Entry("blue", "#0000ff", 4), Entry("magenta", "#ff00ff", 5),
     Entry("cyan", "#00ffff", 6), Entry("white", "#ffffff", 7)]
  const Ansi16Catalog: seq<(string, Payload)> :=
    [Entry("black", "black", 0), Entry("darkred", "darkred", 1), Entry("green", "darkgreen", 2),
     Entry("orange", "orange", 3), Entry("darkblue", "darkblue", 4), Entry("darkmagenta", "darkmagenta", 5),
     Entry("darkcyan", "darkcyan", 6), Entry("silver", "silver", 7), Entry("gray", "gray", 8),
     Entry("red", "red", 9), Entry("lime", "green", 10), Entry("yellow", "yellow", 11),
     Entry("blue", "blue", 12), Entry("magenta", "magenta", 13), Entry("cyan", "cyan", 14),
     Entry("white", "white", 15)]
  const Gray4Catalog: seq<(string, Payload)> :=
    [Entry("black", "#000000", 0), Entry("silver", "#676767", 8), Entry("blue", "#b6b6b6", 7),
     Entry("yellow", "#b6b6b6", 0), Entry("white", "#fafafa", 15)]
  const Oil6Catalog: seq<(string, Payload)> :=
    [Entry("white", "#fbf5ef", 91), Entry("silver", "#f2d3ab", 11), Entry("lightgray", "#c69fa5", 139),
     Entry("gray", "#8b6d9c", 5), Entry("darkgray", "#494d7e", 98), Entry("black", "#272744", 0)]
  const GameBoyChocolateCatalog: seq<(string, Payload)> :=
    [Entry("white", "#ffe4c2", 15), Entry("silver", "#dca456", 3), Entry("gray", "#a9604c", 1),
     Entry("black", "#422936", 0)]
  const GameBoyGreenCatalog: seq<(string, Payload)> :=
    [Entry("white", "green", 10), Entry("yellow", "#9bbc0f", 15), Entry("green", "#8bac0f", 10),
     Entry("gray", "#306230", 2), Entry("black", "#0f380f", 0)]
  const ColorsCCCatalog: seq<(string, Payload)> :=
    [Entry("navy", "#001f3f", 4), Entry("blue", "#0074D9", 12), Entry("aqua", "#7FDBFF", 14),
     Entry("teal", "#39CCCC", 6), Entry("olive", "#3D9970", 3), Entry("green", "#2ECC40", 2),
     Entry("lime", "#01FF70", 10), Entry("yellow", "#FFDC00", 11), Entry("orange", "#FF851B", 3),
     Entry("red", "#FF4136", 9), Entry("maroon", "#85144b", 1), Entry("fuchsia", "#F012BE", 13),
     Entry("purple", "#B10DC9", 5), Entry("black", "#111111", 0), Entry("gray", "#AAAAAA", 8),
     Entry("silver", "#DDDDDD", 7), Entry("white", "#FFFFFF", 15)]
  const BasicCatalog: seq<(string, Payload)> :=
    [Entry("black", "#000000", 0), Entry("silver", "#eaebbc", 7), Entry("gray", "#286c80", 8),
     Entry("purple", "#8339a0", 5), Entry("blue", "#0059c8", 4), Entry("lightblue", "#2f9ffa", 12),
     Entry("magenta", "#ea75f9", 13), Entry("red", "#ed452f", 9), Entry("orange", "#ec835b", 3),
     Entry("yellow", "#f3e945", 11), Entry("lime", "#9df381", 10), Entry("green", "#47AA49", 2),
     Entry("white", "#ffffff", 15)]
  const DutronCatalog: seq<(string, Payload)> :=
    [Entry("black", "#000000", 0), Entry("silver", "#94945d", 7), Entry("gray", "#595d82", 8),
     Entry("purple", "#415ac4", 4), Entry("blue", "#7e8ff8", 4), Entry("lightblue", "#8384fb", 12),
     Entry("magenta", "#a2adf4", 12), Entry("red", "#585539", 3), Entry("orange", "#a7a24f", 3),
     Entry("yellow", "#f2e745", 11), Entry("lime", "#e4dd88", 11), Entry("green", "#82844B", 3),
     Entry("white", "#ffffff", 15)]

  // ---------------------------------------------------------------------------
  // dict.update on an ordered dict

  /** The position of key k, or -1 when the dict has no such key. */
  function KeyIndex<V>(d: seq<(string, V)>, k: string): (i: int)
    ensures -1 <= i < |d|
    ensures i >= 0 ==> d[i].0 == k && forall j :: 0 <= j < i ==> d[j].0 != k
    ensures i < 0 ==> forall j :: 0 <= j < |d| ==> d[j].0 != k
  {
    if d == [] then -1
    else if d[|d| - 1].0 == k && KeyIndex(d[..|d| - 1], k) < 0 then |d| - 1
    else KeyIndex(d[..|d| - 1], k)
  }

  /** dict.get(k) */
  function Lookup<V>(d: seq<(string, V)>, k: string): Option<V>
  {
    var i := KeyIndex(d, k);
    if i < 0 then None else Some(d[i].1)
  }

  predicate UniqueKeys<V>(d: seq<(string, V)>)
  {
    forall i, j :: 0 <= i < j < |d| ==> d[i].0 != d[j].0
  }

  /** d.update({k: v}): an existing key keeps its position and takes the new
      value; a new key goes last. */
  function DictUpdate<V>(d: seq<(string, V)>, k: string, v: V): (r: seq<(string, V)>)
    ensures Lookup(r, k) == Some(v)
    ensures forall k' :: k' != k ==> Lookup(r, k') == Lookup(d, k')
    ensures |r| == if Lookup(d, k).Some? then |d| else |d| + 1
    ensures UniqueKeys(d) ==> UniqueKeys(r)
  {
    var i := KeyIndex(d, k);
    if i < 0 then
      var r := d + [(k, v)];
      assert r[..|d|] == d;
      r
    else
      var r := d[i := (k, v)];
      forall k' | k' != k
        ensures KeyIndex(r, k') == KeyIndex(d, k')
      {
        KeyIndexSameKeys(d, r, k');
      }
      KeyIndexSameKeys(d, r, k);
      r
  }

  lemma {:induction false} KeyIndexSameKeys<V>(d: seq<(string, V)>, e: seq<(string, V)>, k: string)
    requires |d| == |e| && forall j :: 0 <= j < |d| ==> d[j].0 == e[j].0
    ensures KeyIndex(d, k) == KeyIndex(e, k)
  {
    if d != [] {
      KeyIndexSameKeys(d[..|d| - 1], e[..|e| - 1], k);
    }
  }

  /** d.update({k: v}) keeps every earlier key at its position, and a new
      key goes last, with its value. */
  lemma UpdateKeepsPositions<V>(d: seq<(string, V)>, k: string, v: V)
    ensures |d| <= |DictUpdate(d, k, v)|
    ensures forall j :: 0 <= j < |d| ==> DictUpdate(d, k, v)[j].0 == d[j].0
    ensures Lookup(d, k).None? ==> DictUpdate(d, k, v)[|d|] == (k, v)
  {
  }

  // ---------------------------------------------------------------------------
  // colors_from_dict

  /** One item of colors_from_dict: the source hex and the index entry.
      For a tuple, `'source' in payload` compares the tuple's elements with
      'source'; when one of them is that string the record branch indexes the
      tuple with a str, a TypeError. Otherwise source = parse_color(name),
      target = parse_color(payload[0]), ansi = payload[1]. A record keeps its
      own colours (see RecordItemAsWritten for what the code stores). */
  function ItemOf(lib: Library, name: string, payload: Payload): (r: Result<(string, ColorPoint)>)
    ensures r.Ok? && payload.Pair? ==>
      ParseColor(lib, Text(name)).Ok? && ParseColor(lib, payload.targetArg).Ok? &&
      r.value == (lib.hexL(ParseColor(lib, Text(name)).value),
                  ColorPoint(ParseColor(lib, Text(name)).value, ParseColor(lib, payload.targetArg).value, payload.ansi))
    ensures payload.Pair? && (payload.targetArg == Text("source") || payload.ansi == Markup("source")) ==>
      r == Raise(TypeError)
    ensures r.Ok? && payload.Record? ==>
      r.value == (lib.hexL(payload.source), ColorPoint(payload.source, payload.target, payload.ansi))
  {
    match payload
    case Pair(target, ansi) =>
      if target == Text("source") || ansi == Markup("source") then Raise(TypeError)
      else
        var source :- ParseColor(lib, Text(name));
        var t :- ParseColor(lib, target);
        Ok((lib.hexL(source), ColorPoint(source, t, ansi)))
    case Record(source, target, ansi) =>
      Ok((lib.hexL(source), ColorPoint(source, target, ansi)))
  }

  function Items(lib: Library, items: seq<(string, Payload)>): (es: seq<Result<(string, ColorPoint)>>)
    ensures |es| == |items| && forall i :: 0 <= i < |items| ==> es[i] == ItemOf(lib, items[i].0, items[i].1)
  {
    seq(|items|, i requires 0 <= i < |items| => ItemOf(lib, items[i].0, items[i].1))
  }

  /** The loop of colors_from_dict over computed items: the first failure
      ends it, each item updates the table. */
  function Gather(es: seq<Result<(string, ColorPoint)>>): Result<ColorTable>
  {
    if es == [] then Ok([])
    else
      var m :- Gather(es[..|es| - 1]);
      var e :- es[|es| - 1];
      Ok(DictUpdate(m, e.0, e.1))
  }

  /** colors_from_dict(colors) */
  function ColorsOf(lib: Library, items: seq<(string, Payload)>): Result<ColorTable>
  {
    Gather(Items(lib, items))
  }

  /** The values of the table, in order: what __init__ adds to the index. */
  function Values(t: ColorTable): (ps: seq<ColorPoint>)
    ensures |ps| == |t| && forall i :: 0 <= i < |t| ==> ps[i] == t[i].1
  {
    seq(|t|, i requires 0 <= i < |t| => t[i].1)
  }

  lemma {:induction false} GatherFailurePersists(es: seq<Result<(string, ColorPoint)>>, n: int)
    requires 0 <= n <= |es| && Gather(es[..n]).Raise?
    ensures Gather(es) == Gather(es[..n])
    decreases |es| - n
  {
    if n < |es| {
      assert es[..n + 1][..n] == es[..n];
      GatherFailurePersists(es, n + 1);
    } else {
      assert es[..n] == es;
    }
  }

  /** The table succeeds exactly when every item does; when it fails, the
      exception is that of the first failing item. */
  lemma {:induction false} GatherOkIff(es: seq<Result<(string, ColorPoint)>>)
    ensures Gather(es).Ok? <==> forall i :: 0 <= i < |es| ==> es[i].Ok?
    ensures Gather(es).Raise? ==>
      exists i :: 0 <= i < |es| && es[i].Raise? && es[i].exc == Gather(es).exc &&
        forall j :: 0 <= j < i ==> es[j].Ok?
  {
    if es != [] {
      var init := es[..|es| - 1];
      GatherOkIff(init);
      OksOfLast(es, init);
      if Gather(init).Raise? {
        var i :| 0 <= i < |init| && init[i].Raise? && init[i].exc == Gather(init).exc &&
          forall j :: 0 <= j < i ==> init[j].Ok?;
        OksBefore(es, init, i);
      } else if es[|es| - 1].Raise? {
        OksBefore(es, init, |init|);
        assert es[|es| - 1].exc == Gather(es).exc;
      }
    }
  }

  /** Every item is good exactly when all but the last are and the last is. */
  lemma OksOfLast(es: seq<Result<(string, ColorPoint)>>, init: seq<Result<(string, ColorPoint)>>)
    requires es != [] && init == es[..|es| - 1]
    ensures (forall i :: 0 <= i < |es| ==> es[i].Ok?) <==>
      (forall i :: 0 <= i < |init| ==> init[i].Ok?) && es[|es| - 1].Ok?
  {
    if forall i :: 0 <= i < |init| ==> init[i].Ok? {
      forall i | 0 <= i < |init|
        ensures es[i].Ok?
      {
        assert es[i] == init[i];
      }
    }
  }

  /** The items before position n agree with those of the prefix. */
  lemma OksBefore(es: seq<Result<(string, ColorPoint)>>, init: seq<Result<(string, ColorPoint)>>, n: int)
    requires es != [] && init == es[..|es| - 1] && 0 <= n <= |init|
    requires forall j :: 0 <= j < n ==> init[j].Ok?
    ensures n < |init| ==> es[n] == init[n]
    ensures forall j :: 0 <= j < n ==> es[j].Ok?
  {
    forall j | 0 <= j < n
      ensures es[j].Ok?
    {
      assert es[j] == init[j];
    }
  }

  /** Exactly one entry per distinct source hex. */
  lemma {:induction false} GatherUniqueKeys(es: seq<Result<(string, ColorPoint)>>)
    requires Gather(es).Ok?
    ensures UniqueKeys(Gather(es).value)
  {
    if es != [] {
      GatherUniqueKeys(es[..|es| - 1]);
    }
  }

  /** A source hex is in the table exactly when some item has it. */
  lemma {:induction false} GatherKeys(es: seq<Result<(string, ColorPoint)>>, k: string)
    requires forall i :: 0 <= i < |es| ==> es[i].Ok?
    ensures Gather(es).Ok?
    ensures Lookup(Gather(es).value, k).Some? <==> exists i :: 0 <= i < |es| && es[i].value.0 == k
  {
    if es != [] {
      var init := es[..|es| - 1];
      GatherKeys(init, k);
      var e := es[|es| - 1].value;
      var d := Gather(init).value;
      assert Gather(es) == Ok(DictUpdate(d, e.0, e.1));
      KeysOfLast(es, init, k);
      if e.0 != k {
        assert Lookup(Gather(es).value, k) == Lookup(d, k);
      }
    }
  }

  /** A key is among a list of items exactly when it is among all but the
      last, or is the last item's key. */
  lemma KeysOfLast(es: seq<Result<(string, ColorPoint)>>, init: seq<Result<(string, ColorPoint)>>, k: string)
    requires es != [] && init == es[..|es| - 1] && forall i :: 0 <= i < |es| ==> es[i].Ok?
    ensures (exists i :: 0 <= i < |es| && es[i].value.0 == k) <==>
      (exists i :: 0 <= i < |init| && init[i].value.0 == k) || es[|es| - 1].value.0 == k
  {
    if i :| 0 <= i < |es| && es[i].value.0 == k {
      if i < |init| {
        assert init[i] == es[i];
      }
    }
    if i :| 0 <= i < |init| && init[i].value.0 == k {
      assert es[i] == init[i];
    }
  }

  /** The last item with a given source hex gives its entry: a later name with
      the same hex overwrites an earlier one. */
  lemma {:induction false} GatherLastWins(es: seq<Result<(string, ColorPoint)>>, i: int)
    requires forall j :: 0 <= j < |es| ==> es[j].Ok?
    requires 0 <= i < |es| && forall j :: i < j < |es| ==> es[j].value.0 != es[i].value.0
    ensures Gather(es).Ok? && Lookup(Gather(es).value, es[i].value.0) == Some(es[i].value.1)
  {
    GatherOkIff(es);
    var init := es[..|es| - 1];
    assert forall j :: 0 <= j < |init| ==> init[j] == es[j];
    GatherOkIff(init);
    if i < |es| - 1 {
      GatherLastWins(init, i);
    }
  }

  /** The values of items that all succeed. */
  function Successes(es: seq<Result<(string, ColorPoint)>>): (t: ColorTable)
    requires forall i :: 0 <= i < |es| ==> es[i].Ok?
    ensures |t| == |es| && forall i :: 0 <= i < |es| ==> t[i] == es[i].value
  {
    seq(|es|, i requires 0 <= i < |es| => es[i].value)
  }

  /** When every item succeeds with a different hex, the table holds the items
      in catalog order. */
  lemma {:induction false} GatherDistinct(es: seq<Result<(string, ColorPoint)>>)
    requires forall i :: 0 <= i < |es| ==> es[i].Ok?
    requires forall i, j :: 0 <= i < j < |es| ==> es[i].value.0 != es[j].value.0
    ensures Gather(es) == Ok(Successes(es))
  {
    if es != [] {
      var init := es[..|es| - 1];
      assert forall i :: 0 <= i < |init| ==> init[i] == es[i];
      GatherDistinct(init);
      var t := Successes(init);
      var e := es[|es| - 1].value;
      assert forall j :: 0 <= j < |t| ==> t[j].0 != e.0;
      assert Gather(es) == Ok(DictUpdate(t, e.0, e.1));
      UpdateNewKey(t, e.0, e.1);
      SuccessesSnoc(es);
    }
  }

  lemma SuccessesSnoc(es: seq<Result<(string, ColorPoint)>>)
    requires es != [] && forall i :: 0 <= i < |es| ==> es[i].Ok?
    ensures Successes(es) == Successes(es[..|es| - 1]) + [es[|es| - 1].value]
  {
    var s, t := Successes(es), Successes(es[..|es| - 1]) + [es[|es| - 1].value];
    assert forall i :: 0 <= i < |s| ==> s[i] == t[i];
  }

  /** Updating with a key the dict does not have appends the item. */
  lemma UpdateNewKey<V>(d: seq<(string, V)>, k: string, v: V)
    requires forall j :: 0 <= j < |d| ==> d[j].0 != k
    ensures DictUpdate(d, k, v) == d + [(k, v)]
  {
    assert KeyIndex(d, k) < 0;
  }

  /** The catalog __init__ ends up with: a truthy non-dict is a ValueError; a
      falsy argument (None or an empty dict) falls back to the class catalog. */
  function CatalogOf(lib: Library, cls: PaletteClass, arg: CatalogArg): (r: Result<ColorTable>)
    ensures arg.NotDict? ==> r == Raise(ValueError)
    ensures arg.NoCatalog? || arg == Dict([]) ==> r == ColorsOf(lib, ClassColors(cls))
    ensures arg.Dict? && arg.items != [] ==> r == ColorsOf(lib, arg.items)
  {
    match arg
    case NotDict => Raise(ValueError)
    case NoCatalog => ColorsOf(lib, ClassColors(cls))
    case Dict(items) => if items == [] then ColorsOf(lib, ClassColors(cls)) else ColorsOf(lib, items)
  }

  // ---------------------------------------------------------------------------
  // Matching

  /** The in-place rewrite each palette's match performs before the lookup. */
  function QueryTransform(cls: PaletteClass, ansi: bool, q: Hsl): Hsl
  {
    match cls
    case Gray4Palette => if ansi then q.(saturation := 0.3) else q
    case Oil6Palette =>
      var q1 := q.(luminance := MapInterval(0.0, 1.0, 0.3, 0.9, q.luminance));
      q1.(saturation := MapInterval(0.0, 1.0, 0.2, 0.9, q1.saturation))
    case GameBoyChocolatePalette => q.(luminance := MapInterval(0.0, 1.0, 0.2, 0.9, q.luminance))
    case GameBoyGreenPalette => q.(luminance := MapInterval(0.0, 1.0, 0.3, 0.85, q.luminance))
    case BasicPalette => q.(luminance := MapInterval(0.0, 1.0, 0.2, 1.0, q.luminance))
    case _ => q
  }

  /** Ansi256Palette.match: the xterm-256 code colortrans picks for the colour's
      hex, with the colour of that code as target and the query as source. */
  function Ansi256Point(lib: Library, c: Hsl): (r: Result<ColorPoint>)
    ensures r.Ok? ==> r.value.source == c && r.value.ansi == Code(lib.rgb2short(lib.hexL(c)))
    ensures r.Ok? <==> lib.web("#" + lib.short2rgb(lib.rgb2short(lib.hexL(c)))).Ok?
  {
    var code := lib.rgb2short(lib.hexL(c));
    var target :- FromWeb(lib, "#" + lib.short2rgb(code));
    Ok(ColorPoint(c, target, Code(code)))
  }

  /** What `palette.match(color, ansi)` answers for a query with HSL value q,
      given the palette's class and index. */
  function PaletteMatch(lib: Library, cls: PaletteClass, points: seq<ColorPoint>, ansi: bool, q: Hsl): Result<ColorPoint>
  {
    if cls == Ansi256Palette then Ansi256Point(lib, q) else Nearest(points, QueryTransform(cls, ansi, q))
  }

  /** A palette object. */
  class Palette {
    const cls: PaletteClass
    /** self.tree (unused by Ansi256Palette, which has none) */
    const tree: ColorMatch
    /** self.colors after __init__: source hex -> entry */
    var colors: ColorTable

    /** Ansi256Palette() */
    constructor Ansi256()
      ensures cls == Ansi256Palette && fresh(tree) && tree.points == [] && colors == []
    {
      cls := Ansi256Palette;
      tree := new ColorMatch();
      colors := [];
    }

    constructor Empty(c: PaletteClass)
      ensures cls == c && fresh(tree) && tree.points == [] && colors == []
    {
      cls := c;
      tree := new ColorMatch();
      colors := [];
    }

    /** `cls(arg)` for a palette class: an AutoPalette builds its table with
        colors_from_dict and adds every entry to its index in table order;
        Ansi256Palette takes no argument (object() rejects one with TypeError). */
    static method Create(lib: Library, cls: PaletteClass, arg: CatalogArg) returns (r: Result<Palette>)
      ensures cls == Ansi256Palette && arg != NoCatalog ==> r == Raise(TypeError)
      ensures cls == Ansi256Palette && arg == NoCatalog ==> r.Ok? && r.value.cls == Ansi256Palette && r.value.tree.points == []
      ensures cls != Ansi256Palette ==> (r.Ok? <==> CatalogOf(lib, cls, arg).Ok?)
      ensures cls != Ansi256Palette && r.Raise? ==> r.exc == CatalogOf(lib, cls, arg).exc
      ensures cls != Ansi256Palette && r.Ok? ==>
        r.value.cls == cls && r.value.colors == CatalogOf(lib, cls, arg).value &&
        r.value.tree.points == Values(r.value.colors)
      ensures r.Ok? ==> fresh(r.value) && fresh(r.value.tree)
    {
      if cls == Ansi256Palette {
        if arg != NoCatalog {
          return Raise(TypeError);
        }
        var p := new Palette.Ansi256();
        return Ok(p);
      }
      var items: seq<(string, Payload)>;
      match arg {
        case NotDict => return Raise(ValueError);
        case NoCatalog => items := ClassColors(cls);
        case Dict(xs) => items := if xs == [] then ClassColors(cls) else xs;
      }
      var table := ColorsFromDict(lib, items);
      if table.Raise? {
        return Raise(table.exc);
      }
      var p := new Palette.Empty(cls);
      p.colors := table.value;
      p.AddAll(table.value);
      assert [] + Values(table.value) == Values(table.value);
      return Ok(p);
    }

    /** The loop of __init__ that adds each entry of the table to the index,
        in table order. */
    method AddAll(t: ColorTable)
      modifies tree
      ensures tree.points == old(tree.points) + Values(t)
    {
      ghost var start := tree.points;
      for i := 0 to |t|
        invariant tree.points == start + Values(t[..i])
      {
        var source := new Color(t[i].1.source);
        var target := new Color(t[i].1.target);
        AddColor(source, target, t[i].1.ansi);
        assert Values(t[..i + 1]) == Values(t[..i]) + [t[i].1];
      }
      assert t[..|t|] == t;
    }

    /** colors_from_dict */
    static method ColorsFromDict(lib: Library, items: seq<(string, Payload)>) returns (r: Result<ColorTable>)
      ensures r == ColorsOf(lib, items)
    {
      ghost var es := Items(lib, items);
      var table: ColorTable := [];
      for n := 0 to |items|
        invariant Gather(es[..n]) == Ok(table)
      {
        assert es[..n + 1][..n] == es[..n];
        var e := ItemOf(lib, items[n].0, items[n].1);
        if e.Raise? {
          GatherFailurePersists(es, n + 1);
          return Raise(e.exc);
        }
        table := DictUpdate(table, e.value.0, e.value.1);
      }
      assert es[..|items|] == es;
      return Ok(table);
    }

    /** add_color */
    method AddColor(source: Color, target: Color, ansi: AnsiCode)
      modifies tree
      ensures tree.points == old(tree.points) + [ColorPoint(source.Value(), target.Value(), ansi)]
    {
      tree.Add(source, target, ansi);
    }

    /** match(color, ansi): the subclass rewrite of the caller's colour, then
        the lookup on the rewritten value. */
    method Match(lib: Library, color: Color, ansi: bool) returns (r: Result<ColorPoint>)
      modifies color
      ensures color.Value() == QueryTransform(cls, ansi, old(color.Value()))
      ensures r == PaletteMatch(lib, cls, tree.points, ansi, old(color.Value()))
    {
      match cls {
        case Ansi256Palette =>
          return Ansi256Point(lib, color.Value());
        case Gray4Palette =>
          if ansi {
            color.SetSaturation(0.3);
          }
        case Oil6Palette =>
          color.SetLuminance(MapInterval(0.0, 1.0, 0.3, 0.9, color.luminance));
          color.SetSaturation(MapInterval(0.0, 1.0, 0.2, 0.9, color.saturation));
        case GameBoyChocolatePalette =>
          color.SetLuminance(MapInterval(0.0, 1.0, 0.2, 0.9, color.luminance));
        case GameBoyGreenPalette =>
          color.SetLuminance(MapInterval(0.0, 1.0, 0.3, 0.85, color.luminance));
        case BasicPalette =>
          color.SetLuminance(MapInterval(0.0, 1.0, 0.2, 1.0, color.luminance));
        case _ =>
      }
      r := tree.Match(color);
    }
  }

  // ---------------------------------------------------------------------------
  // Properties of matching

  predicate InUnitCube(q: Hsl)
  {
    0.0 <= q.hue <= 1.0 && 0.0 <= q.saturation <= 1.0 && 0.0 <= q.luminance <= 1.0
  }

  /** The rewrites: Oil6 maps luminance into [0.3, 0.9] and saturation into
      [0.2, 0.9]; GameBoyChocolate, GameBoyGreen and Basic map luminance into
      [0.2, 0.9], [0.3, 0.85] and [0.2, 1]; Gray4 sets saturation 0.3 only for
      an ansi query; nothing else is touched, and the other palettes leave the
      query alone. */
  lemma QueryTransformRanges(cls: PaletteClass, ansi: bool, q: Hsl)
    requires InUnitCube(q)
    ensures var t := QueryTransform(cls, ansi, q);
      t.hue == q.hue &&
      (cls == Oil6Palette ==> 0.3 <= t.luminance <= 0.9 && 0.2 <= t.saturation <= 0.9) &&
      (cls == GameBoyChocolatePalette ==> 0.2 <= t.luminance <= 0.9 && t.saturation == q.saturation) &&
      (cls == GameBoyGreenPalette ==> 0.3 <= t.luminance <= 0.85 && t.saturation == q.saturation) &&
      (cls == BasicPalette ==> 0.2 <= t.luminance <= 1.0 && t.saturation == q.saturation) &&
      (cls == Gray4Palette ==> t == (if ansi then q.(saturation := 0.3) else q)) &&
      (cls !in {Oil6Palette, GameBoyChocolatePalette, GameBoyGreenPalette, BasicPalette, Gray4Palette} ==> t == q)
  {
    MapIntervalWithin(0.0, 1.0, 0.3, 0.9, q.luminance);
    MapIntervalWithin(0.0, 1.0, 0.2, 0.9, q.saturation);
    MapIntervalWithin(0.0, 1.0, 0.2, 0.9, q.luminance);
    MapIntervalWithin(0.0, 1.0, 0.3, 0.85, q.luminance);
    MapIntervalWithin(0.0, 1.0, 0.2, 1.0, q.luminance);
  }

  /** The rewrite keeps the order of luminances: a lighter query stays at least
      as light after it. */
  lemma QueryTransformMonotone(cls: PaletteClass, ansi: bool, a: Hsl, b: Hsl)
    requires a.luminance <= b.luminance
    ensures QueryTransform(cls, ansi, a).luminance <= QueryTransform(cls, ansi, b).luminance
  {
    MapIntervalMonotone(0.0, 1.0, 0.3, 0.9, a.luminance, b.luminance);
    MapIntervalMonotone(0.0, 1.0, 0.2, 0.9, a.luminance, b.luminance);
    MapIntervalMonotone(0.0, 1.0, 0.3, 0.85, a.luminance, b.luminance);
    MapIntervalMonotone(0.0, 1.0, 0.2, 1.0, a.luminance, b.luminance);
  }

  /** Entry i of the table is at minimal distance from q. */
  predicate NearestEntry(t: ColorTable, i: int, q: Hsl)
    requires 0 <= i < |t|
  {
    forall j :: 0 <= j < |t| ==> Dist2(t[i].1.source, q) <= Dist2(t[j].1.source, q)
  }

  /** An AutoPalette answers one of its own entries, unchanged, at minimal
      distance from the rewritten query; an empty one raises KeyError. */
  lemma PaletteMatchIsEntry(lib: Library, cls: PaletteClass, t: ColorTable, ansi: bool, q: Hsl)
    requires cls != Ansi256Palette
    ensures var r := PaletteMatch(lib, cls, Values(t), ansi, q);
      (r.Raise? <==> t == []) && (r.Raise? ==> r.exc == KeyError) &&
      (r.Ok? ==> exists i :: 0 <= i < |t| && r.value == t[i].1 && NearestEntry(t, i, QueryTransform(cls, ansi, q)))
  {
    var r := PaletteMatch(lib, cls, Values(t), ansi, q);
    if r.Ok? {
      var ps := Values(t);
      NearestIsNearest(ps, QueryTransform(cls, ansi, q));
      var i :| 0 <= i < |ps| && ps[i] == r.value;
      assert r.value == t[i].1;
      forall j | 0 <= j < |t|
        ensures Dist2(t[i].1.source, QueryTransform(cls, ansi, q)) <= Dist2(t[j].1.source, QueryTransform(cls, ansi, q))
      {
        assert ps[j] in ps;
      }
    } else {
      assert Values(t) == [] ==> t == [];
    }
  }

  // ---------------------------------------------------------------------------
  // palette_map

  /** palette_map, entry by entry in the order the module lists them. */
  const PaletteMap: seq<(string, PaletteClass)> := [
    ("-1", BasicPalette),
    ("0", Ansi8Palette),
    ("8", Ansi8Palette),
    ("16", Ansi16Palette),
    ("88", Ansi256Palette),
    ("256", Ansi256Palette),
    ("ansi", Ansi256Palette),
    ("rgb", Ansi256Palette),
    ("truecolor", Ansi256Palette),
    ("vt100", Ansi8Palette),
    ("vt200", Ansi8Palette),
    ("vt220", Ansi8Palette),
    ("rxvt", Ansi8Palette),
    ("rxvt-88color", Ansi256Palette),
    ("xterm", Ansi8Palette),
    ("xterm-color", Ansi16Palette),
    ("xterm-256color", Ansi256Palette),
    ("dutron", DutronPalette),
    ("gameboychocolate", GameBoyChocolatePalette),
    ("gameboygreen", GameBoyGreenPalette),
    ("gray4", Gray4Palette),
    ("oil6", Oil6Palette),
    ("basic", BasicPalette)
  ]

  /** A dict finds, for a key, the value of the first entry listed with
      that key. */
  lemma LookupFirst<V>(d: seq<(string, V)>, k: string, j: int)
    requires 0 <= j < |d| && d[j].0 == k
    requires forall i :: 0 <= i < j ==> d[i].0 != k
    ensures Lookup(d, k) == Some(d[j].1)
  {
    var i := KeyIndex(d, k);
    assert i == j;
  }

  /** palette_map[name]: the class listed under the name, KeyError for a
      name it does not list. */
  function PaletteLookup(name: string): (r: Result<PaletteClass>)
    ensures r.Ok? <==> exists i :: 0 <= i < |PaletteMap| && PaletteMap[i].0 == name
    ensures r.Ok? ==> exists i :: 0 <= i < |PaletteMap| && PaletteMap[i] == (name, r.value)
    ensures r.Raise? ==> r.exc == KeyError
  {
    match Lookup(PaletteMap, name)
    case Some(c) => Ok(c)
    case None => Raise(KeyError)
  }

  /** The no-colour hint and the 8-colour names give Ansi8Palette, '16'
      gives Ansi16Palette and '-1' gives BasicPalette ... */
  lemma PaletteMapNumbers()
    ensures PaletteLookup("0") == Ok(Ansi8Palette) && PaletteLookup("8") == Ok(Ansi8Palette)
    ensures PaletteLookup("16") == Ok(Ansi16Palette) && PaletteLookup("-1") == Ok(BasicPalette)
  {
    LookupFirst(PaletteMap, "-1", 0);
    LookupFirst(PaletteMap, "0", 1);
    LookupFirst(PaletteMap, "8", 2);
    LookupFirst(PaletteMap, "16", 3);
  }

  /** ... and so do the names of the plain vt100 and xterm terminals. */
  lemma PaletteMapTerminals()
    ensures PaletteLookup("vt100") == Ok(Ansi8Palette) && PaletteLookup("xterm") == Ok(Ansi8Palette)
  {
    LookupFirst(PaletteMap, "vt100", 9);
    LookupFirst(PaletteMap, "xterm", 14);
  }

  /** Neither the plain AutoPalette nor ColorsCCPalette can be named. */
  lemma PaletteMapCodomain(name: string)
    requires PaletteLookup(name).Ok?
    ensures PaletteLookup(name).value !in {AutoPalette, ColorsCCPalette}
  {
    assert forall i :: 0 <= i < |PaletteMap| ==> PaletteMap[i].1 != AutoPalette && PaletteMap[i].1 != ColorsCCPalette;
  }

  // ---------------------------------------------------------------------------
  // Record payloads

  /** What a table entry holds as its target. */
  datatype StoredTarget = TargetColor(color: Hsl) | TargetText(text: string)

  /** The record branch of colors_from_dict as written: the entry's target is
      `payload['target'].hex_l`, a str, where the tuple branch stores a Color. */
  function RecordItemAsWritten(lib: Library, source: Hsl, target: Hsl, ansi: AnsiCode): (r: (string, Hsl, StoredTarget, AnsiCode))
    ensures r.0 == lib.hexL(source) && r.1 == source && r.3 == ansi
    ensures r.2.TargetText?
  {
    (lib.hexL(source), source, TargetText(lib.hexL(target)), ansi)
  }

  /** `entry.target.hex_l`, as Theme.__init__ reads it (and `.rgb`, as the
      truecolor renderer does, fails the same way): a str has no such
      attribute. */
  function TargetHexL(lib: Library, t: StoredTarget): (r: Result<string>)
    ensures t.TargetColor? <==> r.Ok?
    ensures r.Raise? ==> r.exc == AttributeError
  {
    match t
    case TargetColor(c) => Ok(lib.hexL(c))
    case TargetText(_) => Raise(AttributeError)
  }

  /** As written, every entry that comes from a record has a str target, so the
      first theme slot or truecolor render that matches it raises
      AttributeError; the corrected record branch keeps the Color and the
      same read succeeds. */
  lemma RecordTargetIsNotAColor(lib: Library, name: string, source: Hsl, target: Hsl, ansi: AnsiCode)
    ensures TargetHexL(lib, RecordItemAsWritten(lib, source, target, ansi).2) == Raise(AttributeError)
    ensures ItemOf(lib, name, Record(source, target, ansi)).Ok?
    ensures TargetHexL(lib, TargetColor(ItemOf(lib, name, Record(source, target, ansi)).value.1.target)) == Ok(lib.hexL(target))
  {
  }

  /** A table whose keys are the hex of their entries' sources, without
      repeats: what colors_from_dict produces. */
  predicate WellKeyed(lib: Library, t: ColorTable)
  {
    UniqueKeys(t) && forall i :: 0 <= i < |t| ==> t[i].0 == lib.hexL(t[i].1.source)
  }

  /** A table written back as record payloads, keyed as before. */
  function AsRecords(t: ColorTable): (items: seq<(string, Payload)>)
    ensures |items| == |t|
    ensures forall i :: 0 <= i < |t| ==> items[i] == (t[i].0, Record(t[i].1.source, t[i].1.target, t[i].1.ansi))
  {
    seq(|t|, i requires 0 <= i < |t| => (t[i].0, Record(t[i].1.source, t[i].1.target, t[i].1.ansi)))
  }

  /** Every table colors_from_dict produces is well keyed. */
  lemma {:induction false} GatherWellKeyed(lib: Library, items: seq<(string, Payload)>)
    requires ColorsOf(lib, items).Ok?
    ensures WellKeyed(lib, ColorsOf(lib, items).value)
  {
    var es := Items(lib, items);
    GatherUniqueKeys(es);
    GatherOkIff(es);
    GatherKeysFromItems(es);
    var t := Gather(es).value;
    forall i | 0 <= i < |t|
      ensures t[i].0 == lib.hexL(t[i].1.source)
    {
      assert t[i] in t;
      var k :| 0 <= k < |es| && es[k] == Ok(t[i]);
      assert es[k] == ItemOf(lib, items[k].0, items[k].1);
    }
  }

  /** Every entry of a gathered table is one of the items. */
  lemma {:induction false} GatherKeysFromItems(es: seq<Result<(string, ColorPoint)>>)
    requires Gather(es).Ok?
    ensures forall x :: x in Gather(es).value ==> exists k :: 0 <= k < |es| && es[k] == Ok(x)
  {
    if es != [] {
      var init := es[..|es| - 1];
      GatherKeysFromItems(init);
      var m := Gather(init).value;
      var e := es[|es| - 1].value;
      forall x | x in Gather(es).value
        ensures exists k :: 0 <= k < |es| && es[k] == Ok(x)
      {
        if x == e {
          assert es[|es| - 1] == Ok(x);
        } else {
          assert x in m by {
            var i :| 0 <= i < |Gather(es).value| && Gather(es).value[i] == x;
            var d := DictUpdate(m, e.0, e.1);
            if KeyIndex(m, e.0) < 0 {
              assert d == m + [e];
              assert i < |m|;
              assert m[i] == x;
            } else {
              assert d == m[KeyIndex(m, e.0) := e];
              assert m[i] == x;
            }
          }
          var k :| 0 <= k < |init| && init[k] == Ok(x);
          assert es[k] == init[k];
        }
      }
    }
  }

  /** With the corrected record branch, a palette's own table fed back as
      records rebuilds the same table. */
  lemma RecordsRebuildTable(lib: Library, t: ColorTable)
    requires WellKeyed(lib, t)
    ensures ColorsOf(lib, AsRecords(t)) == Ok(t)
  {
    var es := Items(lib, AsRecords(t));
    assert forall i :: 0 <= i < |t| ==> es[i] == Ok(t[i]);
    GatherDistinct(es);
    assert Successes(es) == t;
  }

  // ---------------------------------------------------------------------------
  // Scenarios on the class catalogs

  /** What the scenarios need of the colour package: it accepts every
      '#rrggbb' code. */
  ghost predicate AcceptsHexCodes(lib: Library)
  {
    forall s :: IsHexCode(s) ==> lib.web(s).Ok?
  }

  const LowerHexDigits: set<char> := HexCharacters - {'#'}

  /** A lower-case '#rrggbb' literal is passed to colour.Color as it is. */
  lemma HexLiteralParses(lib: Library, s: string)
    requires AcceptsHexCodes(lib)
    requires |s| == 7 && s[0] == '#' && forall i :: 1 <= i < 7 ==> s[i] in LowerHexDigits
    ensures WebSpelling(lib, s) == s && ParseColor(lib, Text(s)) == Ok(lib.web(s).value)
  {
    assert Lower(s) == s;
    assert IsHexCode(s);
  }

  /** A CSS name that cannot be mistaken for hex is passed as it is. */
  lemma NameParses(lib: Library, s: string, c: Hsl)
    requires s in lib.names && lib.web(s) == Ok(c)
    requires (|s| != 7 || s[0] != '#') && (|s| != 6 || s[0] !in HexCharacters)
    ensures ParseColor(lib, Text(s)) == Ok(c)
  {
    if |s| == 6 {
      assert !AllIn(s, HexCharacters);
    }
  }

  /** A catalog of tuples whose names and targets all parse, with distinct
      source hexes, gives one entry per item in catalog order. */
  lemma PairCatalogTable(lib: Library, items: seq<(string, Payload)>, sources: seq<Hsl>)
    requires |sources| == |items|
    requires forall i :: 0 <= i < |items| ==>
      items[i].1.Pair? && items[i].1.targetArg != Text("source") && items[i].1.ansi.Code?
    requires forall i :: 0 <= i < |items| ==>
      ParseColor(lib, Text(items[i].0)) == Ok(sources[i]) && ParseColor(lib, items[i].1.targetArg).Ok?
    requires forall i, j :: 0 <= i < j < |items| ==> lib.hexL(sources[i]) != lib.hexL(sources[j])
    ensures ColorsOf(lib, items).Ok?
    ensures var t := ColorsOf(lib, items).value;
      |t| == |items| &&
      forall i :: 0 <= i < |items| ==>
        t[i].1 == ColorPoint(sources[i], ParseColor(lib, items[i].1.targetArg).value, items[i].1.ansi)
    ensures Sources(Values(ColorsOf(lib, items).value)) == sources
  {
    var es := Items(lib, items);
    GatherDistinct(es);
  }

  const Ansi8Sources: seq<Hsl> := [
    Hsl(0.0, 0.0, 0.0), Hsl(0.0, 1.0, 0.5), Hsl(1.0 / 3.0, 1.0, 0.5), Hsl(1.0 / 6.0, 1.0, 0.5),
    Hsl(2.0 / 3.0, 1.0, 0.5), Hsl(5.0 / 6.0, 1.0, 0.5), Hsl(0.5, 1.0, 0.5), Hsl(0.0, 0.0, 1.0)]

  /** The colour package's values for the names of a catalog, and distinct
      hexes for them. */
  predicate NamesAre(lib: Library, items: seq<(string, Payload)>, sources: seq<Hsl>)
  {
    |sources| == |items| &&
    (forall i :: 0 <= i < |items| ==> items[i].0 in lib.names && lib.web(items[i].0) == Ok(sources[i])) &&
    (forall i, j :: 0 <= i < j < |items| ==> lib.hexL(sources[i]) != lib.hexL(sources[j]))
  }

  /** Every name and target of the Ansi8Palette catalog parses. */
  lemma Ansi8ItemsPlain()
    ensures PlainFrom(ClassColors(Ansi8Palette), 0)
  {
    var items := Ansi8Catalog;
    assert PlainFrom(items, 8);
    assert PlainFrom(items, 7);
    assert PlainFrom(items, 6);
    assert PlainFrom(items, 5);
    assert PlainFrom(items, 4);
    assert PlainFrom(items, 3);
    assert PlainFrom(items, 2);
    assert PlainFrom(items, 1);
  }

  /** Ansi8Palette matching '#ff0000' (pure red) answers its second entry ... */
  lemma Ansi8MatchesRed(lib: Library, ansi: bool)
    requires AcceptsHexCodes(lib)
    requires NamesAre(lib, ClassColors(Ansi8Palette), Ansi8Sources)
    ensures CatalogOf(lib, Ansi8Palette, NoCatalog).Ok?
    ensures var ps := Values(CatalogOf(lib, Ansi8Palette, NoCatalog).value);
      |ps| == 8 && PaletteMatch(lib, Ansi8Palette, ps, ansi, Hsl(0.0, 1.0, 0.5)) == Ok(ps[1])
  {
    Ansi8ItemsPlain();
    PlainCatalogTable(lib, ClassColors(Ansi8Palette), Ansi8Sources);
    Ansi8PointsMatchRed(lib, Values(ColorsOf(lib, ClassColors(Ansi8Palette)).value), ansi);
  }

  /** ... which is the 'red' entry: pure red itself, ansi code 1. */
  lemma Ansi8RedEntry(lib: Library)
    requires AcceptsHexCodes(lib)
    requires NamesAre(lib, ClassColors(Ansi8Palette), Ansi8Sources)
    ensures CatalogOf(lib, Ansi8Palette, NoCatalog).Ok?
    ensures var ps := Values(CatalogOf(lib, Ansi8Palette, NoCatalog).value);
      |ps| == 8 && ps[1].source == Hsl(0.0, 1.0, 0.5) && ps[1].ansi == Code(1)
  {
    Ansi8ItemsPlain();
    PlainCatalogTable(lib, ClassColors(Ansi8Palette), Ansi8Sources);
  }

  lemma Ansi8PointsMatchRed(lib: Library, ps: seq<ColorPoint>, ansi: bool)
    requires Sources(ps) == Ansi8Sources
    ensures PaletteMatch(lib, Ansi8Palette, ps, ansi, Hsl(0.0, 1.0, 0.5)) == Ok(ps[1])
  {
    var q := Hsl(0.0, 1.0, 0.5);
    Ansi8NearestToRed(q);
    assert QueryTransform(Ansi8Palette, ansi, q) == q;
    MatchAt(lib, Ansi8Palette, ps, ansi, q, 1);
  }

  /** The palette's answer, from the position the nearest-colour scan finds. */
  lemma MatchAt(lib: Library, cls: PaletteClass, ps: seq<ColorPoint>, ansi: bool, q: Hsl, j: int)
    requires cls != Ansi256Palette && ps != []
    requires NearestSource(Sources(ps), QueryTransform(cls, ansi, q)) == j
    ensures 0 <= j < |ps| && PaletteMatch(lib, cls, ps, ansi, q) == Ok(ps[j])
  {
  }

  /** Of the Ansi8Palette sources, 'red' is nearest to pure red: it is pure
      red, and 'black' before it is at distance 5/4. (The query is a
      parameter so that the scan is not evaluated on literals.) */
  lemma Ansi8NearestToRed(q: Hsl)
    requires q == Hsl(0.0, 1.0, 0.5)
    ensures NearestSource(Ansi8Sources, q) == 1
  {
    assert Dist2(Ansi8Sources[0], q) == 5.0 / 4.0;
    ExactMatchIsNearest(Ansi8Sources, q, 1);
  }

  /** Every source from position k on is at least as far from q as source j,
      and strictly farther when it comes before j. */
  predicate FartherFrom(s: seq<Hsl>, q: Hsl, j: nat, k: nat)
    requires j < |s|
    decreases |s| - k
  {
    k >= |s| ||
    ((if k < j then Dist2(s[j], q) < Dist2(s[k], q) else Dist2(s[j], q) <= Dist2(s[k], q)) &&
     FartherFrom(s, q, j, k + 1))
  }

  lemma {:induction false} FartherFromAll(s: seq<Hsl>, q: Hsl, j: nat, k: nat)
    requires j < |s| && FartherFrom(s, q, j, k)
    ensures forall i :: k <= i < |s| ==> Dist2(s[j], q) <= Dist2(s[i], q)
    ensures forall i :: k <= i < j ==> Dist2(s[j], q) < Dist2(s[i], q)
    decreases |s| - k
  {
    if k < |s| {
      FartherFromAll(s, q, j, k + 1);
    }
  }

  /** The nearest colour, from the sources' distances checked one by one. */
  lemma NearestAt(s: seq<Hsl>, q: Hsl, j: nat)
    requires j < |s| && FartherFrom(s, q, j, 0)
    ensures NearestSource(s, q) == j
  {
    FartherFromAll(s, q, j, 0);
    NearestIsFirstMinimum(s, q, j);
  }

  /** A catalog item whose name cannot be read as hex and whose target is a
      lower-case '#rrggbb' literal. */
  predicate PlainItem(item: (string, Payload))
  {
    (|item.0| != 7 || item.0[0] != '#') && (|item.0| != 6 || item.0[0] !in HexCharacters) &&
    item.1.Pair? && item.1.targetArg.Text? && item.1.ansi.Code? &&
    var t := item.1.targetArg.s;
    |t| == 7 && t[0] == '#' && forall j :: 1 <= j < 7 ==> t[j] in LowerHexDigits
  }

  /** Every item from position k on is plain. */
  predicate PlainFrom(items: seq<(string, Payload)>, k: nat)
    decreases |items| - k
  {
    k >= |items| || (PlainItem(items[k]) && PlainFrom(items, k + 1))
  }

  lemma {:induction false} PlainFromAll(items: seq<(string, Payload)>, k: nat)
    requires PlainFrom(items, k)
    ensures forall i :: k <= i < |items| ==> PlainItem(items[i])
    decreases |items| - k
  {
    if k < |items| {
      PlainFromAll(items, k + 1);
    }
  }

  /** A catalog of plain items whose names the colour package knows, with
      distinct hexes, gives one entry per item in catalog order. */
  lemma PlainCatalogTable(lib: Library, items: seq<(string, Payload)>, sources: seq<Hsl>)
    requires AcceptsHexCodes(lib) && NamesAre(lib, items, sources) && PlainFrom(items, 0)
    ensures ColorsOf(lib, items).Ok?
    ensures var t := ColorsOf(lib, items).value;
      |t| == |items| &&
      forall i :: 0 <= i < |items| ==> t[i].1.source == sources[i] && t[i].1.ansi == items[i].1.ansi
    ensures Sources(Values(ColorsOf(lib, items).value)) == sources
  {
    PlainFromAll(items, 0);
    forall i | 0 <= i < |items|
      ensures ParseColor(lib, Text(items[i].0)) == Ok(sources[i]) && ParseColor(lib, items[i].1.targetArg).Ok?
    {
      NameParses(lib, items[i].0, sources[i]);
      HexLiteralParses(lib, items[i].1.targetArg.s);
    }
    PairCatalogTable(lib, items, sources);
  }

  const Oil6Sources: seq<Hsl> := [
    Hsl(0.0, 0.0, 1.0), Hsl(0.0, 0.0, 192.0 / 255.0), Hsl(0.0, 0.0, 211.0 / 255.0),
    Hsl(0.0, 0.0, 128.0 / 255.0), Hsl(0.0, 0.0, 169.0 / 255.0), Hsl(0.0, 0.0, 0.0)]

  lemma Oil6ItemsPlain()
    ensures PlainFrom(ClassColors(Oil6Palette), 0)
  {
    var items := Oil6Catalog;
    assert PlainFrom(items, 6);
    assert PlainFrom(items, 5);
    assert PlainFrom(items, 4);
    assert PlainFrom(items, 3);
    assert PlainFrom(items, 2);
    assert PlainFrom(items, 1);
  }

  /** Because Oil6Palette rewrites the caller's colour, matching the same
      colour object twice gives different answers: a grey of luminance 0.4
      first matches the fourth entry, and the rewritten colour then matches
      the fifth ... */
  lemma Oil6RepeatedMatchDrifts(lib: Library, ansi: bool)
    requires AcceptsHexCodes(lib)
    requires NamesAre(lib, ClassColors(Oil6Palette), Oil6Sources)
    ensures CatalogOf(lib, Oil6Palette, NoCatalog).Ok?
    ensures var ps := Values(CatalogOf(lib, Oil6Palette, NoCatalog).value);
      var q := Hsl(0.0, 0.0, 0.4);
      |ps| == 6 &&
      PaletteMatch(lib, Oil6Palette, ps, ansi, q) == Ok(ps[3]) &&
      PaletteMatch(lib, Oil6Palette, ps, ansi, QueryTransform(Oil6Palette, ansi, q)) == Ok(ps[4])
  {
    Oil6ItemsPlain();
    PlainCatalogTable(lib, ClassColors(Oil6Palette), Oil6Sources);
    Oil6PointsDrift(lib, Values(ColorsOf(lib, ClassColors(Oil6Palette)).value), ansi);
  }

  /** ... and those entries are 'gray' (ansi 5) and 'darkgray' (ansi 98). */
  lemma Oil6DriftEntries(lib: Library)
    requires AcceptsHexCodes(lib)
    requires NamesAre(lib, ClassColors(Oil6Palette), Oil6Sources)
    ensures CatalogOf(lib, Oil6Palette, NoCatalog).Ok?
    ensures var t := CatalogOf(lib, Oil6Palette, NoCatalog).value;
      |t| == 6 && Values(t)[3].ansi == Code(5) && Values(t)[4].ansi == Code(98)
  {
    Oil6ItemsPlain();
    PlainCatalogTable(lib, ClassColors(Oil6Palette), Oil6Sources);
  }

  lemma Oil6PointsDrift(lib: Library, ps: seq<ColorPoint>, ansi: bool)
    requires Sources(ps) == Oil6Sources
    ensures PaletteMatch(lib, Oil6Palette, ps, ansi, Hsl(0.0, 0.0, 0.4)) == Ok(ps[3])
    ensures PaletteMatch(lib, Oil6Palette, ps, ansi, QueryTransform(Oil6Palette, ansi, Hsl(0.0, 0.0, 0.4))) == Ok(ps[4])
  {
    var q1 := QueryTransform(Oil6Palette, ansi, Hsl(0.0, 0.0, 0.4));
    Oil6Rewrites(ansi);
    Oil6NearestDrifts();
    MatchAt(lib, Oil6Palette, ps, ansi, Hsl(0.0, 0.0, 0.4), 3);
    MatchAt(lib, Oil6Palette, ps, ansi, q1, 4);
  }

  /** The grey of luminance 0.4 rewritten once and twice. */
  lemma Oil6Rewrites(ansi: bool)
    ensures QueryTransform(Oil6Palette, ansi, Hsl(0.0, 0.0, 0.4)) == Hsl(0.0, 0.2, 0.54)
    ensures QueryTransform(Oil6Palette, ansi, Hsl(0.0, 0.2, 0.54)) == Hsl(0.0, 0.34, 0.624)
  {
  }

  /** Of the Oil6Palette sources, 'gray' is nearest to the once-rewritten
      grey and 'darkgray' to the twice-rewritten one. */
  lemma Oil6NearestDrifts()
    ensures NearestSource(Oil6Sources, Hsl(0.0, 0.2, 0.54)) == 3
    ensures NearestSource(Oil6Sources, Hsl(0.0, 0.34, 0.624)) == 4
  {
    Oil6NearestOnce();
    Oil6NearestTwice();
  }

  /** The distances from the once-rewritten grey are 629/2500,
      61661/722500, 797389/6502500, 269509/6502500, 358069/6502500 and
      829/2500. */
  lemma Oil6NearestOnce()
    ensures NearestSource(Oil6Sources, Hsl(0.0, 0.2, 0.54)) == 3
  {
    var s, q := Oil6Sources, Hsl(0.0, 0.2, 0.54);
    assert FartherFrom(s, q, 3, 6);
    assert FartherFrom(s, q, 3, 5);
    assert FartherFrom(s, q, 3, 4);
    assert FartherFrom(s, q, 3, 3);
    assert FartherFrom(s, q, 3, 2);
    assert FartherFrom(s, q, 3, 1);
    assert FartherFrom(s, q, 3, 0);
    NearestAt(s, q, 3);
  }

  /** The distances from the twice-rewritten grey are 16061/62500,
      2388329/18062500, 25521061/162562500, 21213361/162562500,
      19036261/162562500 and 31561/62500. */
  lemma Oil6NearestTwice()
    ensures NearestSource(Oil6Sources, Hsl(0.0, 0.34, 0.624)) == 4
  {
    var s, q := Oil6Sources, Hsl(0.0, 0.34, 0.624);
    assert FartherFrom(s, q, 4, 6);
    assert FartherFrom(s, q, 4, 5);
    assert FartherFrom(s, q, 4, 4);
    assert FartherFrom(s, q, 4, 3);
    assert FartherFrom(s, q, 4, 2);
    assert FartherFrom(s, q, 4, 1);
    assert FartherFrom(s, q, 4, 0);
    NearestAt(s, q, 4);
  }
}
