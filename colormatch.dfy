/** colormatch.py: the nearest-colour index.

    The Python code stores `ColorPoint`s in a three-dimensional kd-tree keyed
    by the source colour's HSL triple and asks it for the nearest neighbour.
    The model keeps the points in insertion order and defines the nearest
    point by a scan in that order, so among points at the same distance the
    first one inserted wins. */
module Colormatch {
  import opened Failures
  import opened Colour

  /** AnsiCodeType: a markup string, an int, or an (r, g, b) triple.
      `NoCode` stands for Python's None, which the renderers test for. */
  datatype AnsiCode = Code(n: int) | Markup(s: string) | Rgb255(rgb: seq<int>) | NoCode

  /** A ColorPoint maps a source colour to a target colour and its ansi code.
      The Python object holds references to two colour.Color objects; the model
      holds their HSL values at the time the point is built. */
  datatype ColorPoint = ColorPoint(source: Hsl, target: Hsl, ansi: AnsiCode)
  {
    /** ColorPoint.__len__ */
    function Len(): (n: int)
      ensures n == 3
    {
      3
    }

    /** ColorPoint.__getitem__: `self.source.hsl[item]`, with Python's negative
        indices; `None` stands for the IndexError of an index out of range. */
    function Item(i: int): (r: Option<real>)
      ensures r.Some? <==> -Len() <= i < Len()
      ensures i == 0 || i == -3 ==> r == Some(source.hue)
      ensures i == 1 || i == -2 ==> r == Some(source.saturation)
      ensures i == 2 || i == -1 ==> r == Some(source.luminance)
    {
      var j := if i < 0 then i + 3 else i;
      if j == 0 then Some(source.hue)
      else if j == 1 then Some(source.saturation)
      else if j == 2 then Some(source.luminance)
      else None
    }
  }

  function Square(x: real): real
  {
    x * x
  }

  /** The kd-tree's distance: the squared Euclidean distance between HSL
      triples, hue taken as a plain coordinate (0.95 and 0.05 are 0.9 apart). */
  function Dist2(a: Hsl, b: Hsl): real
  {
    Square(a.hue - b.hue) + Square(a.saturation - b.saturation) + Square(a.luminance - b.luminance)
  }

  /** The source colours of the points, in order. */
  function Sources(points: seq<ColorPoint>): (s: seq<Hsl>)
    ensures |s| == |points| && forall i :: 0 <= i < |points| ==> s[i] == points[i].source
  {
    seq(|points|, i requires 0 <= i < |points| => points[i].source)
  }

  /** The position of the colour nearest to q, found by a scan in order that
      moves on only to a strictly nearer colour. */
  function NearestSource(s: seq<Hsl>, q: Hsl): (k: nat)
    requires s != []
    ensures k < |s|
  {
    if |s| == 1 then 0
    else
      var k := NearestSource(s[..|s| - 1], q);
      if Dist2(s[|s| - 1], q) < Dist2(s[k], q) then |s| - 1 else k
  }

  /** No colour is nearer to q than the one the scan finds, and every colour
      before it is strictly farther. */
  lemma {:induction false} NearestSourceIsNearest(s: seq<Hsl>, q: Hsl)
    requires s != []
    ensures forall j :: 0 <= j < |s| ==> Dist2(s[NearestSource(s, q)], q) <= Dist2(s[j], q)
    ensures forall j :: 0 <= j < NearestSource(s, q) ==> Dist2(s[NearestSource(s, q)], q) < Dist2(s[j], q)
  {
    if |s| > 1 {
      var init := s[..|s| - 1];
      NearestSourceIsNearest(init, q);
      assert forall j :: 0 <= j < |init| ==> init[j] == s[j];
    }
  }

  /** The nearest colour is unique up to ties: a colour at minimal distance
      with every earlier colour strictly farther is the one the scan finds. */
  lemma NearestIsFirstMinimum(s: seq<Hsl>, q: Hsl, j: int)
    requires 0 <= j < |s|
    requires forall i :: 0 <= i < |s| ==> Dist2(s[j], q) <= Dist2(s[i], q)
    requires forall i :: 0 <= i < j ==> Dist2(s[j], q) < Dist2(s[i], q)
    ensures NearestSource(s, q) == j
  {
    NearestSourceIsNearest(s, q);
    var k := NearestSource(s, q);
    assert k == j;
  }

  /** Distances are never negative. */
  lemma Dist2NonNegative(a: Hsl, b: Hsl)
    ensures Dist2(a, b) >= 0.0
  {
    SquareNonNegative(a.hue - b.hue);
    SquareNonNegative(a.saturation - b.saturation);
    SquareNonNegative(a.luminance - b.luminance);
  }

  lemma SquareNonNegative(x: real)
    ensures Square(x) >= 0.0
  {
  }

  /** A query equal to a source, with every earlier source at a positive
      distance, is answered with that source. */
  lemma ExactMatchIsNearest(s: seq<Hsl>, q: Hsl, j: int)
    requires 0 <= j < |s| && s[j] == q
    requires forall i :: 0 <= i < j ==> Dist2(s[i], q) > 0.0
    ensures NearestSource(s, q) == j
  {
    assert Dist2(s[j], q) == 0.0;
    forall i | 0 <= i < |s|
      ensures Dist2(s[j], q) <= Dist2(s[i], q)
    {
      Dist2NonNegative(s[i], q);
    }
    NearestIsFirstMinimum(s, q, j);
  }

  /** What a nearest-neighbour search of the index answers: KeyError when the
      index is empty, otherwise one of its points at minimal distance. */
  function Nearest(points: seq<ColorPoint>, q: Hsl): (r: Result<ColorPoint>)
    ensures r.Raise? <==> points == []
    ensures r.Raise? ==> r.exc == KeyError
    ensures r.Ok? ==> r.value in points
  {
    if points == [] then Raise(KeyError)
    else Ok(points[NearestSource(Sources(points), q)])
  }

  /** No point of the index is nearer to the query than the one answered. */
  lemma NearestIsNearest(points: seq<ColorPoint>, q: Hsl)
    requires points != []
    ensures forall p :: p in points ==> Dist2(Nearest(points, q).value.source, q) <= Dist2(p.source, q)
  {
    NearestSourceIsNearest(Sources(points), q);
  }

  /** ColorMatch: the index. */
  class ColorMatch {
    /** The points added so far, in insertion order. */
    var points: seq<ColorPoint>

    /** ColorMatch.__init__: an empty index. */
    constructor ()
      ensures points == []
    {
      points := [];
    }

    /** ColorMatch.add: one new point, built from the values passed in, after
        all the earlier ones. */
    method Add(source: Color, target: Color, ansi: AnsiCode)
      modifies this
      ensures points == old(points) + [ColorPoint(source.Value(), target.Value(), ansi)]
    {
      points := points + [ColorPoint(source.Value(), target.Value(), ansi)];
    }

    /** ColorMatch.match: the nearest point to the colour's HSL triple, or
        KeyError when nothing was added. The index is not changed. */
    method Match(color: Color) returns (r: Result<ColorPoint>)
      ensures r == Nearest(points, color.Value())
      ensures r.Raise? <==> points == []
      ensures r.Ok? ==> r.value in points
    {
      r := Nearest(points, color.Value());
    }
  }

  /** The doctest of ColorMatch.match: with red and blue in the index, yellow
      is nearest to red. */
  lemma MatchRedBlueYellow(white: Hsl, ansi: AnsiCode)
    ensures
      var red := Hsl(0.0, 1.0, 0.5);
      var blue := Hsl(2.0 / 3.0, 1.0, 0.5);
      var yellow := Hsl(1.0 / 6.0, 1.0, 0.5);
      Nearest([ColorPoint(red, white, ansi), ColorPoint(blue, white, ansi)], yellow)
        == Ok(ColorPoint(red, white, ansi))
  {
    var red := Hsl(0.0, 1.0, 0.5);
    var blue := Hsl(2.0 / 3.0, 1.0, 0.5);
    var yellow := Hsl(1.0 / 6.0, 1.0, 0.5);
    var points := [ColorPoint(red, white, ansi), ColorPoint(blue, white, ansi)];
    var s := Sources(points);
    assert s == [red, blue];
    RedNearerThanBlue(red, blue, yellow);
    assert s[..1] == [red];
    assert NearestSource(s, yellow) == 0;
  }

  /** Measured from yellow, red is at 1/36 and blue at 1/4. */
  lemma RedNearerThanBlue(red: Hsl, blue: Hsl, yellow: Hsl)
    requires red == Hsl(0.0, 1.0, 0.5) && blue == Hsl(2.0 / 3.0, 1.0, 0.5) && yellow == Hsl(1.0 / 6.0, 1.0, 0.5)
    ensures Dist2(red, yellow) < Dist2(blue, yellow)
  {
    assert Dist2(red, yellow) == Square(-1.0 / 6.0);
    assert Dist2(blue, yellow) == Square(1.0 / 2.0);
  }
}
