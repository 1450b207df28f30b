/** utils.py: interval mapping, channel conversions, colour-string parsing and
    the config-file line parser. The terminal probe and the file and
    environment access are not part of this model; `select_palette` and
    `select_render_engine` are in module Selection. */
module Utils {
  import opened Failures
  import opened Colour

  // ---------------------------------------------------------------------------
  // map_interval

  /** map_interval: the affine map that sends [fromStart, fromEnd] onto
      [toStart, toEnd]. Python raises ZeroDivisionError on an empty source
      interval; every caller passes constant, distinct endpoints. */
  function MapInterval(fromStart: real, fromEnd: real, toStart: real, toEnd: real, value: real): real
    requires fromEnd != fromStart
  {
    (value - fromStart) * (toEnd - toStart) / (fromEnd - fromStart) + toStart
  }

  /** The map sends each end of the source interval to the matching end of the
      target interval, and halfway through [0, 1] into [0, 255] is 127.5. */
  lemma MapIntervalEnds(fromStart: real, fromEnd: real, toStart: real, toEnd: real)
    requires fromEnd != fromStart
    ensures MapInterval(fromStart, fromEnd, toStart, toEnd, fromStart) == toStart
    ensures MapInterval(fromStart, fromEnd, toStart, toEnd, fromEnd) == toEnd
    ensures MapInterval(0.0, 1.0, 0.0, 255.0, 0.5) == 127.5
  {
    var d := fromEnd - fromStart;
    calc {
      MapInterval(fromStart, fromEnd, toStart, toEnd, fromEnd);
      d * (toEnd - toStart) / d + toStart;
      { assert d * (toEnd - toStart) / d == toEnd - toStart; }
      toEnd;
    }
  }

  /** A value inside an increasing source interval lands inside the target
      interval. */
  lemma MapIntervalWithin(fromStart: real, fromEnd: real, toStart: real, toEnd: real, value: real)
    requires fromStart < fromEnd && toStart <= toEnd
    requires fromStart <= value <= fromEnd
    ensures toStart <= MapInterval(fromStart, fromEnd, toStart, toEnd, value) <= toEnd
  {
    var d, x := fromEnd - fromStart, value - fromStart;
    var t := x / d;
    assert t * d == x;
    assert 0.0 <= t <= 1.0;
    var w := toEnd - toStart;
    assert x * w / d == t * w;
    assert 0.0 <= t * w by {
      MulNonNegative(t, w);
    }
    assert t * w <= w by {
      MulNonNegative(1.0 - t, w);
      assert (1.0 - t) * w == w - t * w;
    }
    assert MapInterval(fromStart, fromEnd, toStart, toEnd, value) == t * w + toStart;
  }

  lemma MulNonNegative(a: real, b: real)
    requires 0.0 <= a && 0.0 <= b
    ensures 0.0 <= a * b
  {
  }

  /** The map preserves order when both intervals increase. */
  lemma {:induction false} MapIntervalMonotone(fromStart: real, fromEnd: real, toStart: real, toEnd: real, x: real, y: real)
    requires fromStart < fromEnd && toStart <= toEnd && x <= y
    ensures MapInterval(fromStart, fromEnd, toStart, toEnd, x) <= MapInterval(fromStart, fromEnd, toStart, toEnd, y)
  {
    var d, w := fromEnd - fromStart, toEnd - toStart;
    assert (x - fromStart) * w <= (y - fromStart) * w;
    assert (x - fromStart) * w / d <= (y - fromStart) * w / d;
  }

  // ---------------------------------------------------------------------------
  // rgb_to_RGB255 and RGB255_to_rgb

  /** Python's round() on a float: the nearest integer, ties to the even one. */
  function RoundHalfEven(x: real): (n: int)
    ensures n as real - x <= 0.5 && x - n as real <= 0.5
    ensures (n as real - x == 0.5 || x - n as real == 0.5) ==> n % 2 == 0
  {
    var f := x.Floor;
    var d := x - f as real;
    if d < 0.5 then f
    else if d > 0.5 then f + 1
    else if f % 2 == 0 then f
    else f + 1
  }

  lemma RoundIntegral(n: int)
    ensures RoundHalfEven(n as real) == n
  {
    assert (n as real).Floor == n;
  }

  /** rgb_to_RGB255: each channel independently, round(c * 255). */
  function RgbToRgb255(rgb: seq<real>): (r: seq<int>)
    ensures |r| == |rgb|
    ensures forall i :: 0 <= i < |rgb| ==>
              r[i] as real - rgb[i] * 255.0 <= 0.5 && rgb[i] * 255.0 - r[i] as real <= 0.5
    ensures forall i :: 0 <= i < |rgb| ==>
              ((r[i] as real - rgb[i] * 255.0 == 0.5 || rgb[i] * 255.0 - r[i] as real == 0.5) ==> r[i] % 2 == 0)
    ensures forall i :: 0 <= i < |rgb| && 0.0 <= rgb[i] <= 1.0 ==> 0 <= r[i] <= 255
  {
    seq(|rgb|, i requires 0 <= i < |rgb| => RoundHalfEven(MapInterval(0.0, 1.0, 0.0, 255.0, rgb[i])))
  }

  /** RGB255_to_rgb: each channel divided by 255. */
  function Rgb255ToRgb(rgb: seq<int>): (r: seq<real>)
    ensures |r| == |rgb|
    ensures forall i :: 0 <= i < |rgb| ==> r[i] * 255.0 == rgb[i] as real
    ensures forall i :: 0 <= i < |rgb| && 0 <= rgb[i] <= 255 ==> 0.0 <= r[i] <= 1.0
  {
    seq(|rgb|, i requires 0 <= i < |rgb| => MapInterval(0.0, 255.0, 0.0, 1.0, rgb[i] as real))
  }

  /** Converting integer channels to [0, 1] and back returns them unchanged. */
  lemma Rgb255RoundTrip(rgb: seq<int>)
    ensures RgbToRgb255(Rgb255ToRgb(rgb)) == rgb
  {
    var back := RgbToRgb255(Rgb255ToRgb(rgb));
    forall i | 0 <= i < |rgb|
      ensures back[i] == rgb[i]
    {
      var c := Rgb255ToRgb(rgb)[i];
      assert MapInterval(0.0, 1.0, 0.0, 255.0, c) == rgb[i] as real;
      RoundIntegral(rgb[i]);
    }
  }

  /** Converting [0, 1] channels to integers and back moves each channel by at
      most half a step of 1/255. */
  lemma RgbRoundTripError(rgb: seq<real>)
    ensures var back := Rgb255ToRgb(RgbToRgb255(rgb));
      |back| == |rgb| &&
      forall i :: 0 <= i < |rgb| ==> back[i] - rgb[i] <= 1.0 / 510.0 && rgb[i] - back[i] <= 1.0 / 510.0
  {
    var n := RgbToRgb255(rgb);
    var back := Rgb255ToRgb(n);
    forall i | 0 <= i < |rgb|
      ensures back[i] - rgb[i] <= 1.0 / 510.0 && rgb[i] - back[i] <= 1.0 / 510.0
    {
      assert back[i] * 255.0 == n[i] as real;
      assert (back[i] - rgb[i]) * 255.0 == n[i] as real - rgb[i] * 255.0;
    }
  }

  /** The examples of the doc strings: (1, 0.5, 0) gives (255, 128, 0) and
      (0, 128, 255) gives (0, 128/255, 1). */
  lemma RgbExamples()
    ensures RgbToRgb255([1.0, 0.5, 0.0]) == [255, 128, 0]
    ensures Rgb255ToRgb([0, 128, 255]) == [0.0, 128.0 / 255.0, 1.0]
  {
    assert (127.5).Floor == 127;
    RoundIntegral(255);
    RoundIntegral(0);
  }

  // ---------------------------------------------------------------------------
  // parse_color

  /** utils.hex_characters */
  const HexCharacters: set<char> :=
    {'#', '0', '1', '2', '3', '4', '5', '6', '7', '8', '9', 'a', 'b', 'c', 'd', 'e', 'f'}

  /** `not set(s) - cs`: every character of s is in cs. */
  predicate AllIn(s: string, cs: set<char>)
  {
    forall i :: 0 <= i < |s| ==> s[i] in cs
  }

  /** str.lower() on the ASCII letters. */
  function Lower(s: string): (r: string)
    ensures |r| == |s|
    ensures forall i :: 0 <= i < |s| ==> r[i] == LowerChar(s[i])
  {
    seq(|s|, i requires 0 <= i < |s| => LowerChar(s[i]))
  }

  function LowerChar(c: char): char
  {
    if 'A' <= c <= 'Z' then (c as int - 'A' as int + 'a' as int) as char else c
  }

  /** The argument of parse_color: a str, or some other Python value. */
  datatype ColorArg = Text(s: string) | NotText

  /** The string that parse_color hands to colour.Color: a 6-character string
      made of hex characters (or '#') gets '#' prepended (a case-sensitive
      test); a 7-character string starting with '#' whose lower-case form is
      made of hex characters is kept; a CSS name is kept; anything else is
      replaced by its ColorHash hex. */
  function WebSpelling(lib: Library, s: string): string
  {
    if |s| == 6 && AllIn(s, HexCharacters) then "#" + s
    else if |s| == 7 && s[0] == '#' && AllIn(Lower(s), HexCharacters) then s
    else if s in lib.names then s
    else lib.hashHex(s)
  }

  /** parse_color: a colour, or ValueError for a non-string argument or for a
      spelling that colour.Color rejects, whatever exception colour raised:
      the bare `except` re-raises every failure as ValueError. */
  function ParseColor(lib: Library, arg: ColorArg): (r: Result<Hsl>)
    ensures arg.NotText? ==> r == Raise(ValueError)
    ensures r.Raise? ==> r.exc == ValueError
    ensures arg.Text? ==> (r.Ok? <==> lib.web(WebSpelling(lib, arg.s)).Ok?)
    ensures arg.Text? && r.Ok? ==> r == lib.web(WebSpelling(lib, arg.s))
  {
    match arg
    case NotText => Raise(ValueError)
    case Text(s) =>
      match FromWeb(lib, WebSpelling(lib, s))
      case Ok(c) => Ok(c)
      case Raise(_) => Raise(ValueError)
  }

  /** A hex code written with or without its leading '#' parses to the same
      colour. */
  lemma ParseHexWithOrWithoutHash(lib: Library, s: string)
    requires |s| == 6 && forall i :: 0 <= i < 6 ==> s[i] in HexCharacters - {'#'}
    ensures WebSpelling(lib, s) == WebSpelling(lib, "#" + s) == "#" + s
    ensures ParseColor(lib, Text(s)) == ParseColor(lib, Text("#" + s))
  {
    var h := "#" + s;
    assert AllIn(s, HexCharacters);
    forall i | 0 <= i < 7
      ensures Lower(h)[i] in HexCharacters
    {
      if i > 0 { assert h[i] == s[i - 1]; }
    }
    assert !(|h| == 6);
  }

  /** The 6-character test is case-sensitive while the 7-character one is not:
      "ABCDEF" is not read as hex, "#ABCDEF" is. */
  lemma ParseHexCase(lib: Library)
    ensures WebSpelling(lib, "#ABCDEF") == "#ABCDEF"
    ensures WebSpelling(lib, "ABCDEF") == if "ABCDEF" in lib.names then "ABCDEF" else lib.hashHex("ABCDEF")
  {
    assert !AllIn("ABCDEF", HexCharacters) by { assert "ABCDEF"[0] !in HexCharacters; }
    var l := Lower("#ABCDEF");
    assert l == "#abcdef";
  }

  /** The long hex form colour.Color accepts: '#' and six hex digits, any
      case. */
  predicate IsHexCode(s: string)
  {
    |s| == 7 && s[0] == '#' && forall i :: 1 <= i < 7 ==> LowerChar(s[i]) in HexCharacters - {'#'}
  }

  /** The short hex form colour.Color also accepts: '#' and three hex
      digits, any case. */
  predicate IsShortHexCode(s: string)
  {
    |s| == 4 && s[0] == '#' && forall i :: 1 <= i < 4 ==> LowerChar(s[i]) in HexCharacters - {'#'}
  }

  /** A 6-character string of hex characters that contains a '#' passes the
      first test, gets a second '#' and then fails inside colour.Color, which
      surfaces as ValueError. colour.Color is only taken to accept names
      (in any case) and the two hex forms. */
  lemma ParseRejectsStrayHash(lib: Library, s: string, k: int)
    requires forall x :: lib.web(x).Ok? ==> Lower(x) in lib.names || IsHexCode(x) || IsShortHexCode(x)
    requires |s| == 6 && AllIn(s, HexCharacters) && 0 <= k < 6 && s[k] == '#'
    requires Lower("#" + s) !in lib.names
    ensures ParseColor(lib, Text(s)) == Raise(ValueError)
  {
    var h := "#" + s;
    assert h[k + 1] == '#';
    assert !IsHexCode(h);
  }

  // ---------------------------------------------------------------------------
  // read_config

  /** str.isspace() for the characters Python counts as whitespace. */
  predicate IsSpace(c: char)
  {
    c in {' ', '\t', '\n', '\r', '\U{b}', '\U{c}', '\U{1c}', '\U{1d}', '\U{1e}', '\U{1f}',
          '\U{85}', '\U{a0}', '\U{1680}', '\U{2028}', '\U{2029}', '\U{202f}', '\U{205f}', '\U{3000}'}
    || '\U{2000}' <= c <= '\U{200a}'
  }

  function TrimLeft(s: string): (r: string)
    ensures |r| <= |s| && r == s[|s| - |r|..]
    ensures r == [] || !IsSpace(r[0])
    ensures forall i :: 0 <= i < |s| - |r| ==> IsSpace(s[i])
  {
    if s != [] && IsSpace(s[0]) then TrimLeft(s[1..]) else s
  }

  function TrimRight(s: string): (r: string)
    ensures |r| <= |s| && r == s[..|r|]
    ensures r == [] || !IsSpace(r[|r| - 1])
    ensures forall i :: |r| <= i < |s| ==> IsSpace(s[i])
  {
    if s != [] && IsSpace(s[|s| - 1]) then TrimRight(s[..|s| - 1]) else s
  }

  /** str.strip() */
  function Strip(s: string): string
  {
    TrimRight(TrimLeft(s))
  }

  /** A line whose stripped form starts with '#' is a comment. */
  predicate IsComment(line: string)
  {
    var t := Strip(line);
    |t| > 0 && t[0] == '#'
  }

  function Count(s: string, c: char): nat
  {
    if s == [] then 0 else (if s[0] == c then 1 else 0) + Count(s[1..], c)
  }

  /** The position of the first c in s, when there is one. */
  function IndexOf(s: string, c: char): (i: nat)
    requires Count(s, c) > 0
    ensures i < |s| && s[i] == c && Count(s[..i], c) == 0
  {
    if s[0] == c then 0 else
      assert s[1..][..IndexOf(s[1..], c)] == s[..IndexOf(s[1..], c) + 1][1..];
      1 + IndexOf(s[1..], c)
  }

  /** What one line of the config file contributes: nothing for a comment,
      otherwise `k, v = line.split('=')`, which needs exactly one '='; the
      key and the value are stripped and lower-cased. */
  function LineEntry(line: string): Result<Option<(string, string)>>
  {
    if IsComment(line) then Ok(None)
    else if Count(line, '=') != 1 then Raise(ValueError)
    else
      var i := IndexOf(line, '=');
      Ok(Some((Lower(Strip(line[..i])), Lower(Strip(line[i + 1..])))))
  }

  /** What each line of the file contributes, in order. */
  function Entries(lines: seq<string>): (es: seq<Result<Option<(string, string)>>>)
    ensures |es| == |lines| && forall i :: 0 <= i < |lines| ==> es[i] == LineEntry(lines[i])
  {
    seq(|lines|, i requires 0 <= i < |lines| => LineEntry(lines[i]))
  }

  /** Whether a line entry sets key k. */
  predicate Sets(e: Result<Option<(string, string)>>, k: string)
  {
    e.Ok? && e.value.Some? && e.value.value.0 == k
  }

  /** read_config's loop over the line entries: the first failure is kept, a
      comment changes nothing, a key=value line sets (or overwrites) its key. */
  function Collect(es: seq<Result<Option<(string, string)>>>): Result<map<string, string>>
  {
    if es == [] then Ok(map[])
    else
      match Collect(es[..|es| - 1])
      case Raise(e) => Raise(e)
      case Ok(m) =>
        match es[|es| - 1]
        case Raise(e) => Raise(e)
        case Ok(None) => Ok(m)
        case Ok(Some(kv)) => Ok(m[kv.0 := kv.1])
  }

  /** The map read_config builds from the lines of an existing file. */
  function ConfigOf(lines: seq<string>): Result<map<string, string>>
  {
    Collect(Entries(lines))
  }

  /** read_config, given the lines of the file, or None when it does not exist. */
  method ReadConfig(file: Option<seq<string>>) returns (r: Result<map<string, string>>)
    ensures file.None? ==> r == Ok(map[])
    ensures file.Some? ==> r == ConfigOf(file.value)
  {
    if file.None? {
      return Ok(map[]);
    }
    var lines := file.value;
    ghost var es := Entries(lines);
    var config: map<string, string> := map[];
    for n := 0 to |lines|
      invariant Collect(es[..n]) == Ok(config)
    {
      assert es[..n + 1][..n] == es[..n];
      var e := LineEntry(lines[n]);
      if e.Raise? {
        CollectFailurePersists(es, n + 1);
        assert es[..|es|] == es;
        return Raise(e.exc);
      }
      if e.value.Some? {
        config := config[e.value.value.0 := e.value.value.1];
      }
    }
    assert es[..|lines|] == es;
    return Ok(config);
  }

  /** Once a prefix of the entries fails, the whole fold fails the same way. */
  lemma {:induction false} CollectFailurePersists(es: seq<Result<Option<(string, string)>>>, n: int)
    requires 0 <= n <= |es| && Collect(es[..n]).Raise?
    ensures Collect(es) == Collect(es[..n])
    decreases |es| - n
  {
    if n < |es| {
      assert es[..n + 1][..n] == es[..n];
      CollectFailurePersists(es, n + 1);
    } else {
      assert es[..n] == es;
    }
  }

  /** A line passes exactly when it is a comment or holds exactly one '=';
      a line that does not pass raises ValueError. */
  lemma LineEntryOkIff(line: string)
    ensures LineEntry(line).Ok? <==> IsComment(line) || Count(line, '=') == 1
    ensures LineEntry(line).Raise? ==> LineEntry(line) == Raise(ValueError)
  {
  }

  lemma {:induction false} CollectOkIff(es: seq<Result<Option<(string, string)>>>)
    ensures Collect(es).Ok? <==> forall i :: 0 <= i < |es| ==> es[i].Ok?
    ensures Collect(es).Raise? ==> exists i :: 0 <= i < |es| && es[i].Raise? && es[i].exc == Collect(es).exc
  {
    if es != [] {
      var init := es[..|es| - 1];
      CollectOkIff(init);
      assert forall i :: 0 <= i < |init| ==> init[i] == es[i];
      if Collect(init).Raise? {
        var i :| 0 <= i < |init| && init[i].Raise? && init[i].exc == Collect(init).exc;
        assert es[i] == init[i];
      } else if es[|es| - 1].Raise? {
        assert es[|es| - 1].exc == Collect(es).exc;
      }
    }
  }

  /** The file parses exactly when every line passes, and when it does not
      the error is ValueError. */
  lemma ConfigOkIff(lines: seq<string>)
    ensures ConfigOf(lines).Ok? <==> forall i :: 0 <= i < |lines| ==> IsComment(lines[i]) || Count(lines[i], '=') == 1
    ensures ConfigOf(lines).Raise? ==> ConfigOf(lines) == Raise(ValueError)
  {
    var es := Entries(lines);
    CollectOkIff(es);
    forall i | 0 <= i < |lines|
      ensures es[i].Ok? <==> IsComment(lines[i]) || Count(lines[i], '=') == 1
      ensures es[i].Raise? ==> es[i] == Raise(ValueError)
    {
      LineEntryOkIff(lines[i]);
    }
  }

  /** A blank line (empty or only whitespace) makes the whole file fail. */
  lemma ConfigBlankLineFails(lines: seq<string>, k: int)
    requires 0 <= k < |lines| && forall j :: 0 <= j < |lines[k]| ==> IsSpace(lines[k][j])
    ensures ConfigOf(lines) == Raise(ValueError)
  {
    BlankHasNoEquals(lines[k]);
    ConfigOkIff(lines);
  }

  lemma {:induction false} BlankHasNoEquals(s: string)
    requires forall j :: 0 <= j < |s| ==> IsSpace(s[j])
    ensures Count(s, '=') == 0 && !IsComment(s)
  {
    if s != [] {
      BlankHasNoEquals(s[1..]);
      assert !IsSpace('=');
    }
    var r := TrimLeft(s);
    assert r == [] by {
      assert r == s[|s| - |r|..];
    }
  }

  lemma {:induction false} CollectKeys(es: seq<Result<Option<(string, string)>>>, k: string)
    requires Collect(es).Ok?
    ensures k in Collect(es).value <==> exists i :: 0 <= i < |es| && Sets(es[i], k)
  {
    if es != [] {
      var init := es[..|es| - 1];
      ConfigKeysStep(es);
      CollectKeys(init, k);
      if k in Collect(es).value {
        if !Sets(es[|es| - 1], k) {
          var i :| 0 <= i < |init| && Sets(init[i], k);
          assert init[i] == es[i];
        }
      } else {
        forall i | 0 <= i < |es|
          ensures !Sets(es[i], k)
        {
          if i < |init| {
            assert init[i] == es[i];
          }
        }
      }
    }
  }

  lemma ConfigKeysStep(es: seq<Result<Option<(string, string)>>>)
    requires es != [] && Collect(es).Ok?
    ensures Collect(es[..|es| - 1]).Ok?
    ensures forall k :: k in Collect(es).value <==>
      k in Collect(es[..|es| - 1]).value || Sets(es[|es| - 1], k)
    ensures forall k :: Sets(es[|es| - 1], k) ==> Collect(es).value[k] == es[|es| - 1].value.value.1
    ensures forall k :: !Sets(es[|es| - 1], k) && k in Collect(es[..|es| - 1]).value ==>
      Collect(es).value[k] == Collect(es[..|es| - 1]).value[k]
  {
  }

  /** The keys of the map are exactly the keys set by some line of the file. */
  lemma ConfigKeysFromLines(lines: seq<string>, k: string)
    requires ConfigOf(lines).Ok?
    ensures k in ConfigOf(lines).value <==> exists i :: 0 <= i < |lines| && Sets(LineEntry(lines[i]), k)
  {
    var es := Entries(lines);
    CollectKeys(es, k);
    if k in ConfigOf(lines).value {
      var i :| 0 <= i < |es| && Sets(es[i], k);
      assert es[i] == LineEntry(lines[i]);
    } else {
      forall i | 0 <= i < |lines|
        ensures !Sets(LineEntry(lines[i]), k)
      {
        assert es[i] == LineEntry(lines[i]);
      }
    }
  }

  lemma {:induction false} CollectLastWins(es: seq<Result<Option<(string, string)>>>, i: int, k: string, val: string)
    requires Collect(es).Ok?
    requires 0 <= i < |es| && es[i] == Ok(Some((k, val)))
    requires forall j :: i < j < |es| ==> !Sets(es[j], k)
    ensures k in Collect(es).value && Collect(es).value[k] == val
  {
    var init := es[..|es| - 1];
    ConfigKeysStep(es);
    if i < |es| - 1 {
      assert init[i] == es[i];
      assert forall j :: i < j < |init| ==> init[j] == es[j];
      assert !Sets(es[|es| - 1], k);
      CollectLastWins(init, i, k, val);
    } else {
      assert Sets(es[i], k);
    }
  }

  /** The last line that sets a key gives its value: later lines overwrite
      earlier ones. */
  lemma ConfigLastWins(lines: seq<string>, i: int, k: string, val: string)
    requires ConfigOf(lines).Ok?
    requires 0 <= i < |lines| && LineEntry(lines[i]) == Ok(Some((k, val)))
    requires forall j :: i < j < |lines| ==> !Sets(LineEntry(lines[j]), k)
    ensures k in ConfigOf(lines).value && ConfigOf(lines).value[k] == val
  {
    CollectLastWins(Entries(lines), i, k, val);
  }
}
