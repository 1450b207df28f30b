# autopalette in Dafny

autopalette colours terminal text. These pieces work together:

- **Palettes** send any colour to the nearest of a fixed set of target colours, each with an ansi code.
- **Renderers** turn a text and one or two colours into a string with escape sequences.
- **Themes** name styles such as `h1`, `error` or `light`.
- A **formatter** picks a renderer, a palette and a theme for the terminal.
- A **ColoredString** renders its body through the formatter's theme.

This project models that pipeline and proves what it promises.

The model has one module per source file:

| module | file | what it holds |
|---|---|---|
| `Colormatch` | `colormatch.dfy` | `ColorPoint` and the nearest-colour index `ColorMatch` |
| `Palettes` | `palette.dfy` | the palette classes and their catalogs, `colors_from_dict`, the in-place query rewrites, `palette_map` |
| `Utils` | `utils.dfy` | `map_interval`, the channel conversions, `parse_color`, `read_config` |
| `Selection` | `select.dfy` | `select_palette` and `select_render_engine` |
| `Render` | `render.dfy` | the five renderer classes and `render_map` |
| `Themes` | `theme.dfy` | `ThemeColor`, `ThemeStyle`, `Theme.__init__`, the two shipped themes |
| `Autoformat` | `autoformat.dfy` | `ColoredString` and `AutoFormat` |

Two support modules hold no source logic:

- `Failures` holds Python's exceptions as a `Result` datatype.
- `Colour` holds the parts of the `colour`, `colorhash` and `colortrans` packages that autopalette calls. These are the `Library` record of conversion functions and a `Color` class with hue, saturation and luminance fields.

The code changes objects in place in several spots, and the model keeps those spots imperative:

- A palette's `match` rewrites the caller's `Color`.
- `ColorMatch.add` appends to the index.
- `colors_from_dict` and `AutoPalette.__init__` loop over the catalog.
- `ThemeColor` records edits and replays them.
- `Theme.__init__` walks the declared slots and sets styles.
- `AutoFormat.init` sets fields.

Each of these is a method. Its `ensures` ties the new state to a function of the old state. The lemmas state what the source promises about that function.

Some modelling choices:

- **The kd-tree** is a sequence of points with a linear scan. Among points at the same distance, the first one inserted wins.
- **A Python dict** in a catalog or in `palette_map` / `render_map` is an ordered list of entries. `Lookup` finds the first entry with a key. `DictUpdate` overwrites in place or appends.
- **The environment** is a `map<string, string>`.
- **`read_config`** is modelled on the lines of the file (`Utils.ReadConfig`). The selection functions take its result as a parameter. Python calls `read_config()` inside each selection function. Both calls read the same file, so passing the result once is the same.
- **Floats are reals.** Python's `round` is written out as round-half-to-even.
- **Errors.** Each exception the code raises is a `Raise(...)` result, never a precondition.

**Palettes rewrite the query colour in place.** `match` assigns the rewritten hue, saturation or luminance back to the caller's `Color` object, in palette.py at lines 118, 139-141, 160, 181 and 233, before looking up the nearest point. The model keeps that write. `Palettes.Oil6RepeatedMatchDrifts` shows the consequence: the same colour object matched twice under Oil6Palette gives two different entries.

## Model

| member | source | states |
|---|---|---|
| Colormatch.ColorPoint.Len | src/autopalette/colormatch.py:22-28 | a point always has length 3 |
| Colormatch.ColorPoint.Item | src/autopalette/colormatch.py:30-40 | indices 0..2 and -3..-1 give hue, saturation and luminance of the source colour (never the target); any other index is an IndexError |
| Colormatch.Nearest | src/autopalette/colormatch.py:54-65 | an empty index raises KeyError; otherwise the answer is one of the points in the index |
| Colormatch.NearestSourceIsNearest | src/autopalette/colormatch.py:54-65 | the scan's position is at minimal distance from the query, and every earlier source is strictly farther |
| Colormatch.NearestIsFirstMinimum | src/autopalette/colormatch.py:54-65 | the nearest point is unique up to ties: the first source at minimal distance is the one found |
| Colormatch.ExactMatchIsNearest | src/autopalette/colormatch.py:54-65 | a query equal to an indexed source, with every earlier source at a positive distance, is answered with that source |
| Colormatch.NearestIsNearest | src/autopalette/colormatch.py:54-65 | no point in the index is nearer to the query (plain Euclidean HSL distance, hue not circular) than the answer |
| Colormatch.ColorMatch.constructor | src/autopalette/colormatch.py:47-48 | a new index is empty |
| Colormatch.ColorMatch.Add | src/autopalette/colormatch.py:50-52 | exactly one point with the given source, target and code is added after all earlier points |
| Colormatch.ColorMatch.Match | src/autopalette/colormatch.py:54-65 | KeyError exactly when nothing was added; otherwise one of the added points, and the index is not changed |
| Colormatch.MatchRedBlueYellow | src/autopalette/colormatch.py:55-61 | with red and blue in the index, yellow matches the red point |
| Colormatch.RedNearerThanBlue | src/autopalette/colormatch.py:55-61 | measured from yellow, red is strictly nearer than blue |
| Palettes.KeyIndex | src/autopalette/palette.py:38-54 | the position of the first entry with the key, or -1 exactly when no entry has it |
| Palettes.DictUpdate | src/autopalette/palette.py:46-53 | after `d.update({k: v})`, k gives v, every other key keeps its value, an existing key keeps its position, and keys stay distinct |
| Palettes.ItemOf | src/autopalette/palette.py:40-53 | a tuple payload gives source = parse_color(name), target = parse_color(payload[0]) and ansi = payload[1], keyed by the source's hex; a tuple holding 'source' is a TypeError; a record keeps its own source, target and code |
| Palettes.GatherOkIff | src/autopalette/palette.py:38-54 | colors_from_dict succeeds exactly when every item does, and a failure is that of the first failing item |
| Palettes.GatherFailurePersists | src/autopalette/palette.py:40-48 | once an item fails, the rest of the catalog changes nothing |
| Palettes.GatherUniqueKeys | src/autopalette/palette.py:38-54 | the table holds each source hex once |
| Palettes.GatherKeys | src/autopalette/palette.py:38-54 | a hex is in the table exactly when some item has it |
| Palettes.GatherLastWins | src/autopalette/palette.py:46-48 | the last item with a given hex gives that hex's entry, so a later name with the same hex overwrites an earlier one |
| Palettes.GatherDistinct | src/autopalette/palette.py:38-54 | items with distinct hexes give one entry each, in catalog order |
| Palettes.KeyIndexSameKeys | src/autopalette/palette.py:46-53 | overwriting values leaves every key where it was |
| Palettes.UpdateNewKey | src/autopalette/palette.py:46-53 | updating with a new key appends the entry |
| Palettes.UpdateKeepsPositions | src/autopalette/palette.py:46-53 | d.update({k: v}) leaves every earlier key at its position and never shrinks the dict, and a new key lands last with its value |
| Palettes.Items | src/autopalette/palette.py:40-53 | item i of the catalog is computed from entry i alone, one item per entry |
| Palettes.Gather | src/autopalette/palette.py:38-54 | the loop of colors_from_dict: the first failing item stops it, each other item is written with d.update; GatherOkIff, GatherKeys, GatherLastWins and GatherUniqueKeys state what the table holds |
| Palettes.ColorsOf | src/autopalette/palette.py:38-54 | colors_from_dict of a catalog: the items gathered in catalog order; GatherDistinct and PairCatalogTable give the table of a concrete catalog |
| Palettes.CatalogOf | src/autopalette/palette.py:25-32 | a truthy non-dict is a ValueError; None or another falsy value (one NoCatalog, which also stands for no argument) or an empty dict falls back to the class catalog; otherwise the given dict is used |
| Palettes.Ansi256Point | src/autopalette/palette.py:15-19 | the answer has the query as its source and the colortrans code of the query's hex as its code; it fails only when colour rejects the code's hex |
| Palettes.Palette.Create | src/autopalette/palette.py:22-36 | an AutoPalette succeeds exactly when its catalog does, with the failure's exception otherwise; its table is that catalog's, and its index holds the table's entries in table order; Ansi256Palette takes no argument |
| Palettes.Palette.Ansi256 | src/autopalette/palette.py:15-19 | a new Ansi256Palette has an empty index and no table |
| Palettes.Palette.Empty | src/autopalette/palette.py:22-32 | a new AutoPalette of the class starts with an empty index and an empty table, before the catalog is added |
| Palettes.Palette.AddAll | src/autopalette/palette.py:33-36 | the index grows by the table's entries, in table order |
| Palettes.Palette.ColorsFromDict | src/autopalette/palette.py:38-54 | the loop computes the table that GatherOkIff, GatherKeys and GatherLastWins describe |
| Palettes.Palette.AddColor | src/autopalette/palette.py:56-57 | one point is added to the palette's index |
| Palettes.Palette.Match | src/autopalette/palette.py:59-61 | the caller's colour is rewritten in place by the class's rewrite, and the answer is the index's nearest point to the rewritten value (Ansi256Palette: its colortrans point) |
| Palettes.QueryTransform | src/autopalette/palette.py:115-119 | the value each class's match writes back into the query; QueryTransformRanges and QueryTransformMonotone state where it lands and that it keeps order |
| Palettes.PaletteMatch | src/autopalette/palette.py:59-61 | what match answers: the index's nearest point to the rewritten query, or the colortrans point for Ansi256Palette; PaletteMatchIsEntry states it is an entry of the table at minimal distance |
| Palettes.QueryTransformRanges | src/autopalette/palette.py:115-119 | the rewrites, on a colour in the unit cube: Gray4 sets saturation 0.3 only when ansi is set; Oil6 maps luminance into [0.3, 0.9] and saturation into [0.2, 0.9]; GameBoyChocolate, GameBoyGreen and Basic map luminance into [0.2, 0.9], [0.3, 0.85] and [0.2, 1]; nothing else changes |
| Palettes.QueryTransformMonotone | src/autopalette/palette.py:137-142 | every rewrite keeps the order of luminances |
| Palettes.PaletteMatchIsEntry | src/autopalette/palette.py:59-61 | an AutoPalette answers one of its own table entries unchanged, at minimal distance from the rewritten query; an empty one raises KeyError |
| Palettes.LookupFirst | src/autopalette/palette.py:256-280 | a dict gives, for a key, the value of its first entry with that key |
| Palettes.PaletteLookup | src/autopalette/palette.py:256-280 | palette_map[name] succeeds exactly for the names the map lists, with the class listed under the name; any other name is a KeyError |
| Palettes.PaletteMapNumbers | src/autopalette/palette.py:256-260 | '0' and '8' give Ansi8Palette, '16' Ansi16Palette, '-1' BasicPalette |
| Palettes.PaletteMapTerminals | src/autopalette/palette.py:266-271 | 'vt100' and 'xterm' give Ansi8Palette |
| Palettes.PaletteMapCodomain | src/autopalette/palette.py:256-280 | neither AutoPalette nor ColorsCCPalette can be selected by name |
| Palettes.RecordItemAsWritten | src/autopalette/palette.py:49-53 | as written, a record item stores its target as a hex string, not a colour |
| Palettes.TargetHexL | src/autopalette/theme.py:97-98 | reading `.hex_l` of a stored target succeeds exactly for a colour; a string is an AttributeError |
| Palettes.RecordTargetIsNotAColor | src/autopalette/palette.py:49-53 | the as-written record entry fails `.hex_l` with AttributeError; the corrected entry gives the target's hex |
| Palettes.AsRecords | src/autopalette/palette.py:49-53 | the table written back as record payloads, entry by entry, under the same keys |
| Palettes.GatherWellKeyed | src/autopalette/palette.py:38-54 | every table colors_from_dict builds is keyed by its entries' source hexes, without repeats |
| Palettes.GatherKeysFromItems | src/autopalette/palette.py:38-54 | every entry of a built table is one of the items |
| Palettes.RecordsRebuildTable | src/autopalette/palette.py:49-53 | with the corrected record branch, a palette's table fed back as records rebuilds the same table |
| Palettes.HexLiteralParses | src/autopalette/utils.py:89-90 | a lower-case '#rrggbb' literal goes to colour unchanged |
| Palettes.NameParses | src/autopalette/utils.py:91-94 | a CSS name that cannot be mistaken for hex goes to colour unchanged |
| Palettes.PairCatalogTable | src/autopalette/palette.py:40-48 | a tuple catalog whose names and targets parse, with distinct hexes, gives one entry per item in order, with those sources, targets and codes |
| Palettes.PlainCatalogTable | src/autopalette/palette.py:40-48 | the same for catalogs of CSS names with '#rrggbb' targets |
| Palettes.Ansi8MatchesRed | src/autopalette/palette.py:59-74 | Ansi8Palette matching pure red answers its second entry, for either ansi flag |
| Palettes.Ansi8RedEntry | src/autopalette/palette.py:64-74 | that entry is 'red' itself, with ansi code 1 |
| Palettes.Ansi8NearestToRed | src/autopalette/palette.py:64-74 | among the Ansi8 sources, 'red' is nearest to pure red |
| Palettes.Oil6RepeatedMatchDrifts | src/autopalette/palette.py:137-142 | because the rewrite is in place, a grey of luminance 0.4 matches the fourth Oil6 entry, and the same object matched again matches the fifth |
| Palettes.Oil6DriftEntries | src/autopalette/palette.py:126-133 | those entries are 'gray' (code 5) and 'darkgray' (code 98) |
| Palettes.Oil6Rewrites | src/autopalette/palette.py:137-142 | the grey rewritten once is (0, 0.2, 0.54) and twice is (0, 0.34, 0.624) |
| Utils.MapIntervalEnds | src/autopalette/utils.py:17-39 | map_interval sends each end of the source interval to the matching end of the target, and (0, 1, 0, 255, 0.5) gives 127.5 |
| Utils.MapIntervalWithin | src/autopalette/utils.py:17-39 | for increasing intervals, a value inside the source lands inside the target |
| Utils.MapIntervalMonotone | src/autopalette/utils.py:17-39 | for increasing intervals, the map keeps order |
| Utils.MapInterval | src/autopalette/utils.py:17-39 | the affine map of map_interval; MapIntervalEnds, MapIntervalWithin and MapIntervalMonotone state its ends, range and order |
| Utils.RoundHalfEven | src/autopalette/utils.py:48-49 | round() gives the nearest integer, ties to the even one |
| Utils.RgbToRgb255 | src/autopalette/utils.py:42-49 | each channel becomes round(c * 255), independently: the nearest integer, and the even one on a tie; channels in [0, 1] give [0, 255] |
| Utils.Rgb255ToRgb | src/autopalette/utils.py:52-59 | each channel is divided by 255; channels in [0, 255] give [0, 1] |
| Utils.Rgb255RoundTrip | src/autopalette/utils.py:42-59 | integer channels converted to [0, 1] and back are unchanged |
| Utils.RgbRoundTripError | src/autopalette/utils.py:42-59 | [0, 1] channels converted to integers and back move by at most 1/510 |
| Utils.RgbExamples | src/autopalette/utils.py:42-59 | (1, 0.5, 0) gives (255, 128, 0), and (0, 128, 255) gives (0, 128/255, 1) |
| Utils.Lower | src/autopalette/utils.py:149 | str.lower() restricted to ASCII: each 'A'-'Z' becomes its lower-case letter and every other character is kept, position by position |
| Utils.ParseColor | src/autopalette/utils.py:62-101 | a non-string is a ValueError; a string parses exactly when colour accepts its spelling, to colour's own value, and every failure is a ValueError, whatever exception colour raised |
| Utils.WebSpelling | src/autopalette/utils.py:84-95 | the string handed to colour: six hex characters get a '#', a '#' and six hex characters or a CSS name are kept, anything else becomes its ColorHash hex; ParseHexWithOrWithoutHash, ParseHexCase and ParseRejectsStrayHash pin the hex cases down |
| Utils.ParseHexWithOrWithoutHash | src/autopalette/utils.py:86-90 | a six-digit lower-case hex code gets its '#', and parses the same with or without it |
| Utils.ParseHexCase | src/autopalette/utils.py:86-91 | the seven-character test lower-cases first, the six-character one does not: 'ABCDEF' is a name or is hashed |
| Utils.ParseRejectsStrayHash | src/autopalette/utils.py:86-101 | a six-character string with a '#' inside passes the hex test, gets a second '#', and then fails with ValueError, for any colour package that accepts only names (in any case) and the three- and six-digit hex forms |
| Utils.TrimLeft | src/autopalette/utils.py:145 | the leading whitespace is removed, and only that |
| Utils.TrimRight | src/autopalette/utils.py:145 | the trailing whitespace is removed, and only that |
| Utils.IndexOf | src/autopalette/utils.py:148 | the position of the first '=' |
| Utils.ReadConfig | src/autopalette/utils.py:138-154 | a missing file gives an empty map; otherwise the map the lines give |
| Utils.LineEntry | src/autopalette/utils.py:144-151 | one line's contribution: nothing for a comment, the stripped and lower-cased halves around its one '=', or ValueError; LineEntryOkIff gives the success condition, ConfigKeysFromLines and ConfigLastWins what the entries make of the map |
| Utils.LineEntryOkIff | src/autopalette/utils.py:145-151 | a line passes exactly when it is a comment or holds exactly one '='; otherwise ValueError |
| Utils.CollectFailurePersists | src/autopalette/utils.py:144-151 | once a line fails, the rest of the file changes nothing |
| Utils.CollectOkIff | src/autopalette/utils.py:144-151 | the fold succeeds exactly when every line does |
| Utils.ConfigOkIff | src/autopalette/utils.py:142-154 | a file parses exactly when every line is a comment or has exactly one '='; otherwise ValueError |
| Utils.ConfigBlankLineFails | src/autopalette/utils.py:145-151 | a blank line fails the whole file |
| Utils.BlankHasNoEquals | src/autopalette/utils.py:145-148 | a blank line is no comment and has no '=' |
| Utils.CollectKeys | src/autopalette/utils.py:144-151 | a key is in the map exactly when some line sets it |
| Utils.ConfigKeysFromLines | src/autopalette/utils.py:142-154 | the keys of the map are exactly those some line of the file sets |
| Utils.CollectLastWins | src/autopalette/utils.py:149 | the last line setting a key gives its value |
| Utils.Collect | src/autopalette/utils.py:144-151 | the fold of read_config's loop over the line entries; CollectOkIff, CollectFailurePersists, CollectKeys and CollectLastWins state what it gives |
| Utils.ConfigOf | src/autopalette/utils.py:142-154 | the map read_config builds from the lines of a file; ConfigOkIff, ConfigKeysFromLines and ConfigLastWins state what it gives |
| Utils.ConfigLastWins | src/autopalette/utils.py:142-154 | the last line setting a key gives its value: later lines overwrite earlier ones |
| Selection.Digits | src/autopalette/utils.py:164 | str() of a natural is a non-empty string of digits with no leading zero |
| Selection.DigitsRoundTrip | src/autopalette/utils.py:164 | reading the numeral back gives the number |
| Selection.DecimalInjective | src/autopalette/utils.py:164 | different numbers have different spellings, so a count hint names one entry |
| Selection.LowerKeepsDecimal | src/autopalette/utils.py:164 | lower-casing leaves a numeral unchanged |
| Selection.LowerIdempotent | src/autopalette/utils.py:164 | lower-casing twice is lower-casing once |
| Selection.Spelling | src/autopalette/utils.py:164 | str(hint).lower(): a count is spelled as its decimal numeral, a terminal name lower-cased |
| Selection.NoColour | src/autopalette/utils.py:159-160 | a hint equal to 0 or NO_COLOR set to any value; SelectPalette and SelectRenderer state that it decides selection whatever the config |
| Selection.PaletteName | src/autopalette/utils.py:161-164 | the looked-up name is $AUTOPALETTE, else the config's 'palette', else the hint, lower-cased |
| Selection.RendererName | src/autopalette/utils.py:176-182 | the looked-up name is $AUTOPALETTE_RENDERER, else the config's 'renderer', else a non-empty $COLORTERM, else $TERM, else the hint, lower-cased |
| Selection.NamesAreLowerCase | src/autopalette/utils.py:164 | both looked-up names are lower case |
| Selection.SelectPalette | src/autopalette/utils.py:157-165 | a hint of 0 or a set NO_COLOR gives palette_map['0'] (Ansi8Palette) whatever the config; otherwise a broken config's error, or palette_map of the name |
| Selection.SelectRenderer | src/autopalette/utils.py:168-183 | a hint of 0 or a set NO_COLOR gives render_map['0'] (AnsiNoColorRenderer) whatever the config; otherwise a broken config's error, or render_map of the name |
| Selection.RendererOverrideWins | src/autopalette/utils.py:181 | once $AUTOPALETTE_RENDERER is set, neither the config, nor the other variables, nor the hint matter |
| Selection.ColortermOverTerm | src/autopalette/utils.py:177-179 | a non-empty $COLORTERM beats $TERM and the hint; an empty one is skipped |
| Selection.BrokenConfigIgnoredWithoutColour | src/autopalette/utils.py:159-161 | a config file that fails to parse makes selection fail exactly when colour is wanted |
| Selection.TruecolorTerminal | src/autopalette/utils.py:168-183 | xterm-256color with COLORTERM=truecolor gets AnsiTruecolorRenderer |
| Selection.TruecolorTerminalPalette | src/autopalette/utils.py:157-165 | the same terminal with a hint of 256 gets Ansi256Palette, since select_palette reads neither variable |
| Selection.PlainXterm | src/autopalette/utils.py:157-183 | under TERM=xterm a hint of 8 gets Ansi16Renderer and Ansi8Palette |
| Render.PointFor | src/autopalette/render.py:41-47 | the point render draws with fails exactly when the palette fails, or when a missing ('' or None) code's fallback fails; an ansi renderer never keeps a missing code; a code that is not missing is kept as the palette answered it |
| Render.NoColorPassesThrough | src/autopalette/render.py:82-84 | AnsiNoColorRenderer returns the text and touches neither colour, for any fg, bg and ansi_reset |
| Render.ResetHandling | src/autopalette/render.py:38-40 | with ansi_reset, Ansi256Renderer and AnsiTruecolorRenderer return the text unchanged; Ansi16Renderer and Ansi8Renderer answer what they answer without it |
| Render.RenderShape | src/autopalette/render.py:50-57 | a rendered string is the fg escape, then the bg escape exactly when a bg is given, then the text once, then the reset; an ansi renderer never writes a missing code |
| Render.RenderFailures | src/autopalette/render.py:41-48 | render fails exactly when a colour it consults cannot be matched, and the bg is consulted only when given |
| Render.SameColourRewrittenTwice | src/autopalette/render.py:41-47 | when fg and bg are one object, the bg is matched against the already rewritten fg, and the object ends up rewritten twice |
| Render.BaseBrightRules | src/autopalette/render.py:25-34 | the base rule is "luminance > 0.7, or saturation >= 0.3 and luminance >= 0.3" (the white case is subsumed), and raising luminance keeps a colour bright |
| Render.BrightOf | src/autopalette/render.py:59-65 | truecolor uses the base rule; otherwise a code below 16 is dark exactly for 0-6 and 8, a code of 16 or more uses the base rule on the rewritten colour, and a non-int code is a TypeError |
| Render.BrightByLowCode | src/autopalette/render.py:59-64 | below 16 the answer depends on the code alone |
| Render.BaseBright | src/autopalette/render.py:25-34 | BaseRenderer.is_bright's three rules; BaseBrightRules states that the white rule is subsumed and that raising luminance keeps a colour bright |
| Render.FgOf | src/autopalette/render.py:70-71 | fg(color) succeeds exactly when the palette matches |
| Render.BgOf | src/autopalette/render.py:67-68 | bg(color) succeeds exactly when the palette matches |
| Render.TruecolorBgIsFg | src/autopalette/render.py:137-145 | the truecolor renderer's bg(color) is its fg(color): a foreground escape |
| Render.RenderIsFgTextReset | src/autopalette/render.py:38-57 | rendering with fg only, when no fallback is needed, is fg(color), the text, and the reset |
| Render.RenderOf | src/autopalette/render.py:38-57 | render's answer and the values the colours hold afterwards; RenderShape, RenderFailures, ResetHandling and SameColourRewrittenTwice state what it gives |
| Render.Escape | src/autopalette/render.py:50-54 | the escape for one point: sty of its ansi code for the ansi renderers, of its target's 0-255 RGB for the truecolor renderer; RenderShape and TruecolorBgIsFg use it |
| Render.Draw | src/autopalette/render.py:50-57 | _render: fg escape, bg escape when there is a background, the text, the reset; RenderShape and RenderIsFgTextReset state the rendered string in these terms |
| Render.Renderer.constructor | src/autopalette/render.py:16-20 | the renderer keeps its palette and has a fresh Ansi256Palette fallback |
| Render.Renderer.PointOf | src/autopalette/render.py:41-47 | one colour is rewritten by the palette, and the point is the one PointFor describes |
| Render.Renderer.Render | src/autopalette/render.py:38-57 | the answer and the colours' new values are those RenderOf gives, with fg and bg possibly the same object |
| Render.Renderer.IsBright | src/autopalette/render.py:59-65 | the answer BrightOf gives; only the ansi renderers rewrite the colour |
| Render.Renderer.Fg | src/autopalette/render.py:70-71 | the answer FgOf gives, with the colour rewritten by the palette |
| Render.Renderer.Bg | src/autopalette/render.py:67-68 | the answer BgOf gives, with the colour rewritten by the palette |
| Render.RendererLookup | src/autopalette/render.py:156-176 | render_map[name] succeeds exactly for the names the map lists, with the class listed under the name; any other name is a KeyError |
| Render.RenderMapNumbers | src/autopalette/render.py:156-176 | '-1' gives truecolor, '0' no colour, '8' and '16' their ansi renderers |
| Themes.LastEditWins | src/autopalette/theme.py:26-33 | the last edit of a component decides its value, whatever came before |
| Themes.UntouchedComponentKept | src/autopalette/theme.py:26-33 | a component no edit touches keeps its value |
| Themes.Setters | src/autopalette/theme.py:28-31 | the edits without the resets |
| Themes.ResetsChangeNoColour | src/autopalette/theme.py:28-31 | resets change no colour component: replaying the setters alone gives the same colour |
| Themes.Step | src/autopalette/theme.py:26-33 | one recorded edit applied to a colour: a setter replaces its component, a reset changes nothing; LastEditWins and UntouchedComponentKept build on it |
| Themes.Replay | src/autopalette/theme.py:26-33 | apply's loop: the edits replayed in recording order; LastEditWins, UntouchedComponentKept and ResetsChangeNoColour state its result |
| Themes.ThemeColor.constructor | src/autopalette/theme.py:20-24 | a new ThemeColor has its colour name, no edits and the flag off |
| Themes.ThemeColor.SetHue | src/autopalette/theme.py:39-41 | exactly one edit is appended, and the same object is returned |
| Themes.ThemeColor.SetSaturation | src/autopalette/theme.py:43-45 | exactly one edit is appended, and the same object is returned |
| Themes.ThemeColor.SetLuminance | src/autopalette/theme.py:47-49 | exactly one edit is appended, and the same object is returned |
| Themes.ThemeColor.Reset | src/autopalette/theme.py:35-37 | exactly one reset edit is appended, the flag is unchanged, and the same object is returned |
| Themes.ThemeColor.Apply | src/autopalette/theme.py:26-33 | the colour becomes the edits replayed in order; the flag is on exactly when it was or a reset was recorded |
| Themes.WhiteWithLuminanceExample | src/autopalette/theme.py:13-17 | `ThemeColor('white').set_luminance(.8)` has colour 'white' and one set_luminance edit |
| Themes.ThemeStyle.constructor | src/autopalette/theme.py:66-70 | the style holds the given colours, renderer and flag |
| Themes.ThemeStyle.Call | src/autopalette/theme.py:75-76 | style(text) is the renderer's render of the text with the stored colours and flag, and rewrites those colours as render does |
| Themes.FindFrom | src/autopalette/theme.py:93-101 | the first slot of a name from a position on, exactly when there is one |
| Themes.HasAttribute | src/autopalette/theme.py:93-96 | hasattr(theme, name): a declared slot name, or palette or renderer; SlotStyle and OrphanRaises use it for the background test |
| Themes.Find | src/autopalette/theme.py:93-101 | a slot of the name exists exactly when the name is declared |
| Themes.SlotStyle | src/autopalette/theme.py:92-109 | a background slot is skipped when its foreground exists and raises ValueError otherwise; a foreground slot's style has a background exactly when a `_name` slot is declared |
| Themes.SlotStyleFacts | src/autopalette/theme.py:97-109 | a style's flag is on exactly when the slot's ThemeColor had it or records a reset, and the last edit of each component decides that component |
| Themes.SlotColor | src/autopalette/theme.py:97-99 | the colour a slot resolves to: its name given to colour.Color, matched against the palette without ansi, the target's hex given to colour.Color again, and the slot's edits replayed; a rejected name raises colour's own exception; SlotStyleFacts, SlotColorKeepsColourException and Theme.Resolve state what it gives |
| Themes.SlotColorKeepsColourException | src/autopalette/theme.py:97 | a slot name colour.Color rejects fails the slot with colour's own exception (AttributeError for a malformed '#' code), where parse_color would answer ValueError for the same spelling |
| Themes.StepsAre | src/autopalette/theme.py:89-109 | step i of the walk is slot i's own step |
| Themes.WalkedFailsIff | src/autopalette/theme.py:89-109 | the walk fails exactly when some step fails |
| Themes.WalkedNames | src/autopalette/theme.py:106-109 | the names a finished walk sets are exactly those of the steps that gave a style |
| Themes.WalkedStyleOfSlot | src/autopalette/theme.py:106-109 | with names declared once, a name's style is the one its own step gave |
| Themes.WalkedStep | src/autopalette/theme.py:89-109 | one more step of a walk that has not failed |
| Themes.WalkedFailurePersists | src/autopalette/theme.py:89-109 | once a step fails, the walk answers that failure |
| Themes.ThemeFailsIff | src/autopalette/theme.py:84-109 | building a theme fails exactly when some slot's step fails |
| Themes.ThemeOf | src/autopalette/theme.py:84-109 | the styles Theme.__init__ sets, or the exception that stops it; ThemeFailsIff, ThemeStyleNames and ThemeStyleOfSlot state what it gives |
| Themes.ThemeStyleNames | src/autopalette/theme.py:92-109 | the styles of a built theme are exactly its foreground slots; background slots never become styles |
| Themes.ThemeStyleOfSlot | src/autopalette/theme.py:97-109 | each foreground slot's style is the one its own step computed |
| Themes.OrphanRaises | src/autopalette/theme.py:92-96 | a background slot without its foreground stops construction with ValueError when every earlier step succeeded |
| Themes.PairedHasNoOrphans | src/autopalette/theme.py:92-96 | slots declared with each background right after its foreground have no orphans |
| Themes.NoOrphansFailOnColours | src/autopalette/theme.py:92-105 | without orphans, construction fails only on a colour that cannot be parsed or matched |
| Themes.Theme.constructor | src/autopalette/theme.py:84-88 | a new theme holds its palette and renderer and no styles, and owns no objects yet |
| Themes.Theme.Create | src/autopalette/theme.py:84-109 | Theme(palette, renderer) succeeds exactly when the palette builds and every slot's step succeeds, and a palette that fails to build gives its own exception; its renderer shares the theme's palette, and its styles are exactly the walk's, each holding the walk's values. Every style and each of its colours is a new object, made while the theme was built, so none is the palette's target or any object the caller holds; a style's background is never its foreground, and no two styles share a colour. The declared ThemeColors keep their colour names and edits; a flag that was on stays on, and a flag turns on only for a ThemeColor that records a reset. |
| Themes.Theme.OpenPalette | src/autopalette/theme.py:85 | the class given, built with its own catalog, or Ansi256Palette when there is none |
| Themes.Theme.Assemble | src/autopalette/theme.py:84-109 | a renderer of the given class on the built palette, then the walk: the theme succeeds exactly when the walk does, with the walk's exception otherwise, and its renderer shares its palette. Every style and each of its colours is a new object, made while the theme was built, so none is the palette's target or any object the caller holds; a style's background is never its foreground, and no two styles share a colour. The declared ThemeColors keep their colour names and edits; a flag that was on stays on, and a flag turns on only for a ThemeColor that records a reset. |
| Themes.Theme.Build | src/autopalette/theme.py:89-109 | with the palette and renderer already made, the theme succeeds exactly when the walk over the slots does, failing with the walk's exception, and holds the walk's styles. Every style and each of its colours is a new object, made while the theme was built, so none is the palette's target or any object the caller holds; a style's background is never its foreground, and no two styles share a colour. The declared ThemeColors keep their colour names and edits; a flag that was on stays on, and a flag turns on only for a ThemeColor that records a reset. |
| Themes.Theme.Walk | src/autopalette/theme.py:89-109 | the loop over the slots ends with the walk's failure, or with the walk's styles set on the theme; the palette's index is not changed. Every style set and each of its colours is an object made during the loop; a style's background is never its foreground, and no two styles share a colour. The declared ThemeColors keep their colour names and edits; a flag that was on stays on, and a flag turns on only for a ThemeColor that records a reset. |
| Themes.Theme.Advance | src/autopalette/theme.py:89-109 | one iteration of the loop extends the walk by one step; the objects it adds to the theme are new, so they are shared with no earlier style |
| Themes.Theme.Place | src/autopalette/theme.py:90-109 | the body of the loop for one slot: a failed step answers its exception; otherwise the slot's style, when it has one, is set under the slot's name and every other style is kept; the objects added to the theme are new |
| Themes.Theme.Record | src/autopalette/theme.py:106-109 | setattr adds one style and keeps the others; the theme's objects grow by that style and its colours, which must be new to the theme and distinct from each other |
| Themes.Theme.MakeStyle | src/autopalette/theme.py:90-109 | one slot's style, none for a background slot, or the exception that stops the walk; the style and its colours are new objects, and its background is not its foreground |
| Themes.Theme.ForegroundStyle | src/autopalette/theme.py:97-109 | a foreground slot's style, from its colour and its background's, each a new colour object, so the two are distinct |
| Themes.Theme.Background | src/autopalette/theme.py:100-105 | no bg without a `_name` slot; otherwise that slot's colour, with its own edits applied |
| Themes.Theme.Resolve | src/autopalette/theme.py:97-99 | a fresh colour from the palette target's hex, with the slot's edits applied; the palette's own target is not touched |
| Themes.BasicThemeHasNoOrphans | src/autopalette/theme.py:112-135 | BasicTheme gives every background slot its foreground |
| Themes.FourColorThemeHasNoOrphans | src/autopalette/theme.py:138-162 | FourColorTheme gives every background slot its foreground |
| Themes.BasicThemeData | src/autopalette/theme.py:112-135 | in BasicTheme, `base` records a reset, `h1` has a background slot, `warning` has none, and `dark` sets luminance 0.2 |
| Autoformat.Effected | src/autopalette/autoformat.py:121-159 | an effect accessor keeps the theme and drops the key; with no colours the body is unchanged, otherwise it grows by the escape and the reset |
| Autoformat.EffectWrapsBody | src/autopalette/autoformat.py:121-159 | with colours, the body is found again between the effect's escape and the reset, and nothing else is added |
| Autoformat.AccessorStyles | src/autopalette/autoformat.py:61-119 | p, li, err and warn call base, light, error and warning; the others call the style of their own name |
| Autoformat.Styled | src/autopalette/autoformat.py:36-119 | a theme accessor answers a new string with the same theme holding what the style renders; a theme without that style is an AttributeError; afterwards the style's colours hold what the palette rewrote them to |
| Autoformat.SameKeySameColour | src/autopalette/autoformat.py:41-44 | strings with the same non-empty key get the same colour, whatever their bodies |
| Autoformat.Id | src/autopalette/autoformat.py:39-46 | id answers the body rendered by the theme's renderer with that colour and no background, as a new string with the same theme; an unparsable colour is a ValueError |
| Autoformat.IdColor | src/autopalette/autoformat.py:39-46 | id's colour is parse_color of the key when the key is non-empty, of the body otherwise |
| Autoformat.AutoFormat.Blank | src/autopalette/autoformat.py:166-173 | before init there is no theme and both fixers are the identity |
| Autoformat.AutoFormat.Create | src/autopalette/autoformat.py:166-203 | AutoFormat(...) raises exactly when a selection or the theme fails, with the first failure's exception; a built formatter has the colour count given (the probe's when 0 is given), the given or selected classes, a theme of those classes whose palette holds the palette class's index and whose styles are exactly those Theme.__init__ sets for the declared slots, a renderer with an Ansi256Palette fallback, and styles and colours that are all new objects, need flags equal to 0 <= count <= 16, and identity fixers |
| Autoformat.AutoFormat.Init | src/autopalette/autoformat.py:175-203 | a term_colors of 0 is replaced by the probe; the renderer and palette are the given classes or the selections for that count; the exception answered is the first of the renderer selection, the palette selection and the theme, and a failure leaves the later fields (theme, need flags, fixers) as they were; on success the theme uses those classes, its palette holds the palette class's index, its renderer shares that palette, its renderer has an Ansi256Palette fallback, and its styles are exactly those Theme.__init__ sets for the declared slots, all new objects with new colours; both need flags are 0 <= count <= 16, and the fixers are replaced as fix_all and fix_text ask |
| Autoformat.AutoFormat.Choose | src/autopalette/autoformat.py:183-184 | the renderer class, then the palette class, each given or selected, stopping at the first failure; the theme, need flags and fixers are not touched |
| Autoformat.AutoFormat.Finish | src/autopalette/autoformat.py:185-203 | the exception answered is exactly the theme's for the chosen classes, and on failure the need flags and fixers are unchanged; on success the theme is of the chosen classes, with the palette class's index, a renderer with an Ansi256Palette fallback, and exactly the styles Theme.__init__ sets, all new objects, the need flags are set and the fixers chosen |
| Autoformat.AutoFormat.MakeTheme | src/autopalette/autoformat.py:185-188 | the theme of the chosen classes fails exactly with the exception ThemeError names, and otherwise has those classes, a palette holding the palette class's index, a renderer sharing that palette with an Ansi256Palette fallback, and exactly the styles Theme.__init__ sets for the declared slots, each with its slot's values, and each style and colour a new object; the declared ThemeColors keep their colour names and edits, and a flag turns on only by a recorded reset |
| Autoformat.AutoFormat.SetUp | src/autopalette/autoformat.py:189-203 | the theme is stored, the need flags become 0 <= term_colors <= 16, fix_emoji is swapped in when fix_all and the emoji flag hold, fix_text when fix_text (or fix_all with the emoji flag) and the text flag hold; the colour count and classes are unchanged |
| Autoformat.GivenClassesSkipSelection | src/autopalette/autoformat.py:183-184 | with both classes given, init fails exactly as building the theme does: neither selection is consulted, so a broken config cannot fail it |
| Autoformat.NoColourSelectionsSucceed | src/autopalette/autoformat.py:175-188 | with a term_colors of 0 (after the probe) or NO_COLOR set, and no classes given, init fails exactly as building an Ansi8Palette theme does, whatever the config |
| Autoformat.NeedsFix | src/autopalette/autoformat.py:205-213 | need_text_fix and need_emoji_fix: a terminal of 0 to 16 colours; AutoFormat.Init and AutoFormat.Finish state the flags equal it |
| Autoformat.AutoFormat.FixText | src/autopalette/autoformat.py:215-216 | self.fix_text: ftfy once it was swapped in, the identity otherwise; AutoFormat.Call and DefaultFormatterKeepsContent state what it does to the content |
| Autoformat.AutoFormat.FixEmoji | src/autopalette/autoformat.py:218-219 | self.fix_emoji(text, ':'): emoji2text once it was swapped in, the identity otherwise; AutoFormat.Call and DefaultFormatterKeepsContent state what it does to the content |
| Autoformat.AutoFormat.Call | src/autopalette/autoformat.py:221-226 | the formatter keeps its theme and the key; with no need flags, or with the default fixers, the body is the content; with both flags it is fix_emoji(fix_text(content)) |
| Autoformat.DefaultFormatterKeepsContent | src/autopalette/autoformat.py:166-226 | a formatter built with the default fixers wraps any content unchanged |

## Left out

- `terminal_colors` (utils.py:104-135) probes the tty, the platform and curses. It is not part of this model. The colour count it answers is the `probe` parameter of `AutoFormat.Init`, and the `colors` parameter of the effect accessors.
- File and environment I/O. `os.environ` is a map parameter. `read_config` works on the lines of the file, with `None` for a missing file. The `AUTOPALETTE_CONFIG` override and `expanduser` of the file name are not modelled.
- Third-party internals are parameters, and nothing is assumed about them beyond what a lemma's own `requires` states:
  - the `colour` package (HSL/RGB conversion, `hex_l`, the CSS name table, and the exception `Color(s)` raises for a spelling it rejects);
  - `ColorHash`;
  - colortrans `rgb2short` / `short2rgb`;
  - the escape strings of `sty`.
- The kd-tree is a linear scan. Among points at the same distance, the first one inserted wins. The real tree may pick another of the tied points.
- Floating point is modelled as reals, with no rounding error. `round` is the exact round-half-to-even of a real.
- `map_interval` with equal source ends would raise ZeroDivisionError. Every caller passes constant, distinct source ends ([0, 1] or [0, 255]), so the model requires distinct ends instead.
- `ColoredString.id256`, `raw`, `_raw` and `__repr__` are not modelled. They only format through colortrans or repr.
- `AnsiTruecolorRenderer.match` (render.py:114-116) is not modelled. `render` never calls it.
- The optional `ftfy` / `emoji2text` imports and their ImportError paths (autoformat.py:191-203) are foreign libraries. The fixers are function parameters, and a flag records whether each one was swapped in.
- Theme reflection over the class `__dict__`. A theme class is an explicit ordered list of slots, passed in by the caller. `hasattr` is answered from that list, plus `palette` and `renderer`, which every theme has. Slots inherited from a base class, methods and dunder names are not covered: `hasattr` answers False for them in the model.
- A `ValueError` in the middle of `Theme.__init__`. The styles already set before it are not part of the result. Only the exception is answered.
- `Ansi256Palette(None)` is a TypeError in Python, since its `__init__` takes no argument. The model has one `NoCatalog` value for both "no argument" and `None`, so it cannot express that call.
- `ThemeColor(None)` is not modelled. A colour name is always a string.
- The Ansi16Renderer and Ansi8Renderer constructors pass a palette class where a palette is expected. Only the state after `Theme.__init__` replaces the renderer's palette is modelled.
- `hint == 0` in Python also holds for `False` and `0.0`. The hint is an int or a string here.
- Python dicts are ordered entry lists. Only the lookups and updates the code performs are modelled.
- The full catalogs of the palette classes are static data. The model lists them, but the scenario lemmas only cover Ansi8Palette and Oil6Palette.
- Autoformat.AutoFormat.Init: does not restate what happens to the declared ThemeColors (names, colours and edits kept, a flag turned on only by a reset); AutoFormat.MakeTheme and Theme.Create state it, and Init leaves it to them to keep its own proof small.
- Autoformat.AutoFormat.Create: the same; it lifts Init's contract without the ThemeColors frame.
- Utils.Lower: folds ASCII letters only. Python's str.lower() also folds non-ASCII letters, and can change the length (e.g. 'İ' becomes two characters).
- Palettes.PlainCatalogTable: states the entries' sources and codes but not their targets. PairCatalogTable states all three.

## Findings

| source | as written | input that shows it | evidently intended | confidence | as-written member | corrected member |
|---|---|---|---|---|---|---|
| src/autopalette/palette.py:49-53 | a record payload stores `payload['target'].hex_l`, a str, as the entry's target | a catalog `{'x': {'source': Color('red'), 'target': Color('white'), 'ansi': 1}}`: the entry's target is the string '#ffffff', so `Theme.__init__` (theme.py:98) and the truecolor renderer (render.py:127) fail on `.hex_l` / `.rgb` with AttributeError | store the target Color itself, as the tuple branch does | not executed | Palettes.RecordItemAsWritten, Palettes.RecordTargetIsNotAColor | Palettes.ItemOf, Palettes.RecordsRebuildTable |
