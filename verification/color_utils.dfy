/**
 * The palette generator: five colours derived from a base colour by a named
 * scheme of hue offsets or lightness steps, ordered from dark to light.
 *
 * The colour library is not modelled: a colour is any value of a type `C`
 * and the library's operations are the fields of a `ColorLib<C>`, about
 * which nothing is assumed.
 */
module ColorUtils {
  import opened Wrappers
  import opened JsSemantics

  /** The colour-library operations the generator uses. */
  datatype ColorLib<!C> = ColorLib(
    parse: string -> Option<C>,   // reading a colour string; None where the library throws
    hue: C -> int,                // the HSL hue, in degrees
    setHue: (C, int) -> C,        // the same colour with another HSL hue
    brighten: (C, real) -> C,
    darken: (C, real) -> C,
    luminance: C -> real,
    hex: C -> string,
    contrast: (C, C) -> real)

  /** The five colour schemes, in the order in which the scheme table lists them. */
  datatype Scheme = Analogous | Triadic | Complementary | SplitComplementary | Monochromatic

  const Schemes: seq<Scheme> := [Analogous, Triadic, Complementary, SplitComplementary, Monochromatic]

  /** `Object.values(COLOR_SCHEMES)`, in the table's order. */
  const SchemeNames: seq<string> := ["analogous", "triadic", "complementary", "split-complementary", "monochromatic"]

  /** The `COLOR_SCHEMES` entry of a scheme: its name sits where the scheme sits in the table. */
  function SchemeName(s: Scheme): (name: string)
    ensures forall i :: 0 <= i < |Schemes| && Schemes[i] == s ==> name == SchemeNames[i]
    ensures name in SchemeNames
  {
    match s
    case Analogous => "analogous"
    case Triadic => "triadic"
    case Complementary => "complementary"
    case SplitComplementary => "split-complementary"
    case Monochromatic => "monochromatic"
  }

  /** The scheme a name selects, if any: the cases of the generator's switch. */
  function SchemeOf(name: string): (r: Option<Scheme>)
    ensures r.Some? ==> SchemeName(r.value) == name
    ensures r.None? ==> forall s :: SchemeName(s) != name
  {
    if name == "analogous" then Some(Analogous)
    else if name == "triadic" then Some(Triadic)
    else if name == "complementary" then Some(Complementary)
    else if name == "split-complementary" then Some(SplitComplementary)
    else if name == "monochromatic" then Some(Monochromatic)
    else None
  }

  lemma SchemeNamesRoundTrip(s: Scheme)
    ensures SchemeOf(SchemeName(s)) == Some(s)
    ensures s in Schemes
  {
  }

  /** The hue `offset` degrees away from `c`'s, written as the source writes it: `(h + offset) % 360`. */
  function Rotated<C>(lib: ColorLib<C>, c: C, offset: int): (r: C)
    ensures lib.hue(c) + offset >= 0 ==> r == lib.setHue(c, (lib.hue(c) + offset) % 360)
    ensures lib.hue(c) + offset < 0 && (lib.hue(c) + offset) % 360 != 0 ==>
      r == lib.setHue(c, (lib.hue(c) + offset) % 360 - 360)
  {
    JsRemSameAngle(lib.hue(c) + offset);
    lib.setHue(c, JsRem(lib.hue(c) + offset, 360))
  }

  /** The hue offsets, in degrees, that a scheme hands to `Rotated`, in the order it uses them. */
  function HueOffsets(s: Scheme): (o: seq<int>)
    ensures |o| <= 4
    ensures forall i :: 0 <= i < |o| ==> o[i] != 0 && -360 < o[i] < 360 && o[i] % 30 == 0
  {
    match s
    case Analogous => [-30, 30, 60, 90]
    case Triadic => [120, 240]
    case Complementary => [180]
    case SplitComplementary => [150, 210]
    case Monochromatic => []
  }

  /** The five colours of a scheme, in generation order, before sorting. */
  function SchemeColors<C>(lib: ColorLib<C>, base: C, s: Scheme): (colors: seq<C>)
    ensures |colors| == 5
    ensures base in colors
  {
    var o := HueOffsets(s);
    match s
    case Analogous =>
      [Rotated(lib, base, o[0]), base, Rotated(lib, base, o[1]), Rotated(lib, base, o[2]), Rotated(lib, base, o[3])]
    case Triadic =>
      [base, Rotated(lib, base, o[0]), Rotated(lib, base, o[1]),
       lib.brighten(Rotated(lib, base, o[0]), 1.0), lib.brighten(Rotated(lib, base, o[1]), 1.0)]
    case Complementary =>
      var complement := Rotated(lib, base, o[0]);
      [lib.darken(base, 1.5), base, lib.brighten(base, 1.0), lib.darken(complement, 0.5), lib.brighten(complement, 1.0)]
    case SplitComplementary =>
      [base, Rotated(lib, base, o[0]), Rotated(lib, base, o[1]),
       lib.brighten(Rotated(lib, base, o[0]), 1.0), lib.brighten(Rotated(lib, base, o[1]), 1.0)]
    case Monochromatic =>
      [lib.darken(base, 2.0), lib.darken(base, 1.0), base, lib.brighten(base, 1.0), lib.brighten(base, 2.0)]
  }

  /**
   * For a base hue in [0, 360) every positive offset lands back in [0, 360),
   * while the analogous scheme's -30 gives a negative hue exactly when the
   * base hue is below 30, because JavaScript's remainder is truncated.
   */
  lemma HueOffsetsInRange(h: int, s: Scheme, k: int)
    requires 0 <= h < 360 && k in HueOffsets(s)
    ensures k > 0 ==> 0 <= JsRem(h + k, 360) < 360
    ensures k < 0 ==> (JsRem(h + k, 360) < 0 <==> h < 30)
    ensures JsRem(h + k, 360) % 360 == (h + k) % 360
  {
    JsRemSameAngle(h + k);
  }

  ghost predicate SortedBy<C>(key: C -> real, s: seq<C>) {
    forall i, j :: 0 <= i < j < |s| ==> key(s[i]) <= key(s[j])
  }

  /** Places `c` before the first element that is at least as light, keeping equal keys in order. */
  function Insert<C>(key: C -> real, c: C, sorted: seq<C>): (r: seq<C>)
    requires SortedBy(key, sorted)
    ensures |r| == |sorted| + 1
    ensures r[0] == c || (sorted != [] && r[0] == sorted[0])
    ensures SortedBy(key, r)
    ensures multiset(r) == multiset(sorted) + multiset{c}
  {
    if sorted == [] || key(c) <= key(sorted[0]) then [c] + sorted
    else
      var rest := Insert(key, c, sorted[1..]);
      assert sorted == [sorted[0]] + sorted[1..];
      assert key(sorted[0]) <= key(rest[0]);
      [sorted[0]] + rest
  }

  /**
   * `Array.prototype.sort` with the comparator `(a, b) => key(a) - key(b)`:
   * a stable sort by ascending key.
   */
  function SortBy<C>(key: C -> real, s: seq<C>): (r: seq<C>)
    ensures SortedBy(key, r)
    ensures multiset(r) == multiset(s)
    ensures |r| == |s|
  {
    if s == [] then []
    else
      assert s == [s[0]] + s[1..];
      Insert(key, s[0], SortBy(key, s[1..]))
  }

  /** The elements of `s` whose key is `k`, in their order in `s`. */
  function WithKey<C>(key: C -> real, s: seq<C>, k: real): (r: seq<C>)
    ensures |r| <= |s|
  {
    if s == [] then []
    else (if key(s[0]) == k then [s[0]] else []) + WithKey(key, s[1..], k)
  }

  lemma WithKeyCons<C>(key: C -> real, x: C, s: seq<C>, k: real)
    ensures WithKey(key, [x] + s, k) == (if key(x) == k then [x] else []) + WithKey(key, s, k)
  {
    assert ([x] + s)[1..] == s;
  }

  /** `Insert` puts `c` before every element whose key equals its own. */
  lemma {:induction false} InsertKeepsTies<C>(key: C -> real, c: C, sorted: seq<C>, k: real)
    requires SortedBy(key, sorted)
    ensures WithKey(key, Insert(key, c, sorted), k)
      == (if key(c) == k then [c] else []) + WithKey(key, sorted, k)
  {
    if sorted == [] || key(c) <= key(sorted[0]) {
      WithKeyCons(key, c, sorted, k);
    } else {
      var rest := Insert(key, c, sorted[1..]);
      assert Insert(key, c, sorted) == [sorted[0]] + rest;
      InsertKeepsTies(key, c, sorted[1..], k);
      WithKeyCons(key, sorted[0], rest, k);
      WithKeyCons(key, sorted[0], sorted[1..], k);
      assert sorted == [sorted[0]] + sorted[1..];
    }
  }

  /**
   * The sort is stable: the elements that share a key come out in the order
   * they went in.
   */
  lemma {:induction false} SortByStable<C>(key: C -> real, s: seq<C>, k: real)
    ensures WithKey(key, SortBy(key, s), k) == WithKey(key, s, k)
  {
    if s != [] {
      SortByStable(key, s[1..], k);
      InsertKeepsTies(key, s[0], SortBy(key, s[1..]), k);
    }
  }

  /** Sorting a list that is already in order returns it unchanged. */
  lemma {:induction false} SortBySortedIsIdentity<C>(key: C -> real, s: seq<C>)
    requires SortedBy(key, s)
    ensures SortBy(key, s) == s
  {
    if s != [] {
      SortBySortedIsIdentity(key, s[1..]);
      assert s == [s[0]] + s[1..];
    }
  }

  /** Sorting twice is sorting once. */
  lemma SortByIdempotent<C>(key: C -> real, s: seq<C>)
    ensures SortBy(key, SortBy(key, s)) == SortBy(key, s)
  {
    SortBySortedIsIdentity(key, SortBy(key, s));
  }

  /**
   * `generateColorScheme` once its base colour is known: the scheme's five
   * colours sorted by luminance; an unknown name builds the complementary
   * scheme through a recursive call and sorts its result again.
   */
  function ColorScheme<C>(lib: ColorLib<C>, base: C, scheme: string): (colors: seq<C>)
    ensures |colors| == 5
    ensures base in colors
    ensures SortedBy(lib.luminance, colors)
    ensures SchemeOf(scheme).Some? ==>
      multiset(colors) == multiset(SchemeColors(lib, base, SchemeOf(scheme).value))
    ensures SchemeOf(scheme).None? ==>
      multiset(colors) == multiset(SchemeColors(lib, base, Complementary))
    decreases if SchemeOf(scheme).Some? then 0 else 1
  {
    match SchemeOf(scheme)
    case Some(s) =>
      var colors := SortBy(lib.luminance, SchemeColors(lib, base, s));
      assert base in multiset(SchemeColors(lib, base, s));
      assert base in multiset(colors);
      colors
    case None =>
      var complementary := ColorScheme(lib, base, SchemeName(Complementary));
      var colors := SortBy(lib.luminance, complementary);
      assert base in multiset(complementary);
      assert base in multiset(colors);
      colors
  }

  /** An unrecognised scheme name gives exactly the complementary scheme's colours, in the same order. */
  lemma UnknownSchemeIsComplementary<C>(lib: ColorLib<C>, base: C, scheme: string)
    requires SchemeOf(scheme).None?
    ensures ColorScheme(lib, base, scheme) == ColorScheme(lib, base, SchemeName(Complementary))
  {
    var once := SortBy(lib.luminance, SchemeColors(lib, base, Complementary));
    assert SchemeOf(SchemeName(Complementary)) == Some(Complementary);
    assert ColorScheme(lib, base, SchemeName(Complementary)) == once;
    assert ColorScheme(lib, base, scheme) == SortBy(lib.luminance, once);
    SortByIdempotent(lib.luminance, SchemeColors(lib, base, Complementary));
  }

  /**
   * `generateColorScheme(baseColor, scheme)`: the base colour is the given
   * string when it is non-empty (the empty string stands for a missing one,
   * both being falsy) and the library's random colour otherwise; a string the
   * library cannot read makes the call throw.
   */
  function GenerateColorScheme<C>(lib: ColorLib<C>, baseColor: string, randomColor: C, scheme: string)
    : (r: Option<seq<C>>)
    ensures r.None? <==> baseColor != "" && lib.parse(baseColor).None?
    ensures r.Some? ==> |r.value| == 5 && SortedBy(lib.luminance, r.value)
    ensures r.Some? && baseColor == "" ==> randomColor in r.value
    ensures r.Some? && baseColor != "" ==> lib.parse(baseColor).value in r.value
    ensures r.Some? ==>
      var base := if baseColor == "" then randomColor else lib.parse(baseColor).value;
      multiset(r.value) == multiset(SchemeColors(lib, base, SchemeOf(scheme).GetOr(Complementary)))
  {
    if baseColor == "" then Some(ColorScheme(lib, randomColor, scheme))
    else match lib.parse(baseColor)
      case None => None
      case Some(base) => Some(ColorScheme(lib, base, scheme))
  }

  datatype Metadata = Metadata(baseColor: string, scheme: string)

  /** A generated palette: five hex strings and where they came from. */
  datatype Palette = Palette(colors: seq<string>, metadata: Metadata)

  function Hexes<C>(lib: ColorLib<C>, cs: seq<C>): (r: seq<string>)
    ensures |r| == |cs|
    ensures forall i :: 0 <= i < |cs| ==> r[i] == lib.hex(cs[i])
  {
    if cs == [] then [] else [lib.hex(cs[0])] + Hexes(lib, cs[1..])
  }

  /**
   * `generatePalette(baseColor)`: a scheme picked by `Math.random()` (the
   * parameter `random`), the sorted colours as hex strings, and metadata.
   * Any failure while generating yields no palette at all.
   */
  function GeneratePalette<C>(lib: ColorLib<C>, baseColor: string, random: real, randomColor: C)
    : (r: Option<Palette>)
    requires 0.0 <= random < 1.0
    ensures r.None? <==> baseColor != "" && lib.parse(baseColor).None?
    ensures r.Some? ==> |r.value.colors| == 5
    ensures r.Some? ==> SchemeOf(r.value.metadata.scheme).Some?
    ensures r.Some? ==> r.value.metadata.scheme == SchemeName(Schemes[RandomIndex(random, |Schemes|)])
    ensures r.Some? ==> r.value.metadata.baseColor == if baseColor != "" then baseColor else r.value.colors[2]
    ensures r.Some? ==>
      var sorted := GenerateColorScheme(lib, baseColor, randomColor, r.value.metadata.scheme);
      sorted.Some? && forall i :: 0 <= i < 5 ==> r.value.colors[i] == lib.hex(sorted.value[i])
  {
    var scheme := SchemeName(Schemes[RandomIndex(random, |Schemes|)]);
    match GenerateColorScheme(lib, baseColor, randomColor, scheme)
    case None => None
    case Some(colors) =>
      var hexes := Hexes(lib, colors);
      Some(Palette(hexes, Metadata(if baseColor != "" then baseColor else hexes[2], scheme)))
  }

  /** Whether `random` is a value of `Math.random()` for which the palette is built with scheme `s`. */
  ghost predicate PicksScheme<C>(lib: ColorLib<C>, baseColor: string, random: real, randomColor: C, s: Scheme) {
    && 0.0 <= random < 1.0
    && GeneratePalette(lib, baseColor, random, randomColor).Some?
    && GeneratePalette(lib, baseColor, random, randomColor).value.metadata.scheme == SchemeName(s)
  }

  /** The palette built for `random` uses the scheme at `Math.floor(random * 5)`. */
  lemma PicksDrawnScheme<C>(lib: ColorLib<C>, baseColor: string, random: real, randomColor: C)
    requires 0.0 <= random < 1.0
    requires baseColor == "" || lib.parse(baseColor).Some?
    ensures PicksScheme(lib, baseColor, random, randomColor, Schemes[RandomIndex(random, |Schemes|)])
  {
  }

  /** Every scheme is the one picked for some value of `Math.random()`. */
  lemma EverySchemeCanBePicked<C>(lib: ColorLib<C>, baseColor: string, randomColor: C, s: Scheme)
    requires baseColor == "" || lib.parse(baseColor).Some?
    ensures exists random :: PicksScheme(lib, baseColor, random, randomColor, s)
  {
    var k := match s
      case Analogous => 0
      case Triadic => 1
      case Complementary => 2
      case SplitComplementary => 3
      case Monochromatic => 4;
    RandomIndexReaches(k, 5);
    var random := k as real / 5 as real;
    assert Schemes[k] == s;
    PicksDrawnScheme(lib, baseColor, random, randomColor);
  }

  /**
   * `validateContrast(color1, color2)`: whether the library's contrast ratio
   * reaches 4.5, the boundary included. The library throws on a string it
   * cannot read, which is the `None` result.
   */
  function ValidateContrast<C>(lib: ColorLib<C>, color1: string, color2: string): (r: Option<bool>)
    ensures r.None? <==> lib.parse(color1).None? || lib.parse(color2).None?
    ensures r.Some? ==> (r.value <==> lib.contrast(lib.parse(color1).value, lib.parse(color2).value) >= 4.5)
  {
    match (lib.parse(color1), lib.parse(color2))
    case (Some(c1), Some(c2)) => Some(lib.contrast(c1, c2) >= 4.5)
    case _ => None
  }

  /** A pair at least as contrasting as one that passes also passes; a ratio of exactly 4.5 passes. */
  lemma ValidateContrastMonotone<C>(lib: ColorLib<C>, a1: string, a2: string, b1: string, b2: string)
    requires ValidateContrast(lib, a1, a2) == Some(true) && ValidateContrast(lib, b1, b2).Some?
    requires lib.contrast(lib.parse(b1).value, lib.parse(b2).value)
          >= lib.contrast(lib.parse(a1).value, lib.parse(a2).value)
    ensures ValidateContrast(lib, b1, b2) == Some(true)
  {
  }
}
