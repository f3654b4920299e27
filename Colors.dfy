/**
 * Hex-colour parsing and the per-row colour gradient (src/utils/colors.ts).
 * The `rgb(...)` / `rgba(...)` strings are represented by their channel values.
 */
module Colors {
  import opened GameTypes
  import opened Numbers

  datatype Rgb = Rgb(r: int, g: int, b: int)

  /** The `rgba(r, g, b, alpha)` colour. */
  datatype Rgba = Rgba(rgb: Rgb, alpha: real)

  /** A hex digit of `[a-f\d]` under the `i` flag, with its value. */
  function HexDigit(c: char): (r: Option<nat>)
    ensures r.Some? ==> r.value < 16
    ensures r.Some? <==> ('0' <= c <= '9' || 'a' <= c <= 'f' || 'A' <= c <= 'F')
  {
    if '0' <= c <= '9' then Some(c as nat - '0' as nat)
    else if 'a' <= c <= 'f' then Some(c as nat - 'a' as nat + 10)
    else if 'A' <= c <= 'F' then Some(c as nat - 'A' as nat + 10)
    else None
  }

  predicate AllHexDigits(s: string)
  {
    forall i :: 0 <= i < |s| ==> HexDigit(s[i]).Some?
  }

  /** `^#?([a-f\d]{2}){3}$` with the `i` flag: six hex digits, optionally after one `#`. */
  predicate MatchesHexPattern(hex: string)
  {
    (|hex| == 6 && AllHexDigits(hex)) || (|hex| == 7 && hex[0] == '#' && AllHexDigits(hex[1..]))
  }

  /** `parseInt(pair, 16)` of two hex digits. */
  function PairValue(hi: char, lo: char): (v: nat)
    requires HexDigit(hi).Some? && HexDigit(lo).Some?
    ensures v <= 255
  {
    HexDigit(hi).value * 16 + HexDigit(lo).value
  }

  /** `hexToRgb`: the three pairs, or black when the string does not match. */
  function HexToRgb(hex: string): (c: Rgb)
    ensures 0 <= c.r <= 255 && 0 <= c.g <= 255 && 0 <= c.b <= 255
    ensures !MatchesHexPattern(hex) ==> c == Rgb(0, 0, 0)
  {
    if !MatchesHexPattern(hex) then Rgb(0, 0, 0)
    else
      var d := if |hex| == 7 then hex[1..] else hex;
      assert HexDigit(d[0]).Some? && HexDigit(d[1]).Some? && HexDigit(d[2]).Some?;
      assert HexDigit(d[3]).Some? && HexDigit(d[4]).Some? && HexDigit(d[5]).Some?;
      Rgb(PairValue(d[0], d[1]), PairValue(d[2], d[3]), PairValue(d[4], d[5]))
  }

  /** Lower-case hex digit of a value below 16: the inverse of `HexDigit`. */
  function ToHexDigit(v: nat): (c: char)
    requires v < 16
    ensures HexDigit(c) == Some(v)
  {
    if v < 10 then ('0' as nat + v) as char else ('a' as nat + v - 10) as char
  }

  /** `#rrggbb` of three channels in 0..255. */
  function FormatHex(c: Rgb): (s: string)
    requires 0 <= c.r <= 255 && 0 <= c.g <= 255 && 0 <= c.b <= 255
    ensures |s| == 7 && s[0] == '#'
  {
    ['#', ToHexDigit(c.r / 16), ToHexDigit(c.r % 16), ToHexDigit(c.g / 16), ToHexDigit(c.g % 16),
     ToHexDigit(c.b / 16), ToHexDigit(c.b % 16)]
  }

  /** Parsing a formatted colour gives it back, with or without the `#`. */
  lemma HexRoundTrip(c: Rgb)
    requires 0 <= c.r <= 255 && 0 <= c.g <= 255 && 0 <= c.b <= 255
    ensures HexToRgb(FormatHex(c)) == c
    ensures HexToRgb(FormatHex(c)[1..]) == c
  {
    var s := FormatHex(c);
    assert AllHexDigits(s[1..]);
    assert s[1..][1..] == s[2..];
  }

  /** Upper- and lower-case letters parse alike. */
  lemma CaseInsensitive(c: char)
    requires 'a' <= c <= 'f'
    ensures HexDigit(c) == HexDigit((c as int - 32) as char)
  {
  }

  lemma LayerConfigColors()
    ensures HexToRgb("#3b82f6") == Rgb(59, 130, 246)
    ensures HexToRgb("#ec4899") == Rgb(236, 72, 153)
    ensures HexToRgb("#10b981") == Rgb(16, 185, 129)
    ensures HexToRgb("#eab308") == Rgb(234, 179, 8)
  {
    assert MatchesHexPattern("#3b82f6") by { assert AllHexDigits("#3b82f6"[1..]); }
    assert MatchesHexPattern("#ec4899") by { assert AllHexDigits("#ec4899"[1..]); }
    assert MatchesHexPattern("#10b981") by { assert AllHexDigits("#10b981"[1..]); }
    assert MatchesHexPattern("#eab308") by { assert AllHexDigits("#eab308"[1..]); }
  }

  /** `LAYER_CONFIGS[layer] || LAYER_CONFIGS[0]`. */
  function LayerConfigFor(layer: int): (c: LayerConfig)
    ensures 0 <= layer < |LAYER_CONFIGS| ==> c == LAYER_CONFIGS[layer]
    ensures !(0 <= layer < |LAYER_CONFIGS|) ==> c == LAYER_CONFIGS[0]
  {
    if 0 <= layer < |LAYER_CONFIGS| then LAYER_CONFIGS[layer] else LAYER_CONFIGS[0]
  }

  /** `Math.round(start + (end - start) * progress)`. */
  function Interpolate(start: int, end: int, progress: real): int
  {
    Round(start as real + (end - start) as real * progress)
  }

  /** The three channels interpolated at `progress`. */
  function Blend(from: Rgb, to: Rgb, progress: real): Rgb
  {
    Rgb(Interpolate(from.r, to.r, progress), Interpolate(from.g, to.g, progress), Interpolate(from.b, to.b, progress))
  }

  /** `getSquareColor(row, layer, totalRows)`; `totalRows == 1` would divide by zero. */
  function GetSquareColor(row: int, layer: int, totalRows: int): Rgb
    requires totalRows != 1
  {
    var config := LayerConfigFor(layer);
    Blend(HexToRgb(config.colorFrom), HexToRgb(config.colorTo), row as real / (totalRows - 1) as real)
  }

  /** `getSquareColorWithAlpha(row, alpha, layer, totalRows)`. */
  function GetSquareColorWithAlpha(row: int, alpha: real, layer: int, totalRows: int): Rgba
    requires totalRows != 1
  {
    var config := LayerConfigFor(layer);
    Rgba(Blend(HexToRgb(config.colorFrom), HexToRgb(config.colorTo), row as real / (totalRows - 1) as real), alpha)
  }

  /** Both colour getters agree on the channels. */
  lemma AlphaVariantSameChannels(row: int, alpha: real, layer: int, totalRows: int)
    requires totalRows != 1
    ensures GetSquareColorWithAlpha(row, alpha, layer, totalRows) == Rgba(GetSquareColor(row, layer, totalRows), alpha)
  {
  }

  /** A layer index outside the table is drawn with layer 0's gradient. */
  lemma UnknownLayerFallsBack(row: int, layer: int, totalRows: int)
    requires totalRows != 1
    requires !(0 <= layer < |LAYER_CONFIGS|)
    ensures GetSquareColor(row, layer, totalRows) == GetSquareColor(row, 0, totalRows)
  {
  }

  lemma InterpolateEndpoints(start: int, end: int)
    ensures Interpolate(start, end, 0.0) == start
    ensures Interpolate(start, end, 1.0) == end
  {
    RoundOfInt(start);
    RoundOfInt(end);
  }

  lemma BlendEndpoints(from: Rgb, to: Rgb)
    ensures Blend(from, to, 0.0) == from && Blend(from, to, 1.0) == to
  {
    InterpolateEndpoints(from.r, to.r);
    InterpolateEndpoints(from.g, to.g);
    InterpolateEndpoints(from.b, to.b);
  }

  /** The first row is drawn in `colorFrom` and the last in `colorTo`. */
  lemma GradientEndpoints(layer: int, totalRows: int)
    requires totalRows != 1
    ensures var from := HexToRgb(LayerConfigFor(layer).colorFrom);
            GetSquareColor(0, layer, totalRows) == from
    ensures var to := HexToRgb(LayerConfigFor(layer).colorTo);
            GetSquareColor(totalRows - 1, layer, totalRows) == to
  {
    var config := LayerConfigFor(layer);
    assert 0 as real / (totalRows - 1) as real == 0.0;
    assert (totalRows - 1) as real / (totalRows - 1) as real == 1.0;
    BlendEndpoints(HexToRgb(config.colorFrom), HexToRgb(config.colorTo));
  }

  lemma InterpolateBetween(start: int, end: int, progress: real)
    requires 0.0 <= progress <= 1.0
    ensures Min(start, end) <= Interpolate(start, end, progress) <= Max(start, end)
  {
    var d := (end - start) as real * progress;
    var x := start as real + d;
    if start <= end {
      var c := (end - start) as real;
      ScaleBetween(c, progress);
      assert d == c * progress;
      RoundBetween(x, start, end);
    } else {
      var c := (start - end) as real;
      ScaleBetween(c, progress);
      assert d == -(c * progress);
      RoundBetween(x, end, start);
    }
  }

  lemma ProgressInUnitInterval(row: int, totalRows: int)
    requires totalRows >= 2 && 0 <= row <= totalRows - 1
    ensures 0.0 <= row as real / (totalRows - 1) as real <= 1.0
  {
  }

  /** On the grid's rows every channel lies between its start and end values, hence in 0..255. */
  lemma ChannelsBetweenEnds(row: int, layer: int, totalRows: int)
    requires totalRows >= 2 && 0 <= row <= totalRows - 1
    ensures var s := HexToRgb(LayerConfigFor(layer).colorFrom);
            var e := HexToRgb(LayerConfigFor(layer).colorTo);
            var c := GetSquareColor(row, layer, totalRows);
            Min(s.r, e.r) <= c.r <= Max(s.r, e.r) && Min(s.g, e.g) <= c.g <= Max(s.g, e.g)
            && Min(s.b, e.b) <= c.b <= Max(s.b, e.b)
    ensures var c := GetSquareColor(row, layer, totalRows);
            0 <= c.r <= 255 && 0 <= c.g <= 255 && 0 <= c.b <= 255
  {
    var config := LayerConfigFor(layer);
    var s, e := HexToRgb(config.colorFrom), HexToRgb(config.colorTo);
    var progress := row as real / (totalRows - 1) as real;
    ProgressInUnitInterval(row, totalRows);
    InterpolateBetween(s.r, e.r, progress);
    InterpolateBetween(s.g, e.g, progress);
    InterpolateBetween(s.b, e.b, progress);
  }
}
