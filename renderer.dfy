/** The stimulus renderer base classes (`StimulusRenderer` in the recorder and
    the projector, `StimulusBase` in both stimulus trees): frame counting over
    a stimulus's lifespan, the projector's skip and stamp decisions, and the
    conversions between `#rrggbb` colours (section 5.2 of CSS Color Module
    Level 4) and red, green and blue channels. */
module Renderers {
  import opened Wrappers
  import opened Ints
  import opened Text

  type Channel = x: int | 0 <= x < 256

  /** The `{ r, g, b }` object `hexToRgb` returns. */
  datatype Rgb = Rgb(r: Channel, g: Channel, b: Channel)

  /** `n.toString(16)`: the hexadecimal numeral of `n`, without leading
      zeros. */
  function HexNumeral(n: nat): (s: string)
    ensures |s| >= 1 && forall i | 0 <= i < |s| :: IsLowerHex(s[i])
  {
    if n < 16 then [HexDigit(n)] else HexNumeral(n / 16) + [HexDigit(n % 16)]
  }

  /** `(1 << 24) + (red << 16) + (green << 8) + blue`. */
  function Packed(red: Channel, green: Channel, blue: Channel): nat {
    0x100_0000 + red * 0x1_0000 + green * 0x100 + blue
  }

  /** The six digits of the channels, two per channel, high digit first. */
  function SixDigits(red: Channel, green: Channel, blue: Channel): string {
    [HexDigit(red / 16), HexDigit(red % 16), HexDigit(green / 16), HexDigit(green % 16),
     HexDigit(blue / 16), HexDigit(blue % 16)]
  }

  /** The packed value is 1 followed by six hex digits, so its numeral is "1"
      and then each channel's two digits, zero-padded. */
  lemma {:induction false} PackedNumeral(red: Channel, green: Channel, blue: Channel)
    ensures HexNumeral(Packed(red, green, blue)) == "1" + SixDigits(red, green, blue)
  {
    var n0 := Packed(red, green, blue);
    var n1 := 0x10_0000 + red * 0x1000 + green * 0x10 + blue / 16;
    var n2 := 0x1_0000 + red * 0x100 + green;
    var n3 := 0x1000 + red * 0x10 + green / 16;
    var n4 := 0x100 + red;
    var n5 := 0x10 + red / 16;
    DivModUnique(n0, 16, n1, blue % 16);
    DivModUnique(n1, 16, n2, blue / 16);
    DivModUnique(n2, 16, n3, green % 16);
    DivModUnique(n3, 16, n4, green / 16);
    DivModUnique(n4, 16, n5, red % 16);
    DivModUnique(n5, 16, 1, red / 16);
    assert HexNumeral(n5) == "1" + [HexDigit(red / 16)];
    assert HexNumeral(n4) == HexNumeral(n5) + [HexDigit(red % 16)];
    assert HexNumeral(n3) == HexNumeral(n4) + [HexDigit(green / 16)];
    assert HexNumeral(n2) == HexNumeral(n3) + [HexDigit(green % 16)];
    assert HexNumeral(n1) == HexNumeral(n2) + [HexDigit(blue / 16)];
    assert HexNumeral(n0) == HexNumeral(n1) + [HexDigit(blue % 16)];
  }

  /** `rgbToHex`: '#' and the numeral of the packed value without its
      leading 1, which is '#' followed by exactly six lower-case hex digits,
      two per channel. */
  function RgbToHex(red: Channel, green: Channel, blue: Channel): (s: string)
    ensures s == "#" + SixDigits(red, green, blue)
    ensures |s| == 7 && s[0] == '#' && forall i | 1 <= i < 7 :: IsLowerHex(s[i])
  {
    PackedNumeral(red, green, blue);
    "#" + HexNumeral(Packed(red, green, blue))[1..]
  }

  const CONVERT_ERROR: string := "Failed to convert hex to RGB"

  /** What the patterns `^#?(...)$` match after the optional '#'. */
  function Body(hex: string): string {
    if |hex| > 0 && hex[0] == '#' then hex[1..] else hex
  }

  predicate AllHex(s: string) {
    forall i | 0 <= i < |s| :: IsHexDigit(s[i])
  }

  /** The shorthand replacement: a whole string of three hex digits, with or
      without '#', becomes the six digits with each one doubled (the '#' is
      part of the match and is dropped); any other string is unchanged. */
  function ExpandShorthand(hex: string): (e: string)
    ensures var b := Body(hex); |b| == 3 && AllHex(b) ==> e == [b[0], b[0], b[1], b[1], b[2], b[2]]
    ensures var b := Body(hex); !(|b| == 3 && AllHex(b)) ==> e == hex
  {
    var b := Body(hex);
    if |b| == 3 && AllHex(b) then [b[0], b[0], b[1], b[1], b[2], b[2]] else hex
  }

  /** `parseInt` of a pair of hex digits. */
  function PairValue(hi: char, lo: char): (v: Channel)
    requires IsHexDigit(hi) && IsHexDigit(lo)
    ensures v == HexValue(hi) * 16 + HexValue(lo)
  {
    HexValue(hi) * 16 + HexValue(lo)
  }

  /** The six-digit pattern `^#?([a-f\d]{2})([a-f\d]{2})([a-f\d]{2})$` with
      the `i` flag, and the channels it captures. */
  function MatchSix(s: string): (c: Option<Rgb>)
    ensures c.Some? <==> |Body(s)| == 6 && AllHex(Body(s))
  {
    var b := Body(s);
    if |b| == 6 && AllHex(b) then Some(Rgb(PairValue(b[0], b[1]), PairValue(b[2], b[3]), PairValue(b[4], b[5])))
    else None
  }

  /** `hexToRgb` of the renderers: expand the shorthand, then match six hex
      digits or throw. */
  function HexToRgb(hex: string): (r: Result<Rgb>)
    ensures r.Ok? <==> |Body(ExpandShorthand(hex))| == 6 && AllHex(Body(ExpandShorthand(hex)))
    ensures r.Throw? ==> r.message == CONVERT_ERROR
  {
    match MatchSix(ExpandShorthand(hex))
    case Some(c) => Ok(c)
    case None => Throw(CONVERT_ERROR)
  }

  /** `hexToRgb` of the recorder's `StimulusBase` as intended: null (`None`)
      where the renderers' version throws, the same channels otherwise. */
  function HexToRgbOrNull(hex: string): (c: Option<Rgb>)
    ensures c.None? <==> HexToRgb(hex).Throw?
    ensures c.Some? ==> HexToRgb(hex) == Ok(c.value)
  {
    MatchSix(ExpandShorthand(hex))
  }

  /** `hexToRgb` of the recorder's `StimulusBase` as written: it assigns the
      expanded string to `hexReplace`, a name declared nowhere, which in the
      strict mode of an ES module throws a ReferenceError on every call. */
  function HexToRgbAsWritten(hex: string): (r: Result<Option<Rgb>>)
    ensures r == Throw("hexReplace is not defined")
  {
    Throw("hexReplace is not defined")
  }

  /** Converting a colour to hex and back gives the same channels. */
  lemma {:induction false} HexRoundTrip(red: Channel, green: Channel, blue: Channel)
    ensures HexToRgb(RgbToHex(red, green, blue)) == Ok(Rgb(red, green, blue))
    ensures HexToRgbOrNull(RgbToHex(red, green, blue)) == Some(Rgb(red, green, blue))
  {
    var s := RgbToHex(red, green, blue);
    var b := SixDigits(red, green, blue);
    assert Body(s) == b;
    assert ExpandShorthand(s) == s;
    ChannelDigits(red);
    ChannelDigits(green);
    ChannelDigits(blue);
    assert MatchSix(s) == Some(Rgb(PairValue(b[0], b[1]), PairValue(b[2], b[3]), PairValue(b[4], b[5])));
  }

  /** A channel's two hex digits read back as the channel. */
  lemma {:induction false} ChannelDigits(c: Channel)
    ensures PairValue(HexDigit(c / 16), HexDigit(c % 16)) == c
  {
  }

  /** As written, the recorder's `StimulusBase` cannot convert even the
      colours its own `rgbToHex` produces. */
  lemma {:induction false} HexToRgbAsWrittenFails(red: Channel, green: Channel, blue: Channel)
    ensures HexToRgbAsWritten(RgbToHex(red, green, blue)) != Ok(Some(Rgb(red, green, blue)))
    ensures HexToRgbOrNull(RgbToHex(red, green, blue)) == Some(Rgb(red, green, blue))
  {
    HexRoundTrip(red, green, blue);
  }

  /** The shorthand `#rgb` (with or without '#') means `#rrggbb`: each digit
      is doubled, so each channel is 17 times the digit's value. */
  lemma {:induction false} ShorthandDoubles(hash: bool, d0: char, d1: char, d2: char)
    requires IsHexDigit(d0) && IsHexDigit(d1) && IsHexDigit(d2)
    ensures var short := (if hash then "#" else "") + [d0, d1, d2];
      && HexToRgb(short) == HexToRgb([d0, d0, d1, d1, d2, d2])
      && HexToRgb(short) == Ok(Rgb(17 * HexValue(d0), 17 * HexValue(d1), 17 * HexValue(d2)))
  {
    var short := (if hash then "#" else "") + [d0, d1, d2];
    var long := [d0, d0, d1, d1, d2, d2];
    assert Body(short) == [d0, d1, d2];
    assert ExpandShorthand(long) == long;
  }

  /** The '#' is optional: a string that does not start with '#' converts
      the same with or without one in front. */
  lemma {:induction false} HashOptional(s: string)
    requires |s| == 0 || s[0] != '#'
    ensures HexToRgb("#" + s) == HexToRgb(s)
  {
    assert Body("#" + s) == s == Body(s);
  }

  /** JavaScript's `toLowerCase` on the letters A to Z. */
  function LowerChar(c: char): (d: char)
    ensures IsHexDigit(d) <==> IsHexDigit(c)
    ensures IsHexDigit(c) ==> HexValue(d) == HexValue(c)
    ensures d == '#' <==> c == '#'
  {
    if 'A' <= c <= 'Z' then (c as int - 'A' as int + 'a' as int) as char else c
  }

  function Lower(s: string): (t: string)
    ensures |t| == |s| && forall i | 0 <= i < |s| :: t[i] == LowerChar(s[i])
  {
    seq(|s|, i requires 0 <= i < |s| => LowerChar(s[i]))
  }

  lemma {:induction false} AllHexLower(s: string)
    ensures AllHex(Lower(s)) <==> AllHex(s)
  {
    if !AllHex(s) {
      var i :| 0 <= i < |s| && !IsHexDigit(s[i]);
      assert !IsHexDigit(Lower(s)[i]);
    }
  }

  lemma {:induction false} BodyLower(s: string)
    ensures Body(Lower(s)) == Lower(Body(s))
  {
  }

  lemma {:induction false} ExpandLower(hex: string)
    ensures ExpandShorthand(Lower(hex)) == Lower(ExpandShorthand(hex))
  {
    BodyLower(hex);
    AllHexLower(Body(hex));
  }

  lemma {:induction false} MatchSixLower(s: string)
    ensures MatchSix(Lower(s)) == MatchSix(s)
  {
    BodyLower(s);
    AllHexLower(Body(s));
  }

  /** The patterns carry the `i` flag: the case of the letters does not
      matter. */
  lemma {:induction false} CaseInsensitive(hex: string)
    ensures HexToRgb(Lower(hex)) == HexToRgb(hex)
  {
    ExpandLower(hex);
    MatchSixLower(ExpandShorthand(hex));
  }

  const RENDER_ERROR: string := "Derived classes must implement the render() function"

  /** `Math.ceil` on a real: the least integer not below it. */
  function Ceil(x: real): (n: int)
    ensures n as real >= x && (n - 1) as real < x
  {
    -((-x).Floor)
  }

  /** The frame numbers for which `hasFrames` holds are exactly 0 up to the
      frame count rounded up: a stimulus renders ceil(lifespan * fps)
      frames. */
  lemma {:induction false} FramesRendered(frameCount: real, frameNumber: nat)
    ensures frameNumber as real < frameCount <==> frameNumber < Ceil(frameCount)
  {
  }

  class StimulusRenderer {
    const stimulusType: string
    const lifespan: real
    /** `videoInfo.fps` and, in the projector, `videoInfo.stampFrames`. */
    const fps: real
    const stampFrames: bool
    /** Advanced by the derived renderers as they draw. */
    var frameNumber: nat
    var frameCount: real

    /** The constructor: frame 0 of lifespan * fps frames. */
    constructor (stimulusType0: string, lifespan0: real, fps0: real, stampFrames0: bool)
      ensures stimulusType == stimulusType0 && lifespan == lifespan0 && fps == fps0
      ensures stampFrames == stampFrames0
      ensures frameNumber == 0 && frameCount == lifespan0 * fps0
    {
      stimulusType, lifespan, fps, stampFrames := stimulusType0, lifespan0, fps0, stampFrames0;
      frameNumber := 0;
      frameCount := lifespan0 * fps0;
    }

    /** `hasFrames`: there are frames left to draw. */
    predicate HasFrames()
      reads this
    {
      frameNumber as real < frameCount
    }

    /** `canSkipRendering` (projector): the first frame, and every frame
        when frames are stamped, must be drawn; any other may be skipped. */
    function CanSkipRendering(): (skip: bool)
      reads this
      ensures !skip <==> frameNumber == 0 || stampFrames
    {
      !(frameNumber == 0 || stampFrames)
    }

    /** `stampFrame` (projector): the text drawn on the frame, nothing when
        frames are not stamped. */
    function StampText(): (text: Option<string>)
      reads this
      ensures text.None? <==> !stampFrames
      ensures text.Some? ==> text.value == stimulusType + " " + NatToString(frameNumber)
      ensures text.Some? ==> DigitsValue(text.value[|stimulusType| + 1..]) == frameNumber
    {
      if !stampFrames then None
      else
        DigitsValueOfNatToString(frameNumber);
        assert (stimulusType + " " + NatToString(frameNumber))[|stimulusType| + 1..] == NatToString(frameNumber);
        Some(stimulusType + " " + NatToString(frameNumber))
    }

    /** The base `render` always throws. */
    function Render(): (r: Result<()>)
      ensures r.Throw? && r.message == RENDER_ERROR
    {
      Throw(RENDER_ERROR)
    }
  }
}
