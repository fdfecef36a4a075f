/** Glyph metrics and layout of the configurable watch face: digit widths,
    the centred row of four digit glyphs and the separator dots between
    the hour and minute groups, on a 144-unit-wide canvas. */
module Layout {
  import opened Common
  import opened Settings

  const CANVAS_WIDTH := 144
  /** Width reserved for the gaps around and between the glyphs. */
  const PADDING := 20
  /** Gap between the two digits of a group. */
  const DIGIT_GAP := 4

  const WIDTHS: seq<int> := [31, 11, 29, 26, 29, 28, 29, 29, 29, 29]

  /** The "safe width getter": a digit's glyph width, 0 outside 0..9. */
  function GetWidth(idx: int): (w: int)
    ensures 0 <= idx <= 9 ==> 11 <= w <= 31
    ensures !(0 <= idx <= 9) ==> w == 0
  {
    if 0 <= idx <= 9 then WIDTHS[idx] else 0
  }

  /** Hour glyph of a digit, bold or regular as configured. */
  function GetImageHour(c: Config, idx: int): (r: ResourceId)
    ensures r == Blank <==> !(0 <= idx <= 9)
    ensures r != Blank ==> r.Digit() == idx && r.IsBold() == c.hhInBold
  {
    GlyphImage(c.hhInBold, idx)
  }

  /** Minute glyph of a digit, bold or regular as configured. */
  function GetImageMin(c: Config, idx: int): (r: ResourceId)
    ensures r == Blank <==> !(0 <= idx <= 9)
    ensures r != Blank ==> r.Digit() == idx && r.IsBold() == c.mmInBold
  {
    GlyphImage(c.mmInBold, idx)
  }

  /** Total width of the row: four glyph widths plus the padding. Even
      "0000", the widest row, fills the canvas exactly (4 * 31 + 20). */
  function GetTotalWidth(d: Digits): (t: int)
    ensures PADDING <= t <= CANVAS_WIDTH
  {
    GetWidth(d.h1) + GetWidth(d.h2) + GetWidth(d.m1) + GetWidth(d.m2) + PADDING
  }

  /** Left end of the centred row. The dividend is never negative, so
      Dafny's division agrees with C's. */
  function StartX(d: Digits): (x: int)
    ensures 0 <= x <= (CANVAS_WIDTH - PADDING) / 2
  {
    (CANVAS_WIDTH - GetTotalWidth(d)) / 2
  }

  /** The start leaves equal margins, up to the one odd unit. */
  lemma StartXCentres(d: Digits)
    ensures var t := GetTotalWidth(d);
            0 <= StartX(d) && 2 * StartX(d) + t <= CANVAS_WIDTH <= 2 * StartX(d) + t + 1
    ensures GetTotalWidth(d) == Sum(Widths(d)) + PADDING
  {
    SumOfFour(Widths(d));
  }

  /** Gap in front of the first hour digit. */
  function LeadGap(timeSep: int): int {
    if timeSep == TIME_SEP_NONE then 2 else 1
  }

  /** Gap between the hour group and the minute group; wider when a
      separator is drawn there. */
  function GroupGap(timeSep: int): int {
    if timeSep == TIME_SEP_NONE then 8 else 10
  }

  function Sum(s: seq<int>): int
    decreases |s|
  {
    if s == [] then 0 else Sum(s[..|s| - 1]) + s[|s| - 1]
  }

  /** Widths of the four glyphs, in screen order. */
  function Widths(d: Digits): seq<int> {
    [GetWidth(d.h1), GetWidth(d.h2), GetWidth(d.m1), GetWidth(d.m2)]
  }

  /** The gap in front of each of the four glyphs. */
  function Gaps(timeSep: int): seq<int> {
    [LeadGap(timeSep), DIGIT_GAP, GroupGap(timeSep), DIGIT_GAP]
  }

  /** Canvas x of glyph `i`: the row start plus every gap up to it and
      every width before it. */
  function GlyphX(d: Digits, timeSep: int, i: int): int
    requires 0 <= i < 4
  {
    StartX(d) + Sum(Gaps(timeSep)[..i + 1]) + Sum(Widths(d)[..i])
  }

  function DigitAt(d: Digits, i: int): int
    requires 0 <= i < 4
  {
    [d.h1, d.h2, d.m1, d.m2][i]
  }

  /** The layer of glyph `i`: hours (0, 1) in the hour style, minutes
      (2, 3) in the minute style. */
  function GlyphPlacement(d: Digits, c: Config, b: Build, i: int): Placement
    requires 0 <= i < 4
  {
    Placement(
      Rect(b.X0() + GlyphX(d, c.timeSep, i), b.Y0() + b.Y0d() + 27, Widths(d)[i], 43),
      if i < 2 then GetImageHour(c, DigitAt(d, i)) else GetImageMin(c, DigitAt(d, i)))
  }

  /** The four digit layers of a render, hours first. */
  function Placements(d: Digits, c: Config, b: Build): (p: seq<Placement>)
    ensures |p| == 4
  {
    [GlyphPlacement(d, c, b, 0), GlyphPlacement(d, c, b, 1),
     GlyphPlacement(d, c, b, 2), GlyphPlacement(d, c, b, 3)]
  }

  /** Every layer is 43 high at the row's top, as wide as its digit's
      glyph and shows that digit in the style of its group. */
  lemma PlacementShapes(d: Digits, c: Config, b: Build)
    ensures var p := Placements(d, c, b);
      forall i :: 0 <= i < 4 ==>
      && p[i].frame.w == GetWidth(DigitAt(d, i))
      && p[i].frame.y == b.Y0() + b.Y0d() + 27
      && p[i].frame.h == 43
      && p[i].image == (if i < 2 then GetImageHour(c, DigitAt(d, i)) else GetImageMin(c, DigitAt(d, i)))
  {
  }

  lemma {:induction false} SumPrefixStep(s: seq<int>, k: int)
    requires 0 <= k < |s|
    ensures Sum(s[..k + 1]) == Sum(s[..k]) + s[k]
  {
    assert s[..k + 1][..k] == s[..k];
  }

  /** The prefix sums of a four-element sequence. */
  lemma SumOfFour(s: seq<int>)
    requires |s| == 4
    ensures Sum(s[..1]) == s[0]
    ensures Sum(s[..2]) == s[0] + s[1]
    ensures Sum(s[..3]) == s[0] + s[1] + s[2]
    ensures Sum(s) == Sum(s[..4]) == s[0] + s[1] + s[2] + s[3]
  {
    assert s[..0] == [];
    SumPrefixStep(s, 0);
    SumPrefixStep(s, 1);
    SumPrefixStep(s, 2);
    SumPrefixStep(s, 3);
    assert s[..4] == s;
  }

  /** The x of each glyph, written out from the row start. */
  lemma GlyphXs(d: Digits, timeSep: int)
    ensures var w, s := Widths(d), StartX(d) + LeadGap(timeSep);
      && GlyphX(d, timeSep, 0) == s
      && GlyphX(d, timeSep, 1) == s + w[0] + DIGIT_GAP
      && GlyphX(d, timeSep, 2) == s + w[0] + DIGIT_GAP + w[1] + GroupGap(timeSep)
      && GlyphX(d, timeSep, 3) == s + w[0] + DIGIT_GAP + w[1] + GroupGap(timeSep) + w[2] + DIGIT_GAP
  {
    SumOfFour(Widths(d));
    SumOfFour(Gaps(timeSep));
  }

  /** Each glyph starts where the previous one ends plus a fixed gap: 4
      inside a group, 8 between the groups (10 with a separator). */
  lemma GlyphsAbut(d: Digits, c: Config, b: Build)
    ensures var p := Placements(d, c, b);
      && p[1].frame.x == p[0].frame.Right() + DIGIT_GAP
      && p[2].frame.x == p[1].frame.Right() + (if c.timeSep == TIME_SEP_NONE then 8 else 10)
      && p[3].frame.x == p[2].frame.Right() + DIGIT_GAP
  {
    GlyphXs(d, c.timeSep);
  }

  /** For every digit combination, including an absent hour-tens digit,
      every glyph rectangle lies inside the 144-unit canvas: the widths
      take at most 124 of it and the gaps, 2+4+8+4 without a separator or
      1+4+10+4 with one, stay within the 20 reserved. */
  lemma GlyphsInsideCanvas(d: Digits, c: Config, b: Build)
    ensures var p := Placements(d, c, b);
            forall i :: 0 <= i < 4 ==>
              b.X0() <= p[i].frame.x && p[i].frame.Right() <= b.X0() + CANVAS_WIDTH
  {
    GlyphXs(d, c.timeSep);
    StartXCentres(d);
    var w := Widths(d);
    assert 0 <= w[0] && 0 <= w[1] && 0 <= w[2] && 0 <= w[3];
  }

  /** The row is centred: the margin right of the last glyph equals the
      margin left of the first, or exceeds it by the one odd unit. */
  lemma RowCentred(d: Digits, c: Config, b: Build)
    ensures var p := Placements(d, c, b);
            var left := p[0].frame.x - b.X0();
            var right := b.X0() + CANVAS_WIDTH - p[3].frame.Right();
            left <= right <= left + 1
  {
    GlyphXs(d, c.timeSep);
    StartXCentres(d);
  }

  // ---------------------------------------------------------------------
  // Separator

  /** A filled rectangle with a corner radius. */
  datatype Dot = Dot(frame: Rect, radius: int)

  /** The separator dots drawn by the canvas layer for a separator style:
      two dots one above the other, 4 units square (radius 0 or 1) or 6
      units square (radius 0 or 2) and one unit further out; nothing for no
      separator or an unknown style. */
  function SeparatorDots(d: Digits, timeSep: int, b: Build): (dots: seq<Dot>)
    ensures |dots| == 0 || |dots| == 2
    ensures |dots| == 2 <==> TIME_SEP_SQUARE <= timeSep <= TIME_SEP_ROUND_BOLD
    ensures forall k :: 0 <= k < |dots| ==>
      dots[k].radius == (if timeSep == TIME_SEP_ROUND then 1 else if timeSep == TIME_SEP_ROUND_BOLD then 2 else 0)
  {
    if timeSep == TIME_SEP_NONE then []
    else
      var xMin := StartX(d) + 1 + GetWidth(d.h1) + 4 + GetWidth(d.h2) + 3;
      var x, top := b.X0() + xMin, b.Y0() + b.Y0d();
      if timeSep == TIME_SEP_SQUARE then
        [Dot(Rect(x, top + 37, 4, 4), 0), Dot(Rect(x, top + 56, 4, 4), 0)]
      else if timeSep == TIME_SEP_ROUND then
        [Dot(Rect(x, top + 37, 4, 4), 1), Dot(Rect(x, top + 56, 4, 4), 1)]
      else if timeSep == TIME_SEP_SQUARE_BOLD then
        [Dot(Rect(x - 1, top + 36, 6, 6), 0), Dot(Rect(x - 1, top + 55, 6, 6), 0)]
      else if timeSep == TIME_SEP_ROUND_BOLD then
        [Dot(Rect(x - 1, top + 36, 6, 6), 2), Dot(Rect(x - 1, top + 55, 6, 6), 2)]
      else []
  }

  /** Whatever the digits, the two separator dots share their x, sit 19
      units apart at the style's height, and fall strictly inside the gap
      between the hour group and the minute group. */
  lemma SeparatorBetweenGroups(d: Digits, c: Config, b: Build)
    requires TIME_SEP_SQUARE <= c.timeSep <= TIME_SEP_ROUND_BOLD
    ensures var p, dots := Placements(d, c, b), SeparatorDots(d, c.timeSep, b);
      var bold := c.timeSep == TIME_SEP_SQUARE_BOLD || c.timeSep == TIME_SEP_ROUND_BOLD;
      && |dots| == 2
      && dots[0].frame.x == dots[1].frame.x
      && dots[0].frame.w == dots[0].frame.h == dots[1].frame.w == dots[1].frame.h == (if bold then 6 else 4)
      && dots[0].frame.y == b.Y0() + b.Y0d() + (if bold then 36 else 37)
      && dots[1].frame.y == dots[0].frame.y + 19
      && forall k :: 0 <= k < 2 ==>
           p[1].frame.Right() < dots[k].frame.x && dots[k].frame.Right() < p[2].frame.x
  {
    GlyphXs(d, c.timeSep);
  }

  /** No dots are drawn without a separator or for an unknown style. */
  lemma NoSeparatorNoDots(d: Digits, timeSep: int, b: Build)
    requires !(TIME_SEP_SQUARE <= timeSep <= TIME_SEP_ROUND_BOLD)
    ensures SeparatorDots(d, timeSep, b) == []
  {
  }
}
