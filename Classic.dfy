/** The classic watch face: four digit glyphs without gaps, hours always
    bold and minutes always regular, no configuration, the date formatted by
    the host, and a vibration only on the tick the connection is lost. */
module Classic {
  import opened Common
  import Dates

  const CANVAS_WIDTH := 144
  /** Top of the date and warning layers. */
  const DATE_TOP := 96

  const WIDTHS: seq<int> := [35, 15, 33, 30, 33, 32, 33, 33, 33, 33]

  /** The "safe width getter": a digit's glyph width, 0 outside 0..9. */
  function GetWidth(idx: int): (w: int)
    ensures 0 <= idx <= 9 ==> 15 <= w <= 35
    ensures !(0 <= idx <= 9) ==> w == 0
  {
    if 0 <= idx <= 9 then WIDTHS[idx] else 0
  }

  /** Hour glyphs are always bold. */
  function GetImageHour(idx: int): (r: ResourceId)
    ensures r == Blank <==> !(0 <= idx <= 9)
    ensures r != Blank ==> r.Digit() == idx && r.IsBold()
  {
    GlyphImage(true, idx)
  }

  /** Minute glyphs are always regular. */
  function GetImageMin(idx: int): (r: ResourceId)
    ensures r == Blank <==> !(0 <= idx <= 9)
    ensures r != Blank ==> r.Digit() == idx && !r.IsBold()
  {
    GlyphImage(false, idx)
  }

  /** The four glyph widths, with no padding: at most 4 * 35, which leaves
      at least 2 units on each side. */
  function GetTotalWidth(d: Digits): (t: int)
    ensures 0 <= t <= CANVAS_WIDTH - 4
  {
    GetWidth(d.h1) + GetWidth(d.h2) + GetWidth(d.m1) + GetWidth(d.m2)
  }

  /** Left end of the centred row. */
  function StartX(d: Digits): int {
    (CANVAS_WIDTH - GetTotalWidth(d)) / 2
  }

  /** The layer of glyph `i`: each glyph starts where the previous ones
      end; hours are 43 high from y 27, minutes 42 high from y 28. */
  function GlyphPlacement(d: Digits, i: int): Placement
    requires 0 <= i < 4
  {
    var w := [GetWidth(d.h1), GetWidth(d.h2), GetWidth(d.m1), GetWidth(d.m2)];
    var x := StartX(d) + (if i == 0 then 0 else if i == 1 then w[0]
                          else if i == 2 then w[0] + w[1] else w[0] + w[1] + w[2]);
    if i == 0 then Placement(Rect(x, 27, w[0], 43), GetImageHour(d.h1))
    else if i == 1 then Placement(Rect(x, 27, w[1], 43), GetImageHour(d.h2))
    else if i == 2 then Placement(Rect(x, 28, w[2], 42), GetImageMin(d.m1))
    else Placement(Rect(x, 28, w[3], 42), GetImageMin(d.m2))
  }

  /** The four digit layers of a render, hours first. */
  function Placements(d: Digits): (p: seq<Placement>)
    ensures |p| == 4
  {
    [GlyphPlacement(d, 0), GlyphPlacement(d, 1), GlyphPlacement(d, 2), GlyphPlacement(d, 3)]
  }

  /** The glyphs abut: each one starts exactly where the previous one ends,
      and together they span the total width. */
  lemma GlyphsAbut(d: Digits)
    ensures var p := Placements(d);
      && p[1].frame.x == p[0].frame.Right()
      && p[2].frame.x == p[1].frame.Right()
      && p[3].frame.x == p[2].frame.Right()
      && p[3].frame.Right() - p[0].frame.x == GetTotalWidth(d)
  {
  }

  /** Every glyph rectangle lies inside the canvas, whatever the digits. */
  lemma GlyphsInsideCanvas(d: Digits)
    ensures var p := Placements(d);
      forall i :: 0 <= i < 4 ==> 0 <= p[i].frame.x && p[i].frame.Right() <= CANVAS_WIDTH
  {
    var p := Placements(d);
    assert 0 <= p[0].frame.w && 0 <= p[1].frame.w && 0 <= p[2].frame.w && 0 <= p[3].frame.w;
  }

  /** The row is centred up to the one odd unit. */
  lemma RowCentred(d: Digits)
    ensures var p := Placements(d);
      var left, right := p[0].frame.x, CANVAS_WIDTH - p[3].frame.Right();
      2 <= left <= right <= left + 1
  {
  }

  /** Hours sit one unit higher and one unit taller than minutes; each
      layer shows its own digit, hours bold and minutes regular, and is as
      wide as that digit's glyph. */
  lemma PlacementShapes(d: Digits)
    ensures var p := Placements(d);
      && p[0].frame.y == p[1].frame.y == 27 && p[0].frame.h == p[1].frame.h == 43
      && p[2].frame.y == p[3].frame.y == 28 && p[2].frame.h == p[3].frame.h == 42
      && p[0].image == GlyphImage(true, d.h1) && p[1].image == GlyphImage(true, d.h2)
      && p[2].image == GlyphImage(false, d.m1) && p[3].image == GlyphImage(false, d.m2)
      && p[0].frame.w == GetWidth(d.h1) && p[1].frame.w == GetWidth(d.h2)
      && p[2].frame.w == GetWidth(d.m1) && p[3].frame.w == GetWidth(d.m2)
  {
  }

  /** A stroked line between two points. */
  datatype Line = Line(x0: int, y0: int, x1: int, y1: int)

  /** The battery bar: four horizontal one-unit lines on consecutive
      rows, centred on the canvas, below every digit glyph and above the
      date. */
  function BarLines(): (lines: seq<Line>)
    ensures |lines| == 4
    ensures forall k :: 0 <= k < 4 ==>
      && lines[k].y0 == lines[k].y1 == lines[0].y0 + k
      && lines[k].x0 < lines[k].x1
      && lines[k].x0 == CANVAS_WIDTH - lines[k].x1
    ensures forall d: Digits, i :: 0 <= i < 4 ==>
      Placements(d)[i].frame.y + Placements(d)[i].frame.h <= lines[0].y0
    ensures lines[3].y0 < DATE_TOP
  {
    [Line(24, 88, 120, 88), Line(24, 89, 120, 89), Line(24, 90, 120, 90), Line(24, 91, 120, 91)]
  }

  class ClassicFace {
    const hasColor: bool

    // states
    var lastBtStateConnected: bool
    var chargeState: int

    // time decomposition
    var h1: int
    var h2: int
    var m1: int
    var m2: int

    // what the host toolkit was last told to show
    var glyphs: seq<Placement>
    var dateText: seq<int>
    var dateHidden: bool
    var warningHidden: bool

    /** The four digits the glyph layers show. */
    function CurrentDigits(): Digits
      reads this`h1, this`h2, this`m1, this`m2
    {
      Digits(h1, h2, m1, m2)
    }

    /** Start-up: the static initial values, then the window built showing
        00:00 and the date placeholder. */
    constructor (hasColor: bool)
      ensures this.hasColor == hasColor
      ensures CurrentDigits() == Digits(0, 0, 0, 0)
      ensures chargeState == -1 && !lastBtStateConnected
      ensures glyphs == Placements(Digits(0, 0, 0, 0))
      ensures dateText == Dates.DATE_PLACEHOLDER && !dateHidden && !warningHidden
    {
      this.hasColor := hasColor;
      lastBtStateConnected := false;
      chargeState := -1;
      h1, h2, m1, m2 := 0, 0, 0, 0;
      glyphs := [];
      dateText := Dates.DATE_PLACEHOLDER;
      dateHidden := false;
      warningHidden := false;
      new;
      glyphs := LoadTimeImages();
    }

    /** The four digit layers for the current digits, laid out from the
        centred start one glyph at a time. */
    method LoadTimeImages() returns (placed: seq<Placement>)
      ensures placed == Placements(CurrentDigits())
    {
      var totalW := GetTotalWidth(CurrentDigits());
      var currentX := (CANVAS_WIDTH - totalW) / 2;
      var p1 := Placement(Rect(currentX, 27, GetWidth(h1), 43), GetImageHour(h1));

      currentX := currentX + GetWidth(h1);
      var p2 := Placement(Rect(currentX, 27, GetWidth(h2), 43), GetImageHour(h2));

      currentX := currentX + GetWidth(h2);
      var p3 := Placement(Rect(currentX, 28, GetWidth(m1), 42), GetImageMin(m1));

      currentX := currentX + GetWidth(m1);
      var p4 := Placement(Rect(currentX, 28, GetWidth(m2), 42), GetImageMin(m2));

      placed := [p1, p2, p3, p4];
    }

    /** The canvas drawing: the bar colour from the charge tier (white
        without colour support) and the four bar lines. */
    method LayerUpdateCallback() returns (color: Color, lines: seq<Line>)
      ensures color == BarColor(hasColor, chargeState)
      ensures lines == BarLines()
    {
      color := White;
      if hasColor {
        if chargeState >= 80 {
          color := Green;
        } else if chargeState >= 50 {
          color := Blue;
        } else if chargeState >= 30 {
          color := Yellow;
        } else if chargeState > -1 {
          color := Red;
        }
      }
      lines := BarLines();
    }

    /** The hour and minute fields formatted as two characters each and
        decoded back into digits; the hour's leading zero always shows. */
    method DecodeTime(host: HostReading) returns (d: Digits)
      requires ValidReading(host)
      ensures d == TimeDigits(host.clock, host.is24h, false)
    {
      var hour := ShownHour(host.clock.hour, host.is24h);
      var bufferHh := TwoDigitText(hour);
      DecodeTwoDigitText(hour);
      var bufferMm := TwoDigitText(host.clock.minute);
      DecodeTwoDigitText(host.clock.minute);
      d := Digits(AsciiDigitToInt(bufferHh[0]), AsciiDigitToInt(bufferHh[1]),
                  AsciiDigitToInt(bufferMm[0]), AsciiDigitToInt(bufferMm[1]));
    }

    /** The time part of a tick: the four digits, the date text the host
        formatted, and the digit layers rebuilt for them. */
    method ShowTime(host: HostReading, hostDate: seq<int>)
      requires ValidReading(host)
      modifies this`h1, this`h2, this`m1, this`m2, this`glyphs, this`dateText
      ensures CurrentDigits() == TimeDigits(host.clock, host.is24h, false)
      ensures dateText == hostDate
      ensures glyphs == Placements(CurrentDigits())
    {
      var digits := DecodeTime(host);
      h1, h2, m1, m2 := digits.h1, digits.h2, digits.m1, digits.m2;
      dateText := hostDate;

      glyphs := LoadTimeImages();
    }

    /** The connection state: the date shows while connected and the
        warning while disconnected; only the tick that loses the connection
        vibrates. */
    method UpdateConnection(connected: bool) returns (vibrate: bool)
      modifies this`dateHidden, this`warningHidden, this`lastBtStateConnected
      ensures warningHidden == connected && dateHidden == !connected
      ensures vibrate == Vibrates(old(lastBtStateConnected), connected, false)
      ensures lastBtStateConnected == connected
    {
      vibrate := false;
      if connected {
        warningHidden := true;
        dateHidden := false;
        lastBtStateConnected := true;
      } else {
        dateHidden := true;
        warningHidden := false;
        // just lost the connection
        if lastBtStateConnected {
          lastBtStateConnected := false;
          vibrate := true;
        }
      }
    }

    /** One tick: battery state, the time part, then the connection
        state. */
    method UpdateDisplay(host: HostReading, hostDate: seq<int>) returns (vibrate: bool)
      requires ValidReading(host)
      modifies this`chargeState, this`h1, this`h2, this`m1, this`m2, this`glyphs
      modifies this`dateText, this`dateHidden, this`warningHidden, this`lastBtStateConnected
      ensures chargeState == ChargeState(host.charging, host.chargePercent)
      ensures CurrentDigits() == TimeDigits(host.clock, host.is24h, false)
      ensures dateText == hostDate
      ensures glyphs == Placements(CurrentDigits())
      ensures warningHidden == host.connected && dateHidden == !host.connected
      ensures vibrate == Vibrates(old(lastBtStateConnected), host.connected, false)
      ensures lastBtStateConnected == host.connected
    {
      chargeState := if host.charging then -1 else host.chargePercent;

      ShowTime(host, hostDate);
      ghost var shown := (CurrentDigits(), glyphs);

      vibrate := UpdateConnection(host.connected);
      assert (CurrentDigits(), glyphs) == shown;
    }
  }
}
