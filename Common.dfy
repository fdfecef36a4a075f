/** Vocabulary shared by both watch-face variants: screen rectangles, the
    build switches, bitmap resource ids, the clock the host supplies, ASCII
    digit decoding, the battery-bar colour tiers and the Bluetooth
    vibration rule. */
module Common {

  datatype Option<T> = None | Some(value: T)

  /** A screen rectangle as the graphics toolkit's GRect: origin and size. */
  datatype Rect = Rect(x: int, y: int, w: int, h: int) {
    function Right(): int { x + w }
  }

  /** The two compile-time switches the source tests: the round platform,
      which shifts every drawing by a fixed offset, and colour support. */
  datatype Build = Build(chalk: bool, color: bool) {
    function X0(): int { if chalk then 18 else 0 }
    function Y0(): int { if chalk then 6 else 0 }
    function Y0d(): int { if chalk then 4 else 0 }
  }

  /** The four digits on screen: hour tens and units, minute tens and
      units; -1 (or any value outside 0..9) means "absent". */
  datatype Digits = Digits(h1: int, h2: int, m1: int, m2: int)

  // ---------------------------------------------------------------------
  // Bitmap resources

  /** The bitmap resources a digit layer can be given. */
  datatype ResourceId =
    | ZeroBold | OneBold | TwoBold | ThreeBold | FourBold
    | FiveBold | SixBold | SevenBold | EightBold | NineBold
    | Zero | One | Two | Three | Four
    | Five | Six | Seven | Eight | Nine
    | Blank
  {
    /** The digit a glyph shows, -1 for the blank glyph. */
    function Digit(): int {
      match this
      case ZeroBold | Zero => 0
      case OneBold | One => 1
      case TwoBold | Two => 2
      case ThreeBold | Three => 3
      case FourBold | Four => 4
      case FiveBold | Five => 5
      case SixBold | Six => 6
      case SevenBold | Seven => 7
      case EightBold | Eight => 8
      case NineBold | Nine => 9
      case Blank => -1
    }

    predicate IsBold() {
      match this
      case ZeroBold | OneBold | TwoBold | ThreeBold | FourBold => true
      case FiveBold | SixBold | SevenBold | EightBold | NineBold => true
      case _ => false
    }
  }

  /** A bitmap layer: the rectangle it is created with and its image. */
  datatype Placement = Placement(frame: Rect, image: ResourceId)

  const IMAGE_BOLD_RESOURCE_IDS: seq<ResourceId> :=
    [ZeroBold, OneBold, TwoBold, ThreeBold, FourBold,
     FiveBold, SixBold, SevenBold, EightBold, NineBold]

  const IMAGE_REGULAR_RESOURCE_IDS: seq<ResourceId> :=
    [Zero, One, Two, Three, Four, Five, Six, Seven, Eight, Nine]

  /** The "safe image getter": the glyph of digit `idx` in the bold or
      regular family, and the blank glyph for any index outside 0..9. */
  function GlyphImage(bold: bool, idx: int): (r: ResourceId)
    ensures r == Blank <==> !(0 <= idx <= 9)
    ensures r != Blank ==> r.Digit() == idx && r.IsBold() == bold
  {
    if 0 <= idx <= 9 then
      (if bold then IMAGE_BOLD_RESOURCE_IDS[idx] else IMAGE_REGULAR_RESOURCE_IDS[idx])
    else
      Blank
  }

  /** Two glyphs in range are the same resource only for the same digit in
      the same family. */
  lemma GlyphImageInjective(b1: bool, d1: int, b2: bool, d2: int)
    requires 0 <= d1 <= 9 && 0 <= d2 <= 9
    requires GlyphImage(b1, d1) == GlyphImage(b2, d2)
    ensures b1 == b2 && d1 == d2
  {
    assert GlyphImage(b1, d1).Digit() == d1;
    assert GlyphImage(b2, d2).Digit() == d2;
  }

  // ---------------------------------------------------------------------
  // ASCII digits

  /** The character code of a decimal digit. */
  function DigitChar(d: int): (c: int)
    requires 0 <= d <= 9
    ensures 48 <= c <= 57
  {
    '0' as int + d
  }

  /** Turns a character code into its digit value, -1 when the code is not
      one of '0'..'9'. */
  function AsciiDigitToInt(c: int): (d: int)
    ensures -1 <= d <= 9
    ensures d == -1 <==> !(48 <= c <= 57)
    ensures d != -1 ==> DigitChar(d) == c
  {
    if 48 <= c <= 57 then c - 48 else -1
  }

  // ---------------------------------------------------------------------
  // What the host supplies on every tick

  /** The fields of the broken-down local time the watch face uses. */
  datatype Clock = Clock(hour: int, minute: int, wday: int, mday: int, mon: int)

  predicate ValidClock(t: Clock) {
    && 0 <= t.hour <= 23
    && 0 <= t.minute <= 59
    && 0 <= t.wday <= 6
    && 1 <= t.mday <= 31
    && 0 <= t.mon <= 11
  }

  /** One reading of the host: local time, the 12/24-hour preference, the
      battery state and whether the phone is connected. */
  datatype HostReading = HostReading(
    clock: Clock,
    is24h: bool,
    charging: bool,
    chargePercent: int,
    connected: bool)

  predicate ValidReading(r: HostReading) {
    ValidClock(r.clock) && 0 <= r.chargePercent <= 100
  }

  /** The hour as the "%I" conversion gives it: 1..12. */
  function Hour12(hour: int): (h: int)
    requires 0 <= hour <= 23
    ensures 1 <= h <= 12
    ensures h % 12 == hour % 12
  {
    if hour % 12 == 0 then 12 else hour % 12
  }

  /** The hour shown: "%H" in 24-hour style, "%I" otherwise. */
  function ShownHour(hour: int, is24h: bool): (h: int)
    requires 0 <= hour <= 23
    ensures 0 <= h <= 23 && h % 12 == hour % 12
    ensures is24h ==> h == hour
    ensures !is24h ==> 1 <= h <= 12
  {
    if is24h then hour else Hour12(hour)
  }

  /** A two-character, zero-padded decimal field ("%H", "%I", "%M") as
      character codes. */
  function TwoDigitText(n: int): (s: seq<int>)
    requires 0 <= n <= 99
    ensures |s| == 2 && 48 <= s[0] <= 57 && 48 <= s[1] <= 57
    ensures 10 * (s[0] - 48) + (s[1] - 48) == n
  {
    [DigitChar(n / 10), DigitChar(n % 10)]
  }

  /** Decoding the two characters of a formatted field gives back its tens
      and units digits. */
  lemma DecodeTwoDigitText(n: int)
    requires 0 <= n <= 99
    ensures AsciiDigitToInt(TwoDigitText(n)[0]) == n / 10
    ensures AsciiDigitToInt(TwoDigitText(n)[1]) == n % 10
  {
  }

  /** The four digits shown for a time: the shown hour's tens and units
      (the tens as -1 when a leading zero is stripped) and the minute's
      tens and units. */
  function TimeDigits(t: Clock, is24h: bool, stripZero: bool): (d: Digits)
    requires ValidClock(t)
    ensures var hour := ShownHour(t.hour, is24h);
      && 0 <= d.h2 <= 9 && 0 <= d.m1 <= 5 && 0 <= d.m2 <= 9
      && (d.h1 == -1 <==> stripZero && hour < 10)
      && (d.h1 != -1 ==> 0 <= d.h1 <= 2 && 10 * d.h1 + d.h2 == hour)
      && (d.h1 == -1 ==> d.h2 == hour)
      && 10 * d.m1 + d.m2 == t.minute
  {
    var hour := ShownHour(t.hour, is24h);
    var tens := hour / 10;
    Digits(if tens == 0 && stripZero then -1 else tens, hour % 10, t.minute / 10, t.minute % 10)
  }

  // ---------------------------------------------------------------------
  // Battery bar

  datatype Color = White | Green | Blue | Yellow | Red

  /** The stored charge state: -1 while charging, else the percentage. */
  function ChargeState(charging: bool, percent: int): (s: int)
    requires 0 <= percent <= 100
    ensures charging <==> s == -1
    ensures !charging ==> s == percent
  {
    if charging then -1 else percent
  }

  /** The colour of the battery bar for a charge state. */
  function BarColor(hasColor: bool, chargeState: int): (c: Color)
    ensures !hasColor ==> c == White
    ensures hasColor ==>
      && (c == Green <==> chargeState >= 80)
      && (c == Blue <==> 50 <= chargeState < 80)
      && (c == Yellow <==> 30 <= chargeState < 50)
      && (c == Red <==> 0 <= chargeState < 30)
      && (c == White <==> chargeState < 0)
  {
    if !hasColor then White
    else if chargeState >= 80 then Green
    else if chargeState >= 50 then Blue
    else if chargeState >= 30 then Yellow
    else if chargeState > -1 then Red
    else White
  }

  /** Tier rank, lowest charge first; white (charging) sits outside. */
  function Tier(c: Color): int {
    match c
    case Red => 0
    case Yellow => 1
    case Blue => 2
    case Green => 3
    case White => -1
  }

  /** More charge never gives a lower tier, and charging keeps the bar
      white. */
  lemma BarColorMonotone(hasColor: bool, a: int, b: int)
    requires hasColor && 0 <= a <= b <= 100
    ensures 0 <= Tier(BarColor(hasColor, a)) <= Tier(BarColor(hasColor, b))
    ensures BarColor(hasColor, ChargeState(true, a)) == White
  {
  }

  // ---------------------------------------------------------------------
  // Bluetooth vibration

  /** Whether a tick vibrates: only while disconnected, and only on the
      tick where the connection was lost unless repeated vibration is on. */
  function Vibrates(lastConnected: bool, connected: bool, repeat: bool): (v: bool)
    ensures v ==> !connected
    ensures lastConnected && !connected ==> v
    ensures !lastConnected && !repeat ==> !v
    ensures repeat ==> (v <==> !connected)
  {
    !connected && (lastConnected || repeat)
  }

  /** Number of vibrations over a run of ticks, each tick remembering its
      own connectivity for the next one. */
  function Vibrations(lastConnected: bool, ticks: seq<bool>, repeat: bool): nat
    decreases |ticks|
  {
    if ticks == [] then 0
    else (if Vibrates(lastConnected, ticks[0], repeat) then 1 else 0)
         + Vibrations(ticks[0], ticks[1..], repeat)
  }

  /** Number of connected-to-disconnected steps between neighbours. */
  function FallingEdges(states: seq<bool>): nat
    decreases |states|
  {
    if |states| < 2 then 0
    else (if states[0] && !states[1] then 1 else 0) + FallingEdges(states[1..])
  }

  /** Number of disconnected ticks. */
  function Disconnections(ticks: seq<bool>): nat
    decreases |ticks|
  {
    if ticks == [] then 0
    else (if ticks[0] then 0 else 1) + Disconnections(ticks[1..])
  }

  /** Without repeated vibration, the watch vibrates exactly once per loss
      of connection. */
  lemma {:induction false} EdgeTriggered(lastConnected: bool, ticks: seq<bool>)
    ensures Vibrations(lastConnected, ticks, false) == FallingEdges([lastConnected] + ticks)
    decreases |ticks|
  {
    if ticks != [] {
      EdgeTriggered(ticks[0], ticks[1..]);
      assert ([lastConnected] + ticks)[1..] == [ticks[0]] + ticks[1..];
    }
  }

  /** With repeated vibration, every disconnected tick vibrates. */
  lemma {:induction false} RepeatOnEveryTick(lastConnected: bool, ticks: seq<bool>)
    ensures Vibrations(lastConnected, ticks, true) == Disconnections(ticks)
    decreases |ticks|
  {
    if ticks != [] {
      RepeatOnEveryTick(ticks[0], ticks[1..]);
    }
  }

  /** Connected, connected, disconnected, disconnected from power-on: one
      vibration, or two with repeated vibration. */
  lemma LossOfConnectionExample()
    ensures Vibrations(false, [true, true, false, false], false) == 1
    ensures Vibrations(false, [true, true, false, false], true) == 2
  {
    EdgeTriggered(false, [true, true, false, false]);
    RepeatOnEveryTick(false, [true, true, false, false]);
  }
}
