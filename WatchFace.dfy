/** The configurable watch face's process-wide state and its callbacks:
    the per-tick display update, the glyph layer rebuild, the canvas
    drawing, the configuration read and the inbound-message handler. */
module WatchFace {
  import opened Common
  import opened Settings
  import opened Layout
  import opened Dates

  class Face {
    const build: Build

    // states
    var lastBtStateConnected: bool
    var chargeState: int

    // time decomposition
    var h1: int
    var h2: int
    var m1: int
    var m2: int

    // configuration and the persisted store behind it
    var config: Config
    var store: Store

    // what the host toolkit was last told to show
    var glyphs: seq<Placement>
    var dateText: seq<int>
    var warningHidden: bool

    /** The store holds only values the handler writes, and the locale
        indexes the name tables. */
    ghost predicate Valid()
      reads this`store, this`config
    {
      WellFormedStore(store) && ValidConfig(config)
    }

    /** The four digits the glyph layers show. */
    function CurrentDigits(): Digits
      reads this`h1, this`h2, this`m1, this`m2
    {
      Digits(h1, h2, m1, m2)
    }

    /** Start-up: the static initial values, the configuration read from
        the persisted store, then the window built showing 00:00 and the
        date placeholder. */
    constructor (build: Build, persisted: Store, sysLocale: string)
      requires WellFormedStore(persisted)
      ensures Valid()
      ensures this.build == build && store == persisted
      ensures config == ConfigFromStore(persisted, sysLocale, DEFAULT_CONFIG)
      ensures CurrentDigits() == Digits(0, 0, 0, 0)
      ensures chargeState == -1 && !lastBtStateConnected
      ensures glyphs == Placements(Digits(0, 0, 0, 0), config, build)
      ensures dateText == DATE_PLACEHOLDER && !warningHidden
    {
      this.build := build;
      lastBtStateConnected := false;
      chargeState := -1;
      h1, h2, m1, m2 := 0, 0, 0, 0;
      config := DEFAULT_CONFIG;
      store := persisted;
      glyphs := [];
      dateText := [];
      warningHidden := false;
      new;
      ReadConfiguration(sysLocale);
      assert CurrentDigits() == Digits(0, 0, 0, 0);
      glyphs := LoadTimeImages();
      dateText := DATE_PLACEHOLDER;
    }

    /** Loads every persisted field over the current configuration; an
        absent locale is derived from the system locale. */
    method ReadConfiguration(sysLocale: string)
      requires Valid()
      modifies this`config
      ensures Valid()
      ensures config == ConfigFromStore(store, sysLocale, old(config))
    {
      var hhInBold, mmInBold, locale := config.hhInBold, config.mmInBold, config.locale;
      var hhStripZero, timeSep, repeatVib := config.hhStripZero, config.timeSep, config.repeatVib;
      if HhInBold in store {
        hhInBold := store[HhInBold] != 0;
      }
      if MmInBold in store {
        mmInBold := store[MmInBold] != 0;
      }
      if Locale in store {
        locale := store[Locale];
      } else {
        // use the system locale
        if sysLocale == "fr_FR" {
          locale := LOCALE_FR;
        } else if sysLocale == "de_DE" {
          locale := LOCALE_DE;
        } else if sysLocale == "es_ES" {
          locale := LOCALE_ES;
        } else if sysLocale == "it_IT" {
          locale := LOCALE_IT;
        } else {
          locale := LOCALE_EN;
        }
        assert locale == SystemLocale(sysLocale);
      }
      if HhStripZero in store {
        hhStripZero := store[HhStripZero] != 0;
      }
      if TimeSep in store {
        timeSep := store[TimeSep];
      }
      if RepeatVib in store {
        repeatVib := store[RepeatVib] != 0;
      }
      config := Config(hhInBold, mmInBold, locale, hhStripZero, timeSep, repeatVib);
    }

    /** The four digit layers for the current digits, laid out from the
        centred start one glyph at a time. */
    method LoadTimeImages() returns (placed: seq<Placement>)
      ensures placed == Placements(CurrentDigits(), config, build)
    {
      var totalW := GetTotalWidth(CurrentDigits());
      var currentX := (CANVAS_WIDTH - totalW) / 2;
      var top := build.Y0() + build.Y0d() + 27;

      if config.timeSep == TIME_SEP_NONE {
        currentX := currentX + 2;
      } else {
        currentX := currentX + 1;
      }
      var p1 := Placement(Rect(build.X0() + currentX, top, GetWidth(h1), 43), GetImageHour(config, h1));

      currentX := currentX + GetWidth(h1);
      currentX := currentX + 4;
      var p2 := Placement(Rect(build.X0() + currentX, top, GetWidth(h2), 43), GetImageHour(config, h2));

      currentX := currentX + GetWidth(h2);
      if config.timeSep == TIME_SEP_NONE {
        currentX := currentX + 8;
      } else {
        currentX := currentX + 10;
      }
      var p3 := Placement(Rect(build.X0() + currentX, top, GetWidth(m1), 43), GetImageMin(config, m1));

      currentX := currentX + GetWidth(m1);
      currentX := currentX + 4;
      var p4 := Placement(Rect(build.X0() + currentX, top, GetWidth(m2), 43), GetImageMin(config, m2));

      placed := [p1, p2, p3, p4];
      GlyphXs(CurrentDigits(), config.timeSep);
      assert p1 == GlyphPlacement(CurrentDigits(), config, build, 0);
      assert p2 == GlyphPlacement(CurrentDigits(), config, build, 1);
      assert p3 == GlyphPlacement(CurrentDigits(), config, build, 2);
      assert p4 == GlyphPlacement(CurrentDigits(), config, build, 3);
    }

    /** The canvas drawing: the battery bar in its tier colour and, with a
        separator style, the two separator dots. */
    method LayerUpdateCallback() returns (color: Color, bar: Rect, dots: seq<Dot>)
      ensures color == BarColor(build.color, chargeState)
      ensures bar == Rect(build.X0() + 24, build.Y0() + 88, 96, 4)
      ensures dots == SeparatorDots(CurrentDigits(), config.timeSep, build)
    {
      color := White;
      if build.color {
        if chargeState >= 80 {
          color := Green;
        } else if chargeState >= 50 {
          color := Blue;
        } else if chargeState >= 30 {
          color := Yellow;
        } else if chargeState > -1 {
          color := Red;
        }
      }
      bar := Rect(build.X0() + 24, build.Y0() + 88, 96, 4);

      dots := [];
      if config.timeSep != TIME_SEP_NONE {
        var totalW := GetTotalWidth(CurrentDigits());
        var xMin := ((CANVAS_WIDTH - totalW) / 2) + 1 + GetWidth(h1) + 4 + GetWidth(h2) + 3;
        var x, top := build.X0() + xMin, build.Y0() + build.Y0d();
        if config.timeSep == TIME_SEP_SQUARE {
          dots := [Dot(Rect(x, top + 37, 4, 4), 0), Dot(Rect(x, top + 56, 4, 4), 0)];
        } else if config.timeSep == TIME_SEP_ROUND {
          dots := [Dot(Rect(x, top + 37, 4, 4), 1), Dot(Rect(x, top + 56, 4, 4), 1)];
        } else if config.timeSep == TIME_SEP_SQUARE_BOLD {
          dots := [Dot(Rect(x - 1, top + 36, 6, 6), 0), Dot(Rect(x - 1, top + 55, 6, 6), 0)];
        } else if config.timeSep == TIME_SEP_ROUND_BOLD {
          dots := [Dot(Rect(x - 1, top + 36, 6, 6), 2), Dot(Rect(x - 1, top + 55, 6, 6), 2)];
        }
      }
    }

    /** The hour and minute fields formatted as two characters each
        ("%H" or "%I", and "%M") and decoded back into digits, the hour's
        leading zero hidden when configured. */
    method DecodeTime(host: HostReading) returns (d: Digits)
      requires ValidReading(host)
      ensures d == TimeDigits(host.clock, host.is24h, config.hhStripZero)
    {
      var hour := ShownHour(host.clock.hour, host.is24h);
      var bufferHh := TwoDigitText(hour);
      DecodeTwoDigitText(hour);
      var hTens := AsciiDigitToInt(bufferHh[0]);
      var hUnits := AsciiDigitToInt(bufferHh[1]);

      // hide the leading zero if required
      if hTens == 0 && config.hhStripZero {
        hTens := -1;
      }

      var bufferMm := TwoDigitText(host.clock.minute);
      DecodeTwoDigitText(host.clock.minute);
      d := Digits(hTens, hUnits, AsciiDigitToInt(bufferMm[0]), AsciiDigitToInt(bufferMm[1]));
    }

    /** The date line for the configured locale, written into the date
        buffer. */
    method WriteDate(t: Clock)
      requires ValidConfig(config) && ValidClock(t)
      modifies this`dateText
      ensures dateText == DateShown(config.locale, t)
    {
      if config.locale != LOCALE_EN {
        // day, day of month, month
        dateText := Snprintf(DAYS[config.locale][t.wday] + [SPACE] + Decimal(t.mday) + [SPACE]
                             + MONTHS[config.locale][t.mon], DATE_BUFFER);
      } else {
        // day, month, day of month
        dateText := Snprintf(DAYS[0][t.wday] + [SPACE] + MONTHS[0][t.mon] + [SPACE]
                             + Decimal(t.mday), DATE_BUFFER);
      }
    }

    /** The connection warning and the vibration: the warning shows while
        disconnected; a disconnected tick vibrates when the previous tick
        was connected or repeated vibration is on. */
    method UpdateConnection(connected: bool) returns (vibrate: bool)
      modifies this`warningHidden, this`lastBtStateConnected
      ensures warningHidden == connected
      ensures vibrate == Vibrates(old(lastBtStateConnected), connected, config.repeatVib)
      ensures lastBtStateConnected == connected
    {
      vibrate := false;
      if connected {
        warningHidden := true;
        lastBtStateConnected := true;
      } else {
        warningHidden := false;
        // just lost the connection, or repeated vibration wanted
        if lastBtStateConnected || config.repeatVib {
          lastBtStateConnected := false;
          vibrate := true;
        }
      }
    }

    /** The time and date part of a tick: the digits, the date line and
        the digit layers rebuilt for them. */
    method ShowTime(host: HostReading)
      requires Valid() && ValidReading(host)
      modifies this`h1, this`h2, this`m1, this`m2, this`dateText, this`glyphs
      ensures CurrentDigits() == TimeDigits(host.clock, host.is24h, config.hhStripZero)
      ensures dateText == DateShown(config.locale, host.clock)
      ensures glyphs == Placements(CurrentDigits(), config, build)
    {
      var digits := DecodeTime(host);
      h1, h2, m1, m2 := digits.h1, digits.h2, digits.m1, digits.m2;
      assert CurrentDigits() == digits;

      WriteDate(host.clock);

      glyphs := LoadTimeImages();
      assert glyphs == Placements(digits, config, build);
    }

    /** One tick: battery state, the four digits (the hour's leading zero
        hidden when configured), the date line, the digit layers rebuilt,
        and the warning and vibration from the connection state. Returns
        whether the watch vibrates. */
    method UpdateDisplay(host: HostReading) returns (vibrate: bool)
      requires Valid() && ValidReading(host)
      modifies this`chargeState, this`h1, this`h2, this`m1, this`m2
      modifies this`dateText, this`glyphs, this`warningHidden, this`lastBtStateConnected
      ensures chargeState == ChargeState(host.charging, host.chargePercent)
      ensures CurrentDigits() == TimeDigits(host.clock, host.is24h, config.hhStripZero)
      ensures dateText == DateShown(config.locale, host.clock)
      ensures glyphs == Placements(CurrentDigits(), config, build)
      ensures warningHidden == host.connected
      ensures vibrate == Vibrates(old(lastBtStateConnected), host.connected, config.repeatVib)
      ensures lastBtStateConnected == host.connected
    {
      chargeState := if host.charging then -1 else host.chargePercent;

      ShowTime(host);
      ghost var shown := (CurrentDigits(), dateText, glyphs);

      vibrate := UpdateConnection(host.connected);
      assert (CurrentDigits(), dateText, glyphs) == shown;
    }

    /** The persisting part of an inbound configuration message: each field
        it carries is decoded and written, a "default" locale removed. */
    method PersistMessage(msg: Message)
      requires WellFormedStore(store)
      modifies this`store
      ensures store == StoreAfterMessage(old(store), msg)
      ensures WellFormedStore(store)
    {
      ghost var s0 := store;
      store := PersistField(store, msg, HhInBold);
      store := PersistField(store, msg, MmInBold);
      store := PersistField(store, msg, Locale);
      store := PersistField(store, msg, HhStripZero);
      store := PersistField(store, msg, TimeSep);
      store := PersistField(store, msg, RepeatVib);
      StepsGiveStoreAfterMessage(s0, msg);
      StoreAfterMessageWellFormed(s0, msg);
    }

    /** An inbound configuration message: its fields persisted, then the
        configuration read back and the display updated. */
    method InReceivedHandler(msg: Message, sysLocale: string, host: HostReading) returns (vibrate: bool)
      requires Valid() && ValidReading(host)
      modifies this
      ensures Valid()
      ensures store == StoreAfterMessage(old(store), msg)
      ensures config == ConfigFromStore(store, sysLocale, old(config))
      ensures chargeState == ChargeState(host.charging, host.chargePercent)
      ensures CurrentDigits() == TimeDigits(host.clock, host.is24h, config.hhStripZero)
      ensures dateText == DateShown(config.locale, host.clock)
      ensures glyphs == Placements(CurrentDigits(), config, build)
      ensures warningHidden == host.connected
      ensures vibrate == Vibrates(old(lastBtStateConnected), host.connected, config.repeatVib)
      ensures lastBtStateConnected == host.connected
    {
      PersistMessage(msg);
      ReadConfiguration(sysLocale);
      ghost var settled := (store, config);
      vibrate := UpdateDisplay(host);
      assert (store, config) == settled;
    }
  }
}
