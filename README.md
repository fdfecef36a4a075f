# MySimpleWatch in Dafny

This project models MySimpleWatch, a Pebble watch face that shows the time
as four digit glyphs, the date below them, a battery bar, and a warning
when the phone disconnects. The watch face comes in two variants:

- `src/c/main.c`, the configurable variant. A configuration message from
  the phone can change these settings:
  - bold or regular glyphs, separately for hours and minutes;
  - the locale of the date (en, fr, de, es, it);
  - whether a leading hour zero is stripped;
  - one of four separator styles between hours and minutes;
  - whether the vibration repeats on every tick while disconnected.
  The settings are kept in the persistent key/value store.
- `src/main.c`, the classic variant. It has no configuration: hours are
  bold, minutes are regular, and the date comes from the system.

The modules are:

- `Common`: vocabulary both variants share:
  - glyph resource identifiers and the "safe image getter";
  - decoding an ASCII digit;
  - turning the hour and minute into four digits;
  - the battery charge state and the bar colour tiers;
  - the Bluetooth vibration rule.
- `Settings`: the persisted store, the inbound configuration message and
  how it is written into the store (`in_received_handler`), and how the
  store is read back into the configuration (`read_configuration`).
- `Layout`: the configurable variant's glyph widths, the centred row of
  four glyphs with its gaps, and the separator dots.
- `Dates`: the localised date line, as the UTF-8 bytes that end up in the
  fixed-size date buffer.
- `WatchFace`: class `Face`, which holds the configurable variant's global
  state. Its methods are the start-up, the tick (`update_display`), the
  canvas drawing, the configuration read and the message handler.
- `Classic`: the classic variant's metrics and layout, plus class
  `ClassicFace` with its start-up, tick and canvas drawing.

Some things the watch gets from its system are passed in as inputs:

- the time, the 12/24-hour style, the battery state and the phone
  connection arrive together as a `HostReading`;
- the system locale is a string;
- the platform switches (round Chalk screen, colour support) form a
  `Build`.

Instead of calling the UI toolkit, the methods record what the layers are
told to show:

- the glyph placements;
- the date text;
- whether the warning and the date are hidden;
- whether the watch vibrates.

Both variants switch the battery bar from yellow to red below 30
(src/c/main.c:161-164, src/main.c:109-112).

## Model

| member | source | states |
|---|---|---|
| Common.GlyphImage | src/c/main.c:100-112 | The glyph is blank exactly when the index is outside 0..9. Otherwise it shows that digit, bold exactly when asked. |
| Common.GlyphImageInjective | src/c/main.c:85-97 | Two in-range glyphs are the same resource only for the same digit in the same weight. |
| Common.AsciiDigitToInt | src/c/main.c:140-147 | The result is -1 exactly for codes outside 48..57. Otherwise it is the digit whose character code is the input. |
| Common.Hour12 | src/c/main.c:363-366 | The %I hour is 1..12 and agrees with the 24-hour clock modulo 12. |
| Common.TwoDigitText | src/c/main.c:360-375 | The %H/%I/%M text of 0..99 is two ASCII digits, tens first. |
| Common.DecodeTwoDigitText | src/c/main.c:368-378 | Decoding the two characters of that text gives back the tens and the units of the number. |
| Common.TimeDigits | src/c/main.c:359-378 | Gives the digits of the shown hour and of the minute. The hour-tens digit is -1 (blank) exactly when stripping is on and the hour is below 10. Otherwise the hour digits recompose the hour. |
| Common.ShownHour | src/c/main.c:360-366 | The shown hour is the 24-hour hour in 24-hour style, and 1..12 otherwise; either way it agrees with the clock modulo 12. |
| Common.ChargeState | src/c/main.c:341-346 | -1 while charging, otherwise the charge percentage. |
| Common.BarColor | src/c/main.c:153-172 | The colour of each charge interval, both ways: green from 80, blue 50-79, yellow 30-49, red 0-29. It is white for a negative state (charging), and always white without colour support. |
| Common.BarColorMonotone | src/c/main.c:157-165 | More charge never gives a lower colour tier, and charging keeps the bar white. |
| Common.Vibrates | src/c/main.c:402-417 | A tick vibrates only while disconnected. Losing the connection always vibrates. Without repeat, a tick that was already disconnected never vibrates. With repeat, every disconnected tick vibrates. |
| Common.EdgeTriggered | src/main.c:299-314 | Without repeat, a run of ticks vibrates exactly once per loss of connection, counted against the state before the first tick. |
| Common.RepeatOnEveryTick | src/c/main.c:402-417 | With repeat on, every disconnected tick vibrates. |
| Common.LossOfConnectionExample | src/c/main.c:410-416 | From power-on, connected, connected, lost, still lost vibrates once without repeat and twice with it. |
| Settings.LocaleCode | src/c/main.c:525-561 | "default" means remove the key. Every other value gives a locale in range; fr, de, es and it give their codes and anything else gives en. |
| Settings.LocaleRoundTrip | src/c/main.c:541-556 | Decoding the name of each non-English locale gives that locale back. |
| Settings.TimeSepCode | src/c/main.c:582-611 | Every value gives a separator style in range. A style other than none is given only by its own name. |
| Settings.TimeSepRoundTrip | src/c/main.c:591-606 | Decoding each separator style's name gives that style back. |
| Settings.Encoded | src/c/main.c:487-630 | Each field's persisted value lies in that key's domain. Only a "default" locale removes its key. |
| Settings.StoreAfterMessage | src/c/main.c:483-631 | Every field the message carries is written with its decoded value, or removed for a "default" locale. Every key the message does not carry is left as it was. |
| Settings.PersistField | src/c/main.c:487-504 | One field's step of the handler changes no key other than its own. |
| Settings.StepsGiveStoreAfterMessage | src/c/main.c:483-631 | The handler's six field steps, in source order, give exactly the store after the message. |
| Settings.StoreAfterMessageWellFormed | src/c/main.c:483-631 | Starting from a well-formed store, the handler only ever persists values the watch face understands. |
| Settings.StoreAfterMessageIdempotent | src/c/main.c:483-631 | Delivering the same message twice leaves the store as delivering it once. |
| Settings.SystemLocale | src/c/main.c:445-459 | Without a persisted locale, the system locale picks fr, de, es or it by exact name and en otherwise. |
| Settings.SystemLocaleRoundTrip | src/c/main.c:449-456 | Each non-English system locale name selects its own locale. |
| Settings.ConfigFromStore | src/c/main.c:424-481 | Each persisted field replaces the current value, with a boolean true when it is non-zero. An absent field keeps the current value, and an absent locale follows the system locale. A well-formed store gives a locale in range. |
| Settings.EmptyStoreGivesDefaults | src/c/main.c:57-62 | From an empty store, the configuration is the static defaults with the system locale. |
| Settings.ConfigFromStoreIdempotent | src/c/main.c:424-481 | Reading the same store twice gives the same configuration. |
| Settings.MessageThenRead | src/c/main.c:483-633 | After a message and the read that follows it, each carried field has its decoded value. A "default" locale falls back to the system locale. |
| Settings.HandlerIdempotent | src/c/main.c:483-633 | Handling the same message twice gives the same store and the same configuration as handling it once. |
| Layout.GetWidth | src/c/main.c:114-123 | A digit's width is 11..31, and 0 outside 0..9. |
| Layout.GetImageHour | src/c/main.c:100-105 | The hour glyph shows the digit in the configured hour weight, and is blank outside 0..9. |
| Layout.GetImageMin | src/c/main.c:107-112 | The minute glyph shows the digit in the configured minute weight, and is blank outside 0..9. |
| Layout.GetTotalWidth | src/c/main.c:126-137 | The four widths plus the padding lie between 20 and 144 for any digits, so "0000" at most fills the canvas. |
| Layout.StartX | src/c/main.c:235-236 | The centred start lies in 0..62 for any digits. |
| Layout.StartXCentres | src/c/main.c:234-236 | The row start is never negative and leaves equal margins, up to one odd unit. The total is the sum of the widths plus the padding. |
| Layout.Placements | src/c/main.c:229-283 | A render has exactly four digit layers. |
| Layout.PlacementShapes | src/c/main.c:246-281 | Every layer is 43 high at the row's top and as wide as its digit. Hours use the hour style and minutes the minute style. |
| Layout.GlyphXs | src/c/main.c:240-277 | Each glyph's x is the row start plus the lead gap and the widths and gaps before it. |
| Layout.GlyphsAbut | src/c/main.c:252-277 | Glyphs within a group are 4 apart. The groups are 8 apart without a separator and 10 apart with one. |
| Layout.GlyphsInsideCanvas | src/c/main.c:234-281 | For every digit combination and every separator, every glyph rectangle lies inside the 144-unit canvas. |
| Layout.RowCentred | src/c/main.c:234-246 | The right margin equals the left one or exceeds it by one. |
| Layout.SeparatorDots | src/c/main.c:179-201 | Two dots exactly for the four known separator styles and none otherwise. The corner radius is 1 for round, 2 for bold round and 0 for the square styles. |
| Layout.SeparatorBetweenGroups | src/c/main.c:179-201 | Each known style draws two dots of the same x, 19 apart, 4 or 6 square at the style's height. Both dots fall strictly between the hour group and the minute group. |
| Layout.NoSeparatorNoDots | src/c/main.c:179-201 | No separator, or an unknown style, draws no dots. |
| Dates.Decimal | src/c/main.c:387 | "%d" of a day of the month: one digit below 10, otherwise the tens digit then the units digit. |
| Dates.DateLine | src/c/main.c:384-393 | The line starts with the day name and a space. It ends with the month name in every locale but English, and with the day number in English. |
| Dates.DateTextAsWritten | src/c/main.c:387 | The text in the declared 11-byte buffer is a prefix of the date line: the whole line if it is shorter than 11 bytes, otherwise its first 10 bytes. |
| Dates.DateShown | src/c/main.c:387 | The same with a 12-byte buffer: the whole line if it is shorter than 12 bytes, otherwise its first 11 bytes. |
| Dates.Snprintf | src/c/main.c:387 | The buffer keeps the longest prefix of the line that fits before the terminator. A line that fits is kept whole. |
| Dates.DayNameLength | src/c/main.c:65-71 | Every day name is three bytes, except the Spanish Wednesday, which is four. |
| Dates.MonthNameLength | src/c/main.c:74-80 | Every month name is three bytes. |
| Dates.DateLineLength | src/c/main.c:384-393 | The date line's length is the day name plus one or two digits plus the month and two spaces. |
| Dates.DateShownIsWhole | src/c/main.c:383-393 | A 12-byte buffer always holds the whole date line. |
| Dates.DateTextAsWrittenCut | src/c/main.c:387 | The declared 11-byte buffer cuts the line exactly on Spanish Wednesdays from the 10th on. |
| Dates.SpanishWednesdayExample | src/c/main.c:387 | Wednesday 15 March in Spanish reads "Mié 15 Ma" as written and "Mié 15 Mar" with the larger buffer. |
| Dates.EnglishOrderExample | src/c/main.c:389-393 | English puts the month before the day number: "Thu Mar 7". |
| Dates.FrenchOrderExample | src/c/main.c:384-388 | Other locales put the day number before the month: "Jeu 7 Mar". |
| WatchFace.Face.constructor | src/c/main.c:647-670 | Start-up reads the configuration from the persisted store onto the static defaults. The window then shows 00:00 in the configured styles and the date placeholder, with no charge state and no connection yet. |
| WatchFace.Face.ReadConfiguration | src/c/main.c:424-481 | The configuration becomes the one read from the store on top of the current one, and stays valid. |
| WatchFace.Face.LoadTimeImages | src/c/main.c:229-283 | Stepping the x from glyph to glyph gives exactly the layout's four placements for the current digits. |
| WatchFace.Face.LayerUpdateCallback | src/c/main.c:150-203 | Draws the bar in the charge tier's colour at the build's offset, and the separator dots for the current digits and style. |
| WatchFace.Face.DecodeTime | src/c/main.c:359-378 | Formatting and decoding the hour and minute gives the time's digits, with the leading zero stripped as configured. |
| WatchFace.Face.WriteDate | src/c/main.c:383-393 | The date text is the whole localised date line, in the locale's field order. |
| WatchFace.Face.UpdateConnection | src/c/main.c:402-417 | The warning shows exactly while disconnected. The watch vibrates exactly on a disconnected tick that either follows a connected one or has repeat on. The last state becomes the current one. |
| WatchFace.Face.ShowTime | src/c/main.c:350-400 | The digits, the date text and the four glyph layers all agree with the tick's time. |
| WatchFace.Face.UpdateDisplay | src/c/main.c:337-418 | One tick: the charge state, the time digits, the date, the glyph layers, the warning and the vibration, each as its own rule gives it. |
| WatchFace.Face.PersistMessage | src/c/main.c:487-630 | The store becomes the store after the message, and stays well-formed. |
| WatchFace.Face.InReceivedHandler | src/c/main.c:483-634 | The message is persisted and the configuration re-read. Then the display is redrawn with the new settings: charge state, digits (stripped as newly configured), date in the new locale, glyph layers and warning. The vibration follows the new repeat setting. |
| Classic.GetWidth | src/main.c:64-73 | A digit's width is 15..35, and 0 outside 0..9. |
| Classic.GetImageHour | src/main.c:50-55 | Hour glyphs are always bold, and blank outside 0..9. |
| Classic.GetImageMin | src/main.c:57-62 | Minute glyphs are always regular, and blank outside 0..9. |
| Classic.GetTotalWidth | src/main.c:76-85 | The four widths total at most 140, which leaves at least 2 on each side of the 144 canvas. |
| Classic.Placements | src/main.c:150-195 | A render has exactly four digit layers. |
| Classic.GlyphsAbut | src/main.c:163-191 | Each glyph starts where the previous one ends, and together they span the total width. |
| Classic.GlyphsInsideCanvas | src/main.c:150-195 | Every glyph rectangle lies inside the canvas for any digits. |
| Classic.RowCentred | src/main.c:155-157 | The row is centred up to one odd unit, with a margin of at least 2. |
| Classic.PlacementShapes | src/main.c:163-194 | Hours are 43 high at y 27 and bold. Minutes are 42 high at y 28 and regular. Each layer is as wide as its digit. |
| Classic.BarLines | src/main.c:120-123 | The bar is four horizontal lines on consecutive rows. They are centred on the 144 canvas, lie below every digit glyph for any digits, and end above the date layer at y 96 (src/main.c:209). |
| Classic.ClassicFace.constructor | src/main.c:198-227 | Start-up shows 00:00 and the fixed date placeholder "Ddd 00 Mmm", with no charge state and no connection yet. |
| Classic.ClassicFace.LoadTimeImages | src/main.c:150-195 | Stepping the x from glyph to glyph gives exactly the four placements for the current digits. |
| Classic.ClassicFace.LayerUpdateCallback | src/main.c:98-124 | The bar colour is the charge tier's, or white without colour support, and the bar is drawn as its four lines. |
| Classic.ClassicFace.DecodeTime | src/main.c:271-287 | Formatting and decoding gives the time's digits, and the hour's leading zero always shows. |
| Classic.ClassicFace.ShowTime | src/main.c:260-297 | The digits, the date text and the glyph layers agree with the tick. |
| Classic.ClassicFace.UpdateConnection | src/main.c:299-314 | While connected, the date shows and the warning hides. While disconnected, the reverse. Only the tick that loses the connection vibrates. |
| Classic.ClassicFace.UpdateDisplay | src/main.c:249-315 | One tick: the charge state, the digits, the date, the glyph layers, the hidden layers and the vibration. |

## Left out

- **UI toolkit calls.** Window, layer, bitmap, font and text-layer
  creation and destruction are not modelled. So are `unload_time_images`
  and `main_window_unload`. The glyph list is replaced whole instead of
  being released and reloaded.
- **Host readings.** `time`/`localtime`, `clock_is_24h_style`, the
  battery peek and the connection peek are not called. Their values
  arrive as a `HostReading` argument.
- **System locale.** `setlocale` is not called; its result is a string
  argument.
- **Vibration.** `vibes_double_pulse` is not called. Whether it would be
  called is returned as a boolean.
- **Persistent storage.** The `persist_*` calls become the `Store` map.
  The `persist_exists` check before `persist_delete` is folded into map
  removal, which means the same thing.
- **App message plumbing.** The dictionary lookup
  (`dict_find`/`cstring`) is folded into the `Message` map.
  `app_message_open` and the buffer sizes are not modelled.
- **Logging.** `APP_LOG` and `in_dropped_handler` are not modelled;
  they only log.
- **Event loop.** `init` registering handlers, `deinit`, `main` and the
  tick subscription are not modelled.
  - The tick handler is `update_display`.
  - The message handler ends with `read_configuration` followed by
    `update_display`.
  - `init`'s final `update_display` is a separate call after the
    constructor.
- **Phone-side settings.** The JavaScript configuration pages are not
  part of this model.
- **Classic date.** `strftime("%a %d %b")` uses the system's own day and
  month names. The classic variant's date text is therefore an input
  (`hostDate`) and not derived.
- **WatchFace.Face.constructor.** It requires a well-formed persisted
  store. A store holding a locale outside 0..4 would make the C code index
  the day and month tables out of bounds (undefined behaviour). The
  handler never writes such a value (`Settings.StoreAfterMessageWellFormed`).
- WatchFace.Face.WriteDate: writes the date through the corrected 12-byte
  buffer (`Dates.DateShown`), not the declared 11-byte one. On Spanish
  Wednesdays from the 10th on, the model shows the whole line where the
  program cuts the last letter (see "## Findings"). The same holds for
  `ShowTime`, `UpdateDisplay` and `InReceivedHandler`, which call it.
- **Split methods.** `DecodeTime`, `WriteDate`, `UpdateConnection`,
  `ShowTime` and `PersistMessage` are steps of a single C function
  (`update_display`, `in_received_handler`), separated so that each
  carries its own contract.
- **Build switches.** The Chalk screen and colour support are compile-time
  switches in C. Here they are a `Build` value. The classic variant has
  only a colour switch.

## Findings

| source | as written | input that shows it | evidently intended | confidence | as-written member | corrected member |
|---|---|---|---|---|---|---|
| src/c/main.c:387 | `snprintf` into a buffer of `sizeof("ddd 00 mmm")` = 11 bytes. The Spanish "Mié" is 4 UTF-8 bytes, so "Mié 15 Mar" needs 12. | Spanish locale, Wednesday 15 March: the date shows "Mié 15 Ma". | The whole date line is shown. The buffer must hold the longest line, 10 characters in 11 bytes plus the terminator. | medium; not executed | Dates.DateTextAsWritten (cut shown by Dates.DateTextAsWrittenCut and Dates.SpanishWednesdayExample) | Dates.DateShown (whole line proved by Dates.DateShownIsWhole; used by WatchFace.Face.WriteDate) |
