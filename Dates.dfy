/** The date line of the configurable watch face: localised day and month
    names, the field order per locale, and the bytes that end up in the
    fixed-size text buffer. Text is modelled as UTF-8 bytes, as the C
    string literals hold it. */
module Dates {
  import opened Common
  import opened Settings

  /** The bytes of an ASCII string: one byte per character. */
  function Ascii(s: string): (bytes: seq<int>)
    ensures |bytes| == |s|
  {
    seq(|s|, i requires 0 <= i < |s| => s[i] as int)
  }

  /** The two UTF-8 bytes of the accented letter in the Spanish "Mié". */
  const E_ACUTE: seq<int> := [0xC3, 0xA9]

  /** Abbreviated day names as the C string literals hold them (UTF-8),
      Sunday first (en, fr, de, es, it). */
  const DAYS: seq<seq<seq<int>>> := [
    [Ascii("Sun"), Ascii("Mon"), Ascii("Tue"), Ascii("Wed"), Ascii("Thu"), Ascii("Fri"), Ascii("Sat")],
    [Ascii("Dim"), Ascii("Lun"), Ascii("Mar"), Ascii("Mer"), Ascii("Jeu"), Ascii("Ven"), Ascii("Sam")],
    [Ascii("Son"), Ascii("Mon"), Ascii("Die"), Ascii("Mit"), Ascii("Don"), Ascii("Fre"), Ascii("Sam")],
    [Ascii("Dom"), Ascii("Lun"), Ascii("Mar"), Ascii("Mi") + E_ACUTE, Ascii("Jue"), Ascii("Vie"), Ascii("Sab")],
    [Ascii("Dom"), Ascii("Lun"), Ascii("Mar"), Ascii("Mer"), Ascii("Gio"), Ascii("Ven"), Ascii("Sab")]
  ]

  /** Abbreviated month names, January first (en, fr, de, es, it). */
  const MONTHS: seq<seq<seq<int>>> := [
    [Ascii("Jan"), Ascii("Feb"), Ascii("Mar"), Ascii("Apr"), Ascii("May"), Ascii("Jun"),
     Ascii("Jul"), Ascii("Aug"), Ascii("Sep"), Ascii("Oct"), Ascii("Nov"), Ascii("Dec")],
    [Ascii("Jan"), Ascii("Fev"), Ascii("Mar"), Ascii("Avr"), Ascii("Mai"), Ascii("Jui"),
     Ascii("Jul"), Ascii("Aou"), Ascii("Sep"), Ascii("Oct"), Ascii("Nov"), Ascii("Dec")],
    [Ascii("Jan"), Ascii("Feb"), Ascii("Mrz"), Ascii("Apr"), Ascii("Mai"), Ascii("Jun"),
     Ascii("Jul"), Ascii("Aug"), Ascii("Sep"), Ascii("Okt"), Ascii("Nov"), Ascii("Dez")],
    [Ascii("Ene"), Ascii("Feb"), Ascii("Mar"), Ascii("Abr"), Ascii("May"), Ascii("Jun"),
     Ascii("Jul"), Ascii("Ago"), Ascii("Sep"), Ascii("Oct"), Ascii("Nov"), Ascii("Dic")],
    [Ascii("Gen"), Ascii("Feb"), Ascii("Mar"), Ascii("Apr"), Ascii("Mag"), Ascii("Giu"),
     Ascii("Lug"), Ascii("Ago"), Ascii("Set"), Ascii("Ott"), Ascii("Nov"), Ascii("Dic")]
  ]

  /** Size of the date buffer as declared: sizeof("ddd 00 mmm"). */
  const DATE_BUFFER_AS_WRITTEN := 11
  /** Size the buffer needs for the longest date line, "Mié 15 Mar". */
  const DATE_BUFFER := 12

  const SPACE := ' ' as int

  /** The text the date layer is created with, before the first tick. */
  const DATE_PLACEHOLDER := Ascii("Ddd 00 Mmm")

  /** Decimal digits of a natural number, as "%d" prints it. */
  function Decimal(n: nat): (digits: seq<int>)
    ensures 1 <= |digits|
    ensures n < 10 ==> |digits| == 1
    ensures 10 <= n < 100 ==> |digits| == 2
    ensures n < 10 ==> digits == [DigitChar(n)]
    ensures 10 <= n < 100 ==> digits == [DigitChar(n / 10), DigitChar(n % 10)]
    decreases n
  {
    if n < 10 then [DigitChar(n)] else Decimal(n / 10) + [DigitChar(n % 10)]
  }

  /** The full date line: "day month mday" in English, "day mday month" in
      every other locale. */
  function DateLine(locale: int, t: Clock): (line: seq<int>)
    requires LOCALE_EN <= locale <= LOCALE_IT && ValidClock(t)
    ensures DAYS[locale][t.wday] + [SPACE] <= line
    ensures locale != LOCALE_EN ==>
      line[|line| - |MONTHS[locale][t.mon]|..] == MONTHS[locale][t.mon]
    ensures locale == LOCALE_EN ==>
      line[|line| - |Decimal(t.mday)|..] == Decimal(t.mday)
  {
    if locale != LOCALE_EN then
      (DAYS[locale][t.wday]) + [SPACE] + Decimal(t.mday) + [SPACE] + (MONTHS[locale][t.mon])
    else
      (DAYS[0][t.wday]) + [SPACE] + (MONTHS[0][t.mon]) + [SPACE] + Decimal(t.mday)
  }

  /** What snprintf leaves in a buffer of `size` bytes, terminator aside. */
  function Snprintf(s: seq<int>, size: nat): (r: seq<int>)
    requires size >= 1
    ensures |r| < size
    ensures r <= s
    ensures |s| < size ==> r == s
    ensures |s| >= size ==> r == s[..size - 1]
  {
    if |s| < size then s else s[..size - 1]
  }

  /** The date text with the buffer as declared. */
  function DateTextAsWritten(locale: int, t: Clock): (text: seq<int>)
    requires LOCALE_EN <= locale <= LOCALE_IT && ValidClock(t)
    ensures text <= DateLine(locale, t)
    ensures |text| == if |DateLine(locale, t)| < DATE_BUFFER_AS_WRITTEN then |DateLine(locale, t)|
                      else DATE_BUFFER_AS_WRITTEN - 1
  {
    Snprintf(DateLine(locale, t), DATE_BUFFER_AS_WRITTEN)
  }

  /** The date text with a buffer one byte longer, which always holds the
      whole line. */
  function DateShown(locale: int, t: Clock): (text: seq<int>)
    requires LOCALE_EN <= locale <= LOCALE_IT && ValidClock(t)
    ensures text <= DateLine(locale, t)
    ensures |text| == if |DateLine(locale, t)| < DATE_BUFFER then |DateLine(locale, t)|
                      else DATE_BUFFER - 1
  {
    Snprintf(DateLine(locale, t), DATE_BUFFER)
  }

  /** Every day name takes three bytes except the Spanish Wednesday, whose
      accented letter takes two. */
  lemma DayNameLength(locale: int, wday: int)
    requires LOCALE_EN <= locale <= LOCALE_IT && 0 <= wday <= 6
    ensures |DAYS[locale][wday]| == if locale == LOCALE_ES && wday == 3 then 4 else 3
  {
  }

  /** Every month name takes three bytes. */
  lemma MonthNameLength(locale: int, mon: int)
    requires LOCALE_EN <= locale <= LOCALE_IT && 0 <= mon <= 11
    ensures |MONTHS[locale][mon]| == 3
  {
  }

  /** The length of the date line: the two names, the day number and two
      spaces. */
  lemma DateLineLength(locale: int, t: Clock)
    requires LOCALE_EN <= locale <= LOCALE_IT && ValidClock(t)
    ensures |DateLine(locale, t)|
         == (if locale == LOCALE_ES && t.wday == 3 then 4 else 3)
            + (if t.mday < 10 then 1 else 2) + 5
  {
    DayNameLength(locale, t.wday);
    MonthNameLength(locale, t.mon);
    if locale != LOCALE_EN {
      DayNameLength(0, t.wday);
      MonthNameLength(0, t.mon);
    }
  }

  /** With a 12-byte buffer the date line is never cut. */
  lemma DateShownIsWhole(locale: int, t: Clock)
    requires LOCALE_EN <= locale <= LOCALE_IT && ValidClock(t)
    ensures DateShown(locale, t) == DateLine(locale, t)
  {
    DateLineLength(locale, t);
  }

  /** The declared 11-byte buffer cuts the date line exactly on Spanish
      Wednesdays from the 10th of the month on. */
  lemma DateTextAsWrittenCut(locale: int, t: Clock)
    requires LOCALE_EN <= locale <= LOCALE_IT && ValidClock(t)
    ensures DateTextAsWritten(locale, t) != DateLine(locale, t)
        <==> locale == LOCALE_ES && t.wday == 3 && t.mday >= 10
  {
    DateLineLength(locale, t);
  }

  /** Wednesday 15 March in Spanish shows "Mié 15 Ma" with the declared
      buffer and the whole "Mié 15 Mar" with the larger one. */
  lemma SpanishWednesdayExample()
    ensures DateTextAsWritten(LOCALE_ES, Clock(12, 0, 3, 15, 2)) == Ascii("Mi") + E_ACUTE + Ascii(" 15 Ma")
    ensures DateShown(LOCALE_ES, Clock(12, 0, 3, 15, 2)) == Ascii("Mi") + E_ACUTE + Ascii(" 15 Mar")
  {
    var t := Clock(12, 0, 3, 15, 2);
    assert Decimal(15) == Ascii("15");
    assert DateLine(LOCALE_ES, t) == Ascii("Mi") + E_ACUTE + Ascii(" 15 Mar");
    DateLineLength(LOCALE_ES, t);
  }

  /** Thursday 7 March in English: "Thu Mar 7", month before day number. */
  lemma EnglishOrderExample()
    ensures DateShown(LOCALE_EN, Clock(12, 0, 4, 7, 2)) == Ascii("Thu Mar 7")
  {
    var t := Clock(12, 0, 4, 7, 2);
    assert Decimal(7) == Ascii("7");
    assert DateLine(LOCALE_EN, t) == Ascii("Thu Mar 7");
    DateLineLength(LOCALE_EN, t);
  }

  /** Thursday 7 March in French: "Jeu 7 Mar", day number before month. */
  lemma FrenchOrderExample()
    ensures DateShown(LOCALE_FR, Clock(12, 0, 4, 7, 2)) == Ascii("Jeu 7 Mar")
  {
    var t := Clock(12, 0, 4, 7, 2);
    assert Decimal(7) == Ascii("7");
    assert DateLine(LOCALE_FR, t) == Ascii("Jeu 7 Mar");
    DateLineLength(LOCALE_FR, t);
  }
}
