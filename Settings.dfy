/** The user configuration of the configurable watch face: the persisted
    key/value store, the inbound configuration message that writes it, and
    the reading of the store back into the configuration. */
module Settings {
  import opened Common

  const LOCALE_EN := 0
  const LOCALE_FR := 1
  const LOCALE_DE := 2
  const LOCALE_ES := 3
  const LOCALE_IT := 4

  const TIME_SEP_NONE := 0
  const TIME_SEP_SQUARE := 1
  const TIME_SEP_ROUND := 2
  const TIME_SEP_SQUARE_BOLD := 3
  const TIME_SEP_ROUND_BOLD := 4

  /** The message keys, which are also the persisted keys. */
  datatype Key = HhInBold | MmInBold | Locale | HhStripZero | TimeSep | RepeatVib

  /** The persisted store: booleans are kept as 0 or 1. */
  type Store = map<Key, int>

  /** An inbound configuration message: the string value of each field it
      carries. */
  type Message = map<Key, string>

  datatype Config = Config(
    hhInBold: bool,
    mmInBold: bool,
    locale: int,
    hhStripZero: bool,
    timeSep: int,
    repeatVib: bool)

  /** The static initial values of the configuration globals. */
  const DEFAULT_CONFIG := Config(true, false, LOCALE_EN, false, TIME_SEP_NONE, false)

  /** A locale that indexes the day and month tables. */
  predicate ValidConfig(c: Config) {
    LOCALE_EN <= c.locale <= LOCALE_IT
  }

  /** The values a key can hold once the message handler has written it. */
  predicate InDomain(k: Key, v: int) {
    match k
    case Locale => LOCALE_EN <= v <= LOCALE_IT
    case TimeSep => TIME_SEP_NONE <= v <= TIME_SEP_ROUND_BOLD
    case _ => v == 0 || v == 1
  }

  predicate WellFormedStore(s: Store) {
    forall k :: k in s ==> InDomain(k, s[k])
  }

  function PersistedBool(b: bool): int {
    if b then 1 else 0
  }

  // ---------------------------------------------------------------------
  // Decoding the message's string values

  /** The message value naming each non-English locale. */
  function LocaleName(code: int): string
    requires LOCALE_FR <= code <= LOCALE_IT
  {
    if code == LOCALE_FR then "fr"
    else if code == LOCALE_DE then "de"
    else if code == LOCALE_ES then "es"
    else "it"
  }

  /** The locale a message asks for; None means "default", which removes
      the persisted locale; anything unrecognised means English. */
  function LocaleCode(s: string): (r: Option<int>)
    ensures r.None? <==> s == "default"
    ensures r.Some? ==> LOCALE_EN <= r.value <= LOCALE_IT
    ensures r.Some? && r.value != LOCALE_EN ==> s == LocaleName(r.value)
  {
    if s == "default" then None
    else if s == "fr" then Some(LOCALE_FR)
    else if s == "de" then Some(LOCALE_DE)
    else if s == "es" then Some(LOCALE_ES)
    else if s == "it" then Some(LOCALE_IT)
    else Some(LOCALE_EN)
  }

  lemma LocaleRoundTrip(code: int)
    requires LOCALE_FR <= code <= LOCALE_IT
    ensures LocaleCode(LocaleName(code)) == Some(code)
  {
  }

  /** The message value naming each separator style. */
  function TimeSepName(code: int): string
    requires TIME_SEP_SQUARE <= code <= TIME_SEP_ROUND_BOLD
  {
    if code == TIME_SEP_SQUARE then "square"
    else if code == TIME_SEP_ROUND then "round"
    else if code == TIME_SEP_SQUARE_BOLD then "squareb"
    else "roundb"
  }

  /** The separator style a message asks for; anything unrecognised means
      no separator. */
  function TimeSepCode(s: string): (r: int)
    ensures TIME_SEP_NONE <= r <= TIME_SEP_ROUND_BOLD
    ensures r != TIME_SEP_NONE ==> s == TimeSepName(r)
  {
    if s == "square" then TIME_SEP_SQUARE
    else if s == "round" then TIME_SEP_ROUND
    else if s == "squareb" then TIME_SEP_SQUARE_BOLD
    else if s == "roundb" then TIME_SEP_ROUND_BOLD
    else TIME_SEP_NONE
  }

  lemma TimeSepRoundTrip(code: int)
    requires TIME_SEP_SQUARE <= code <= TIME_SEP_ROUND_BOLD
    ensures TimeSepCode(TimeSepName(code)) == code
  {
  }

  /** What the handler persists for field `k` carrying string `s`; None
      means the key is removed. The hour flags are false only for "0", the
      minute-bold and repeat flags true only for "1". */
  function Encoded(k: Key, s: string): (r: Option<int>)
    ensures r.None? <==> k == Locale && s == "default"
    ensures r.Some? ==> InDomain(k, r.value)
  {
    match k
    case HhInBold => Some(PersistedBool(s != "0"))
    case MmInBold => Some(PersistedBool(s == "1"))
    case Locale => LocaleCode(s)
    case HhStripZero => Some(PersistedBool(s != "0"))
    case TimeSep => Some(TimeSepCode(s))
    case RepeatVib => Some(PersistedBool(s == "1"))
  }

  /** The store after a message: every field the message carries is
      written (or, for a "default" locale, removed); every other key keeps
      what it held. */
  function StoreAfterMessage(store: Store, msg: Message): (r: Store)
    ensures forall k :: k !in msg ==> (k in r <==> k in store)
    ensures forall k :: k !in msg && k in store ==> r[k] == store[k]
    ensures forall k :: k in msg ==> (k in r <==> Encoded(k, msg[k]).Some?)
    ensures forall k :: k in msg && k in r ==> r[k] == Encoded(k, msg[k]).value
  {
    map k | k in store.Keys + msg.Keys && (k in msg ==> Encoded(k, msg[k]).Some?) ::
      if k in msg then Encoded(k, msg[k]).value else store[k]
  }

  /** The store after the handler's step for field `k` alone: written,
      removed, or untouched when the message does not carry `k`. */
  function PersistField(store: Store, msg: Message, k: Key): (r: Store)
    ensures forall j :: j != k ==> (j in r <==> j in store)
    ensures forall j :: j != k && j in r ==> r[j] == store[j]
  {
    if k !in msg then store
    else match Encoded(k, msg[k])
      case None => store - {k}
      case Some(v) => store[k := v]
  }

  /** The handler's six steps, in the order it takes them, give the store
      after the message: each step touches only its own key. */
  lemma StepsGiveStoreAfterMessage(store: Store, msg: Message)
    ensures
      var s1 := PersistField(store, msg, HhInBold);
      var s2 := PersistField(s1, msg, MmInBold);
      var s3 := PersistField(s2, msg, Locale);
      var s4 := PersistField(s3, msg, HhStripZero);
      var s5 := PersistField(s4, msg, TimeSep);
      PersistField(s5, msg, RepeatVib) == StoreAfterMessage(store, msg)
  {
    var s1 := PersistField(store, msg, HhInBold);
    var s2 := PersistField(s1, msg, MmInBold);
    var s3 := PersistField(s2, msg, Locale);
    var s4 := PersistField(s3, msg, HhStripZero);
    var s5 := PersistField(s4, msg, TimeSep);
    var s6 := PersistField(s5, msg, RepeatVib);
    var r := StoreAfterMessage(store, msg);
    forall k
      ensures (k in s6 <==> k in r) && (k in s6 ==> s6[k] == r[k])
    {
      match k
      case HhInBold =>
      case MmInBold =>
      case Locale =>
      case HhStripZero =>
      case TimeSep =>
      case RepeatVib =>
    }
    assert s6.Keys == r.Keys;
  }

  /** Only values the watch face understands ever reach the store. */
  lemma StoreAfterMessageWellFormed(store: Store, msg: Message)
    requires WellFormedStore(store)
    ensures WellFormedStore(StoreAfterMessage(store, msg))
  {
  }

  /** Applying the same message twice leaves the store as applying it once. */
  lemma StoreAfterMessageIdempotent(store: Store, msg: Message)
    ensures StoreAfterMessage(StoreAfterMessage(store, msg), msg) == StoreAfterMessage(store, msg)
  {
  }

  // ---------------------------------------------------------------------
  // Reading the configuration back

  /** The system locale name that selects each non-English locale. */
  function SystemLocaleName(code: int): string
    requires LOCALE_FR <= code <= LOCALE_IT
  {
    if code == LOCALE_FR then "fr_FR"
    else if code == LOCALE_DE then "de_DE"
    else if code == LOCALE_ES then "es_ES"
    else "it_IT"
  }

  /** The locale derived from the system locale when none is persisted. */
  function SystemLocale(sysLocale: string): (r: int)
    ensures LOCALE_EN <= r <= LOCALE_IT
    ensures r != LOCALE_EN ==> sysLocale == SystemLocaleName(r)
  {
    if sysLocale == "fr_FR" then LOCALE_FR
    else if sysLocale == "de_DE" then LOCALE_DE
    else if sysLocale == "es_ES" then LOCALE_ES
    else if sysLocale == "it_IT" then LOCALE_IT
    else LOCALE_EN
  }

  lemma SystemLocaleRoundTrip(code: int)
    requires LOCALE_FR <= code <= LOCALE_IT
    ensures SystemLocale(SystemLocaleName(code)) == code
  {
  }

  /** The configuration read from the store: each persisted field replaces
      the current value, an absent field keeps it, and an absent locale
      comes from the system locale. */
  function ConfigFromStore(store: Store, sysLocale: string, current: Config): (c: Config)
    ensures WellFormedStore(store) ==> ValidConfig(c)
    ensures Locale !in store ==> c.locale == SystemLocale(sysLocale)
    ensures HhInBold !in store ==> c.hhInBold == current.hhInBold
    ensures MmInBold !in store ==> c.mmInBold == current.mmInBold
    ensures HhStripZero !in store ==> c.hhStripZero == current.hhStripZero
    ensures TimeSep !in store ==> c.timeSep == current.timeSep
    ensures RepeatVib !in store ==> c.repeatVib == current.repeatVib
    ensures Locale in store ==> c.locale == store[Locale]
    ensures TimeSep in store ==> c.timeSep == store[TimeSep]
    ensures HhInBold in store ==> c.hhInBold == (store[HhInBold] != 0)
    ensures MmInBold in store ==> c.mmInBold == (store[MmInBold] != 0)
    ensures HhStripZero in store ==> c.hhStripZero == (store[HhStripZero] != 0)
    ensures RepeatVib in store ==> c.repeatVib == (store[RepeatVib] != 0)
  {
    Config(
      hhInBold := if HhInBold in store then store[HhInBold] != 0 else current.hhInBold,
      mmInBold := if MmInBold in store then store[MmInBold] != 0 else current.mmInBold,
      locale := if Locale in store then store[Locale] else SystemLocale(sysLocale),
      hhStripZero := if HhStripZero in store then store[HhStripZero] != 0 else current.hhStripZero,
      timeSep := if TimeSep in store then store[TimeSep] else current.timeSep,
      repeatVib := if RepeatVib in store then store[RepeatVib] != 0 else current.repeatVib)
  }

  /** At start-up, from an empty store, every field keeps its default and
      the locale follows the system locale. */
  lemma EmptyStoreGivesDefaults(sysLocale: string)
    ensures ConfigFromStore(map[], sysLocale, DEFAULT_CONFIG)
         == DEFAULT_CONFIG.(locale := SystemLocale(sysLocale))
  {
  }

  /** Reading the same store again changes nothing. */
  lemma ConfigFromStoreIdempotent(store: Store, sysLocale: string, current: Config)
    ensures var c := ConfigFromStore(store, sysLocale, current);
            ConfigFromStore(store, sysLocale, c) == c
  {
  }

  /** A message followed by a read of the store sets every field the
      message carries to its decoded value. */
  lemma MessageThenRead(store: Store, msg: Message, sysLocale: string, current: Config)
    ensures var c := ConfigFromStore(StoreAfterMessage(store, msg), sysLocale, current);
      && (HhInBold in msg ==> c.hhInBold == (msg[HhInBold] != "0"))
      && (MmInBold in msg ==> c.mmInBold == (msg[MmInBold] == "1"))
      && (HhStripZero in msg ==> c.hhStripZero == (msg[HhStripZero] != "0"))
      && (RepeatVib in msg ==> c.repeatVib == (msg[RepeatVib] == "1"))
      && (TimeSep in msg ==> c.timeSep == TimeSepCode(msg[TimeSep]))
      && (Locale in msg && msg[Locale] == "default" ==> c.locale == SystemLocale(sysLocale))
      && (Locale in msg && msg[Locale] != "default" ==> c.locale == LocaleCode(msg[Locale]).value)
  {
  }

  /** Handling the same message twice gives the same store and the same
      configuration as handling it once. */
  lemma HandlerIdempotent(store: Store, msg: Message, sysLocale: string, current: Config)
    ensures var s1 := StoreAfterMessage(store, msg);
            var c1 := ConfigFromStore(s1, sysLocale, current);
            && StoreAfterMessage(s1, msg) == s1
            && ConfigFromStore(StoreAfterMessage(s1, msg), sysLocale, c1) == c1
  {
    StoreAfterMessageIdempotent(store, msg);
    ConfigFromStoreIdempotent(StoreAfterMessage(store, msg), sysLocale, current);
  }
}
