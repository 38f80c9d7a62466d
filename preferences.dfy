/**
  The page's preferences: in-memory state with hard-coded defaults, restored
  once from `localStorage` on mount, and written back one key per field
  whenever that field changes. `localStorage` is a `map<string, string>`.
*/
module Preferences {
  import opened Wrappers
  import opened Numbers

  const DarkKey := "wc_dark"
  const TimezoneKey := "wc_timezone"
  const Is24hKey := "wc_is24h"
  const FontKey := "wc_font"
  const DigitalStyleKey := "wc_digitalStyle"
  const AnalogStyleKey := "wc_analogStyle"
  const ClockModeKey := "wc_clockMode"

  /** The zones the settings panel offers. */
  const Timezones: seq<string> := [
    "UTC", "America/New_York", "Europe/London", "Asia/Kolkata",
    "Asia/Tokyo", "Australia/Sydney", "Europe/Paris", "America/Los_Angeles"
  ]

  /** The font class names the settings panel offers; the first is the default. */
  const Fonts: seq<string> := ["font-sans", "font-mono", "font-serif"]

  /** The persisted fields of the page's state. A clock mode is any string: the
      stored value is cast, not checked. */
  datatype Prefs = Prefs(timezone: string, is24h: bool, font: string,
                         digitalStyle: Num, analogStyle: Num, clockMode: string, dark: bool)

  /** The `useState` initial values; `dark` comes from `getInitialDark`. */
  function Defaults(dark: bool): Prefs {
    Prefs("UTC", false, Fonts[0], Int(0), Int(0), "digital", dark)
  }

  /** `localStorage.getItem(key)`: null (None) when the key is absent. */
  function Lookup(storage: map<string, string>, key: string): Option<string> {
    if key in storage then Some(storage[key]) else None
  }

  /** `getInitialDark`: false when there is no window (server render); otherwise
      the stored flag when present, else the system colour-scheme preference. */
  function InitialDark(onClient: bool, storage: map<string, string>, prefersDark: bool): bool {
    if !onClient then false
    else match Lookup(storage, DarkKey)
      case Some(stored) => stored == "true"
      case None => prefersDark
  }

  /** `String(b)` for a boolean. */
  function BoolString(b: bool): string {
    if b then "true" else "false"
  }

  /** A flag is restored whenever its key is present (`!== null`): true exactly for "true". */
  function RestoreFlag(stored: Option<string>, current: bool): bool {
    if stored.Some? then stored.value == "true" else current
  }

  /** A string field is restored only from a present, non-empty (truthy) value. */
  function RestoreText(stored: Option<string>, current: string): string {
    if stored.Some? && stored.value != "" then stored.value else current
  }

  /** A style index is restored from a present, non-empty value through `Number`,
      with no range check. */
  function RestoreNumber(stored: Option<string>, current: Num): Num {
    if stored.Some? && stored.value != "" then ToNumber(stored.value) else current
  }

  /** The restore effect: each field from its own key, under its own test. */
  function Restored(p: Prefs, storage: map<string, string>): Prefs {
    Prefs(RestoreText(Lookup(storage, TimezoneKey), p.timezone),
          RestoreFlag(Lookup(storage, Is24hKey), p.is24h),
          RestoreText(Lookup(storage, FontKey), p.font),
          RestoreNumber(Lookup(storage, DigitalStyleKey), p.digitalStyle),
          RestoreNumber(Lookup(storage, AnalogStyleKey), p.analogStyle),
          RestoreText(Lookup(storage, ClockModeKey), p.clockMode),
          RestoreFlag(Lookup(storage, DarkKey), p.dark))
  }

  /** The storage after every persist effect has written its field's current value. */
  function Persisted(p: Prefs, storage: map<string, string>): map<string, string> {
    storage[DarkKey := BoolString(p.dark)]
           [TimezoneKey := p.timezone]
           [Is24hKey := BoolString(p.is24h)]
           [FontKey := p.font]
           [DigitalStyleKey := ToString(p.digitalStyle)]
           [AnalogStyleKey := ToString(p.analogStyle)]
           [ClockModeKey := p.clockMode]
  }

  /** The storage holds the six fields other than the dark flag, each under its
      key, as their persist effects write them. */
  predicate HoldsFields(p: Prefs, storage: map<string, string>) {
    && Lookup(storage, TimezoneKey) == Some(p.timezone)
    && Lookup(storage, Is24hKey) == Some(BoolString(p.is24h))
    && Lookup(storage, FontKey) == Some(p.font)
    && Lookup(storage, DigitalStyleKey) == Some(ToString(p.digitalStyle))
    && Lookup(storage, AnalogStyleKey) == Some(ToString(p.analogStyle))
    && Lookup(storage, ClockModeKey) == Some(p.clockMode)
  }

  /** The storage holds every field of p under its key. */
  predicate Mirrors(p: Prefs, storage: map<string, string>) {
    HoldsFields(p, storage) && Lookup(storage, DarkKey) == Some(BoolString(p.dark))
  }

  /** The two storages agree on every key outside `keys`. */
  ghost predicate AgreeOutside(storage: map<string, string>, other: map<string, string>, keys: set<string>) {
    forall k :: k !in keys ==> Lookup(storage, k) == Lookup(other, k)
  }

  /** The seven keys are pairwise distinct. */
  lemma KeysDistinct()
    ensures |PreferenceKeys()| == 7
    ensures DarkKey != TimezoneKey && DarkKey != Is24hKey && DarkKey != FontKey && DarkKey != DigitalStyleKey
    ensures DarkKey != AnalogStyleKey && DarkKey != ClockModeKey
    ensures TimezoneKey != Is24hKey && TimezoneKey != FontKey && TimezoneKey != DigitalStyleKey
    ensures TimezoneKey != AnalogStyleKey && TimezoneKey != ClockModeKey
    ensures Is24hKey != FontKey && Is24hKey != DigitalStyleKey && Is24hKey != AnalogStyleKey && Is24hKey != ClockModeKey
    ensures FontKey != DigitalStyleKey && FontKey != AnalogStyleKey && FontKey != ClockModeKey
    ensures DigitalStyleKey != AnalogStyleKey && DigitalStyleKey != ClockModeKey
    ensures AnalogStyleKey != ClockModeKey
  {
  }

  /** The `wc_` keys the page owns. */
  function PreferenceKeys(): set<string> {
    {DarkKey, TimezoneKey, Is24hKey, FontKey, DigitalStyleKey, AnalogStyleKey, ClockModeKey}
  }

  /** The keys of the six persist effects other than the dark-mode one. */
  function FieldKeys(): set<string> {
    {TimezoneKey, Is24hKey, FontKey, DigitalStyleKey, AnalogStyleKey, ClockModeKey}
  }

  /** Persisting every field over a storage that agrees with `initial` outside
      the six field keys gives one that holds every field and agrees with
      `initial` outside the page's keys. */
  lemma PersistedAgrees(p: Prefs, storage: map<string, string>, initial: map<string, string>)
    requires AgreeOutside(storage, initial, FieldKeys())
    ensures Mirrors(p, Persisted(p, storage))
    ensures AgreeOutside(Persisted(p, storage), initial, PreferenceKeys())
  {
    PersistedMirrors(p, storage);
  }

  /** The six field writes of the first commit. */
  lemma FieldWrites(p: Prefs, storage: map<string, string>)
    ensures var written := storage[TimezoneKey := p.timezone][Is24hKey := BoolString(p.is24h)]
                                  [FontKey := p.font][DigitalStyleKey := ToString(p.digitalStyle)]
                                  [AnalogStyleKey := ToString(p.analogStyle)][ClockModeKey := p.clockMode];
      HoldsFields(p, written) && AgreeOutside(written, storage, FieldKeys())
  {
  }

  /** Each field is written through an injective encoding, so a written value
      changes exactly when the field does. */
  lemma EncodingsInjective(a: bool, b: bool, x: Num, y: Num)
    ensures BoolString(a) == BoolString(b) <==> a == b
    ensures ToString(x) == ToString(y) <==> x == y
  {
    ToNumberInvertsToString(x);
    ToNumberInvertsToString(y);
  }

  /** Writing the value a key already holds changes nothing. */
  lemma RewriteSame(storage: map<string, string>, key: string, value: string)
    requires Lookup(storage, key) == Some(value)
    ensures storage[key := value] == storage
  {
  }

  /** A storage that holds every field of p and otherwise agrees with `before`
      is exactly `before` with every field persisted. */
  lemma MirrorsDetermine(p: Prefs, storage: map<string, string>, before: map<string, string>)
    requires Mirrors(p, storage) && AgreeOutside(storage, before, PreferenceKeys())
    ensures storage == Persisted(p, before)
  {
    var after := Persisted(p, before);
    forall k ensures k in storage <==> k in after {
      assert Lookup(storage, k).Some? <==> Lookup(after, k).Some?;
    }
    forall k | k in storage ensures storage[k] == after[k] {
      assert Lookup(storage, k) == Lookup(after, k);
    }
  }

  /** The string fields are non-empty, as every option the settings panel offers is. */
  predicate NonEmptyTexts(p: Prefs) {
    p.timezone != "" && p.font != "" && p.clockMode != ""
  }

  /** The two flags are restored from their own keys alone: a present value
      gives true exactly when it is "true" (any other string, "" included,
      gives false), an absent one keeps the value; and `String(b)` restores b. */
  lemma FlagRestore(p: Prefs, storage: map<string, string>, b: bool)
    ensures Restored(p, storage).is24h ==
      (if Is24hKey in storage then storage[Is24hKey] == "true" else p.is24h)
    ensures Restored(p, storage).dark ==
      (if DarkKey in storage then storage[DarkKey] == "true" else p.dark)
    ensures Restored(p, storage[Is24hKey := BoolString(b)]).is24h == b
    ensures Restored(p, storage[DarkKey := BoolString(b)]).dark == b
  {
  }

  /** Writing every field and restoring from the result gives every field back,
      from whatever state the restore starts. */
  lemma PersistRestoreRoundTrip(p: Prefs, q: Prefs, storage: map<string, string>)
    requires NonEmptyTexts(p)
    ensures Restored(q, Persisted(p, storage)) == p
  {
    PersistedMirrors(p, storage);
    MirroredRestores(p, q, Persisted(p, storage));
  }

  /** Persisting puts every field under its key and touches no other key. */
  lemma PersistedMirrors(p: Prefs, storage: map<string, string>)
    ensures Mirrors(p, Persisted(p, storage))
    ensures forall k :: k !in PreferenceKeys() ==> Lookup(Persisted(p, storage), k) == Lookup(storage, k)
  {
  }

  /** A storage in step with p restores to p, whatever the state before. */
  lemma MirroredRestores(p: Prefs, q: Prefs, storage: map<string, string>)
    requires NonEmptyTexts(p) && Mirrors(p, storage)
    ensures Restored(q, storage) == p
  {
    ToNumberInvertsToString(p.digitalStyle);
    ToNumberInvertsToString(p.analogStyle);
  }

  /** Persisting into a storage that is already in step changes nothing. */
  lemma PersistIdempotent(p: Prefs, storage: map<string, string>)
    requires Mirrors(p, storage)
    ensures Persisted(p, storage) == storage
  {
  }

  /** A restore from a storage holding none of the page's keys keeps every field. */
  lemma RestoreFromEmpty(p: Prefs, storage: map<string, string>)
    requires forall k :: k in PreferenceKeys() ==> k !in storage
    ensures Restored(p, storage) == p
  {
  }

  /** Each text or number field is restored from its own key alone: a
      present, non-empty value replaces it (through `Number` for the style
      indices), an absent or empty one leaves it as it was. */
  lemma RestoreTextFields(p: Prefs, storage: map<string, string>)
    ensures Lookup(storage, TimezoneKey) in {None, Some("")} ==> Restored(p, storage).timezone == p.timezone
    ensures (TimezoneKey in storage && storage[TimezoneKey] != "") ==>
      Restored(p, storage).timezone == storage[TimezoneKey]
    ensures Lookup(storage, FontKey) in {None, Some("")} ==> Restored(p, storage).font == p.font
    ensures (FontKey in storage && storage[FontKey] != "") ==> Restored(p, storage).font == storage[FontKey]
    ensures Lookup(storage, DigitalStyleKey) in {None, Some("")} ==>
      Restored(p, storage).digitalStyle == p.digitalStyle
    ensures (DigitalStyleKey in storage && storage[DigitalStyleKey] != "") ==>
      Restored(p, storage).digitalStyle == ToNumber(storage[DigitalStyleKey])
    ensures Lookup(storage, AnalogStyleKey) in {None, Some("")} ==>
      Restored(p, storage).analogStyle == p.analogStyle
    ensures (AnalogStyleKey in storage && storage[AnalogStyleKey] != "") ==>
      Restored(p, storage).analogStyle == ToNumber(storage[AnalogStyleKey])
    ensures Lookup(storage, ClockModeKey) in {None, Some("")} ==> Restored(p, storage).clockMode == p.clockMode
    ensures (ClockModeKey in storage && storage[ClockModeKey] != "") ==>
      Restored(p, storage).clockMode == storage[ClockModeKey]
  {
  }

  /** On the client the restore never changes the theme of the first render:
      `getInitialDark` has already read the same stored flag. And a page
      started over a storage its predecessor persisted starts in that page's theme. */
  lemma InitialDarkAgreesWithRestore(p: Prefs, storage: map<string, string>, prefersDark: bool)
    ensures Restored(Defaults(InitialDark(true, storage, prefersDark)), storage).dark
            == InitialDark(true, storage, prefersDark)
    ensures InitialDark(true, Persisted(p, storage), prefersDark) == p.dark
  {
  }

  /** No range check: a stored "99" becomes style index 99, and a stored "x" NaN. */
  lemma NoRangeCheck(p: Prefs)
    ensures Restored(p, map[DigitalStyleKey := "99"]).digitalStyle == Int(99)
    ensures Restored(p, map[AnalogStyleKey := "x"]).analogStyle == NaN
  {
    var digits := map[DigitalStyleKey := "99"];
    assert Lookup(digits, DigitalStyleKey) == Some("99");
    assert "99"[..1] == "9" && DigitsValue("9") == 9;
    assert ToNumber("99") == Int(99);
    var letter := map[AnalogStyleKey := "x"];
    assert Lookup(letter, AnalogStyleKey) == Some("x");
    assert !IsDigit("x"[0]);
    assert ToNumber("x") == NaN;
  }

  /** Every option the settings panel offers is non-empty, so restores. */
  lemma OffersAreRestorable(p: Prefs, tz: nat, font: nat, mode: string)
    requires tz < |Timezones| && font < |Fonts| && mode in {"digital", "analog"}
    ensures NonEmptyTexts(p.(timezone := Timezones[tz], font := Fonts[font], clockMode := mode))
  {
  }

  /** The page's state and the `localStorage` it persists to. */
  class PreferenceStore {
    var timezone: string
    var is24h: bool
    var font: string
    var digitalStyle: Num
    var analogStyle: Num
    var clockMode: string
    var dark: bool
    var mounted: bool
    var storage: map<string, string>

    /** The persisted fields; `mounted` and `storage` are not among them. */
    function Current(): Prefs
      reads this`timezone, this`is24h, this`font, this`digitalStyle, this`analogStyle,
            this`clockMode, this`dark
    {
      Prefs(timezone, is24h, font, digitalStyle, analogStyle, clockMode, dark)
    }

    /** The storage holds the current value of every field. */
    predicate InSync()
      reads this
    {
      Mirrors(Current(), storage)
    }

    /** The first render: the `useState` defaults over the given storage. */
    constructor (stored: map<string, string>, onClient: bool, prefersDark: bool)
      ensures Current() == Defaults(InitialDark(onClient, stored, prefersDark))
      ensures !mounted && storage == stored
    {
      timezone, is24h, font := "UTC", false, Fonts[0];
      digitalStyle, analogStyle, clockMode := Int(0), Int(0), "digital";
      dark := InitialDark(onClient, stored, prefersDark);
      mounted := false;
      storage := stored;
    }

    /** The restore effect: reads every key and updates each field under its own test. */
    method Restore()
      modifies this
      ensures Current() == Restored(old(Current()), old(storage))
      ensures storage == old(storage) && mounted == old(mounted)
    {
      var storedDark := Lookup(storage, DarkKey);
      var storedTimezone := Lookup(storage, TimezoneKey);
      var storedIs24h := Lookup(storage, Is24hKey);
      var storedFont := Lookup(storage, FontKey);
      var storedDigitalStyle := Lookup(storage, DigitalStyleKey);
      var storedAnalogStyle := Lookup(storage, AnalogStyleKey);
      var storedClockMode := Lookup(storage, ClockModeKey);
      dark := RestoreFlag(storedDark, dark);
      timezone := RestoreText(storedTimezone, timezone);
      is24h := RestoreFlag(storedIs24h, is24h);
      font := RestoreText(storedFont, font);
      digitalStyle := RestoreNumber(storedDigitalStyle, digitalStyle);
      analogStyle := RestoreNumber(storedAnalogStyle, analogStyle);
      clockMode := RestoreText(storedClockMode, clockMode);
    }

    /** The dark-mode effect: writes only once the page is mounted. `value` and
        `renderedMounted` are the values of the render the effect belongs to. */
    method PersistDark(value: bool, renderedMounted: bool)
      modifies this`storage
      ensures storage == if renderedMounted then old(storage)[DarkKey := BoolString(value)] else old(storage)
    {
      if renderedMounted {
        storage := storage[DarkKey := BoolString(value)];
      }
    }

    method PersistTimezone(value: string)
      modifies this`storage
      ensures storage == old(storage)[TimezoneKey := value]
    {
      storage := storage[TimezoneKey := value];
    }

    method PersistIs24h(value: bool)
      modifies this`storage
      ensures storage == old(storage)[Is24hKey := BoolString(value)]
    {
      storage := storage[Is24hKey := BoolString(value)];
    }

    method PersistFont(value: string)
      modifies this`storage
      ensures storage == old(storage)[FontKey := value]
    {
      storage := storage[FontKey := value];
    }

    method PersistDigitalStyle(value: Num)
      modifies this`storage
      ensures storage == old(storage)[DigitalStyleKey := ToString(value)]
    {
      storage := storage[DigitalStyleKey := ToString(value)];
    }

    method PersistAnalogStyle(value: Num)
      modifies this`storage
      ensures storage == old(storage)[AnalogStyleKey := ToString(value)]
    {
      storage := storage[AnalogStyleKey := ToString(value)];
    }

    method PersistClockMode(value: string)
      modifies this`storage
      ensures storage == old(storage)[ClockModeKey := value]
    {
      storage := storage[ClockModeKey := value];
    }

    /** Mounting: the first commit runs every effect in declaration order with
        the first render's values (the dark effect sees `mounted` false and
        writes nothing; the persist effects, which run after the restore,
        write the defaults); the second commit re-runs the dark effect
        (`mounted` changed) and each persist effect whose field the restore
        changed. In the end the fields are the restored ones and the storage
        holds each of them, every other key untouched. */
    method Mount()
      requires !mounted
      modifies this
      ensures mounted
      ensures Current() == Restored(old(Current()), old(storage))
      ensures storage == Persisted(Current(), old(storage))
      ensures InSync()
    {
      var first := FirstCommit();
      ghost var committed := storage;
      SecondCommit(first);
      PersistedAgrees(Current(), committed, old(storage));
      MirrorsDetermine(Current(), storage, old(storage));
    }

    /** The first commit; returns the first render's values. */
    method FirstCommit() returns (first: Prefs)
      requires !mounted
      modifies this
      ensures first == old(Current()) && mounted
      ensures Current() == Restored(first, old(storage))
      ensures HoldsFields(first, storage) && AgreeOutside(storage, old(storage), FieldKeys())
    {
      first := Current();
      mounted := true;
      PersistDark(first.dark, false);
      Restore();
      PersistTimezone(first.timezone);
      PersistIs24h(first.is24h);
      PersistFont(first.font);
      PersistDigitalStyle(first.digitalStyle);
      PersistAnalogStyle(first.analogStyle);
      PersistClockMode(first.clockMode);
      FieldWrites(first, old(storage));
    }

    /** The second commit, after the state set during the first: the dark-mode
        effect (its `mounted` dependency changed) and each persist effect whose
        field differs from `first` run again. */
    method SecondCommit(first: Prefs)
      requires HoldsFields(first, storage)
      modifies this`storage
      ensures storage == Persisted(Current(), old(storage))
    {
      KeysDistinct();
      PersistDark(dark, true);
      Rerun(TimezoneKey, first.timezone, timezone);
      Rerun(Is24hKey, BoolString(first.is24h), BoolString(is24h));
      Rerun(FontKey, first.font, font);
      Rerun(DigitalStyleKey, ToString(first.digitalStyle), ToString(digitalStyle));
      Rerun(AnalogStyleKey, ToString(first.analogStyle), ToString(analogStyle));
      Rerun(ClockModeKey, first.clockMode, clockMode);
    }

    /** A persist effect in a later commit, given the value it wrote last and
        the value it would write now: it runs only if its dependency changed,
        which is when the written value changes (see `EncodingsInjective`);
        either way the key ends up holding the new value. */
    method Rerun(key: string, previous: string, value: string)
      requires Lookup(storage, key) == Some(previous)
      modifies this`storage
      ensures storage == old(storage)[key := value]
    {
      if value != previous {
        storage := storage[key := value];
      } else {
        RewriteSame(storage, key, value);
      }
    }

    /** Choosing a timezone: the field changes, and its effect writes its key
        only if the value differs; nothing else changes. */
    method SetTimezone(value: string)
      modifies this
      ensures Current() == old(Current()).(timezone := value) && mounted == old(mounted)
      ensures storage == if value == old(timezone) then old(storage) else old(storage)[TimezoneKey := value]
      ensures old(InSync()) ==> InSync()
    {
      if value != timezone {
        timezone := value;
        PersistTimezone(timezone);
      }
    }

    method SetIs24h(value: bool)
      modifies this
      ensures Current() == old(Current()).(is24h := value) && mounted == old(mounted)
      ensures storage == if value == old(is24h) then old(storage) else old(storage)[Is24hKey := BoolString(value)]
      ensures old(InSync()) ==> InSync()
    {
      if value != is24h {
        is24h := value;
        PersistIs24h(is24h);
      }
    }

    method SetFont(value: string)
      modifies this
      ensures Current() == old(Current()).(font := value) && mounted == old(mounted)
      ensures storage == if value == old(font) then old(storage) else old(storage)[FontKey := value]
      ensures old(InSync()) ==> InSync()
    {
      if value != font {
        font := value;
        PersistFont(font);
      }
    }

    method SetDigitalStyle(value: Num)
      modifies this
      ensures Current() == old(Current()).(digitalStyle := value) && mounted == old(mounted)
      ensures storage == if value == old(digitalStyle) then old(storage)
                         else old(storage)[DigitalStyleKey := ToString(value)]
      ensures old(InSync()) ==> InSync()
    {
      if value != digitalStyle {
        digitalStyle := value;
        PersistDigitalStyle(digitalStyle);
      }
    }

    method SetAnalogStyle(value: Num)
      modifies this
      ensures Current() == old(Current()).(analogStyle := value) && mounted == old(mounted)
      ensures storage == if value == old(analogStyle) then old(storage)
                         else old(storage)[AnalogStyleKey := ToString(value)]
      ensures old(InSync()) ==> InSync()
    {
      if value != analogStyle {
        analogStyle := value;
        PersistAnalogStyle(analogStyle);
      }
    }

    method SetClockMode(value: string)
      modifies this
      ensures Current() == old(Current()).(clockMode := value) && mounted == old(mounted)
      ensures storage == if value == old(clockMode) then old(storage) else old(storage)[ClockModeKey := value]
      ensures old(InSync()) ==> InSync()
    {
      if value != clockMode {
        clockMode := value;
        PersistClockMode(clockMode);
      }
    }
  }

  /** Reloading the page: a new store over the storage an in-step page left
      behind, once mounted, has the same preferences and leaves the storage as
      it found it. */
  method Reload(previous: PreferenceStore, prefersDark: bool) returns (next: PreferenceStore)
    requires previous.InSync() && NonEmptyTexts(previous.Current())
    ensures next.Current() == previous.Current()
    ensures next.mounted && next.storage == previous.storage
  {
    next := new PreferenceStore(previous.storage, true, prefersDark);
    next.Mount();
    MirroredRestores(previous.Current(), Defaults(InitialDark(true, previous.storage, prefersDark)),
                     previous.storage);
    PersistIdempotent(previous.Current(), previous.storage);
  }
}
