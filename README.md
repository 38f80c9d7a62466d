# World clock: a verified model

This project models the logic of a single-page world-clock web app. The app
shows the current time in a chosen zone, on a digital face (five skins) or an
analog face (three skins). Its preferences are timezone, 12/24-hour format,
font, clock mode, the two style indices and dark mode. They are restored
from and written back to the browser's `localStorage`.

Modules, one per concern of the source:

- `Numbers` (numbers.dfy): JavaScript numbers as far as the page persists
  them, `Num = Int(int) | NaN`. It also holds `n.toString()`, `String(v)` and
  `Number(s)`, with the round trip `Number(String(v)) == v`.
- `TimeFormat` (time_format.dfy): the fields the page derives from the current
  instant. These are `pad`, the 12-hour display hour and the AM/PM indicator,
  together with proofs that the padded text reads back as the time.
- `DigitalClock` (digital_clock.dfy): the `switch` over five skins. A rendered
  face is the sequence of text pieces it shows, each tagged as a time field, a
  separator or the suffix. `Shown` selects the pieces of one kind in order.
- `AnalogClock` (analog_clock.dfy): `getAngles` in exact `real` arithmetic, the
  `if` chain over three skins, and the twelve dial markers (numbers or ticks).
- `Preferences` (preferences.dfy): the page's state as the class
  `PreferenceStore`. Its fields are the seven preferences, `mounted`, and
  `storage: map<string, string>`, which stands for `localStorage`.
  - The restore effect and the seven persist effects are methods.
  - `Mount` replays React's first two commits in effect declaration order. In
    the first commit the dark-mode effect sees `mounted` false and writes
    nothing, the restore runs, and the six field effects write the
    first-render (default) values. In the second commit the dark-mode effect
    runs because `mounted` changed, and each field effect whose field the
    restore changed runs again.
  - `Mount` is proved to leave the restored fields with every one of them
    written under its key and every other key untouched. A page reloaded over
    that storage gets the same preferences back (`Reload`).
- `Page` (page.dfy): the clock area. It is nothing before mount. After mount
  it shows the digital component exactly when the mode is `"digital"` and the
  analog one otherwise.

The code validates nothing it restores, and the model follows it:

- An unknown timezone does not fall back to UTC. Nothing in the code checks
  it, and `getTime` passes it straight to `toLocaleString`.
- A stored style index out of range or not a number is not replaced by 0. It
  is restored as is (`"99"` gives 99, `"x"` gives NaN), and the component then
  renders nothing (`NoRangeCheck`, `StoredOutOfRangeStyleShowsNothing`).
- A stored clock mode is cast, not checked. Any string other than `"digital"`
  selects the analog face (`StoredUnknownModeShowsAnalog`).
- An empty stored timezone, font, style or mode string is ignored
  (`RestoreTextFields`). A stored flag is never ignored: any present value
  other than `"true"`, the empty string included, restores as `false`
  (`FlagRestore`).

## Model

| member | source | states |
|---|---|---|
| Numbers.DecimalString | src/app/page.tsx:29 | `n.toString()` is at least one decimal digit, with a leading "0" only for 0 |
| Numbers.DecimalStringValue | src/app/page.tsx:29 | the digits `toString` writes denote n again |
| Numbers.DecimalStringLength | src/app/page.tsx:29 | one digit below 10, two from 10 to 99, at least three from 100 |
| Numbers.ToNumberInvertsToString | src/app/page.tsx:104-105 | `Number(String(v)) == v` for every integer and for NaN, so a persisted style index restores unchanged |
| Numbers.ToString | src/app/page.tsx:118-123 | `String(v)` of a style index: "NaN" for NaN, otherwise the decimal digits of the magnitude with "-" before a negative; contract in `ToNumberInvertsToString` and `EncodingsInjective` |
| Numbers.ToNumber | src/app/page.tsx:104-105 | `Number(s)` on a stored style string: 0 for "", the value of optionally signed decimal digits, NaN for anything else; contract in `ToNumberInvertsToString` and `NoRangeCheck` |
| TimeFormat.PadStart | src/app/page.tsx:29 | `padStart` gives length max(width, \|s\|), ends with s, and fills the front with the fill character |
| TimeFormat.Pad | src/app/page.tsx:28-30 | `n.toString().padStart(2, "0")`, the same as `pad` at DigitalClock.tsx:13-15; contract in `PadTwoDigits` and `PadValue` |
| TimeFormat.PadTwoDigits | src/app/page.tsx:28-30 | for 0..99 `pad` gives exactly two digits whose value is n, the first a "0" iff n < 10 |
| TimeFormat.PadValue | src/app/DigitalClock.tsx:13-15 | `pad` never truncates: at least two digits that denote n, and from 100 on it is `toString` unchanged |
| TimeFormat.AmPm | src/app/page.tsx:131 | `hour >= 12 ? "PM" : "AM"`; contract in `TwelveHourRoundTrip` |
| TimeFormat.DisplayHour | src/app/page.tsx:132 | `is24h ? hour : hour % 12`, with a zero remainder shown as 12; contract in `DisplayHourRange`, `TwelveHourRoundTrip` and `PaddedHourReadsBack` |
| TimeFormat.DisplayHourRange | src/app/page.tsx:132 | in 12-hour mode the display hour is in 1..12, congruent to the hour mod 12, and 12 iff hour mod 12 is 0; in 24-hour mode it is the hour |
| TimeFormat.TwelveHourRoundTrip | src/app/page.tsx:131-132 | "PM" iff hour >= 12, and display hour with AM/PM determines the 24-hour hour |
| TimeFormat.PaddedHourReadsBack | src/app/page.tsx:131-132 | the padded display hour is two digits; read back with AM/PM (12h) it gives the hour, and in 24h it is the hour |
| TimeFormat.PaddedFieldReadsBack | src/app/DigitalClock.tsx:13-15 | a padded minute or second is two digits that read back as the value |
| TimeFormat.ShownTimeReadsBack | src/app/page.tsx:128-132 | the three padded numerals of a valid time (with AM/PM in 12h mode) are two digits each and read back as hour, minute and second |
| DigitalClock.SkinFor | src/app/DigitalClock.tsx:18-91 | the `switch (styleIndex)`: `===` on 0..4 selects the skin of that case, `default` none; contract in `SkinForDispatch` |
| DigitalClock.Layout | src/app/DigitalClock.tsx:19-88 | the text pieces each case's JSX shows, in order, each tagged as numeral or separator; contract in `LayoutShown` and `FlipHasThreeCells` |
| DigitalClock.BlinkSeparator | src/app/DigitalClock.tsx:27 | `mounted ? (second % 2 === 0 ? ":" : " ") : ":"`; contract in `BlinkAlternates` |
| DigitalClock.Render | src/app/DigitalClock.tsx:17-92 | the component: the selected skin's layout of pad(hour), pad(minute), pad(second) and the blinking separator, then `ampm` unless 24-hour; `null` for any other index; contract in `RenderDispatch`, `RenderShows` and `FlipHasThreeCells` |
| DigitalClock.SkinForDispatch | src/app/DigitalClock.tsx:18-91 | style indices 0..4 select a skin, whose position is that index; every other index, NaN included, selects none |
| DigitalClock.RenderDispatch | src/app/DigitalClock.tsx:18-91 | the component renders a face iff the index is an integer in 0..4, and the face is of the indexed skin; otherwise `null` |
| DigitalClock.LayoutShown | src/app/DigitalClock.tsx:24-28 | every skin shows hour, minute, second numerals in that order; separators are ":" plus the blinking one (skins 0, 3), two colons (skins 2, 4) or none (skin 1) |
| DigitalClock.RenderShows | src/app/DigitalClock.tsx:18-91 | every face shows pad(hour), pad(minute), pad(second) in order, the AM/PM suffix iff not 24-hour and then as the last piece, and the skin's separators |
| DigitalClock.FlipHasThreeCells | src/app/DigitalClock.tsx:39-46 | the flip skin renders exactly three cells, the padded fields, then the optional suffix |
| DigitalClock.BlinkAlternates | src/app/DigitalClock.tsx:27 | the blinking separator is ":" before mount; once mounted ":" iff the second is even, " " otherwise, so it changes every second |
| AnalogClock.GetAngles | src/app/AnalogClock.tsx:8-20 | the angle hour is hour mod 12 in 0..11; hour and minute angles lie in [0, 360) and the second angle is a multiple of 6 in [0, 354] for valid fields |
| AnalogClock.AnglesScaled | src/app/AnalogClock.tsx:13-15 | hour angle = 30 h + m/2, minute angle = 6 m + s/10, second angle = 6 s |
| AnalogClock.AngleExamples | src/app/AnalogClock.tsx:13-14 | 3:00 and 15:00 put the hour hand at 90 degrees; half past puts the minute hand at 180 |
| AnalogClock.HandsAdvance | src/app/AnalogClock.tsx:13-15 | the hour hand strictly advances with the minute, the minute and second hands with the second |
| AnalogClock.HandsContinuous | src/app/AnalogClock.tsx:13-14 | from minute 59 to the next hour the hour hand moves by the same half degree as within the hour, and from second 59 to the next minute the minute hand by the same tenth of a degree |
| AnalogClock.DialLabels | src/app/AnalogClock.tsx:39-48 | twelve dial numbers, the i-th at 30 i degrees showing `i === 0 ? 12 : i`; contract in `DialLabelsNameTheirHour` and `HourHandOnItsNumber` |
| AnalogClock.TickMarks | src/app/AnalogClock.tsx:62-71 | twelve ticks, the i-th at 30 i degrees with width `i % 3 === 0 ? 3 : 1` (the same map at AnalogClock.tsx:91-100); contract in `MajorTicks` |
| AnalogClock.SkinFor | src/app/AnalogClock.tsx:28-109 | the `if (styleIndex === k)` chain: 0, 1, 2 select their skin, anything else none; contract in `RenderDispatch` |
| AnalogClock.Render | src/app/AnalogClock.tsx:22-110 | the component: the selected skin with the hands of `getAngles`, dial numbers on the California dial and ticks on the others; `null` for any other index; contract in `RenderDispatch` |
| AnalogClock.RenderDispatch | src/app/AnalogClock.tsx:28-109 | indices 0, 1, 2 render their skin, anything else `null`; all skins draw the same hands and 12 markers at 30 i degrees, numbers exactly on the California dial |
| AnalogClock.DialLabelsNameTheirHour | src/app/AnalogClock.tsx:39-45 | the dial shows 12 at index 0 and i at index i: each number 1..12 exactly once, at 30 times its value mod 12 degrees |
| AnalogClock.MajorTicks | src/app/AnalogClock.tsx:69 | a tick has width 3 iff its index is a multiple of 3, otherwise 1; the wide ticks stand at 0, 90, 180 and 270 degrees |
| AnalogClock.HourHandOnItsNumber | src/app/AnalogClock.tsx:39-45 | on the hour the hour hand points at the dial number equal to the 12-hour display hour |
| Preferences.Defaults | src/app/page.tsx:47-67 | the `useState` initial values: "UTC", 12-hour, the first font, both styles 0, mode "digital", and the given theme; contract in `PreferenceStore.constructor`, `InitialDarkAgreesWithRestore` and `ClockAreaAfterRestore` |
| Preferences.InitialDark | src/app/page.tsx:36-43 | `getInitialDark`: false off the client, else stored "wc_dark" === "true" when present, else the system preference; contract in `InitialDarkAgreesWithRestore` |
| Preferences.Restored | src/app/page.tsx:92-107 | the fields after the restore effect's seven tests; contract in `FlagRestore`, `RestoreTextFields`, `RestoreFromEmpty`, `MirroredRestores` and `PreferenceStore.Restore` |
| Preferences.Persisted | src/app/page.tsx:80-126 | the storage after every persist effect has written its field; contract in `PersistedMirrors`, `PersistIdempotent`, `MirrorsDetermine` and `PreferenceStore.Mount` |
| Preferences.InitialDarkAgreesWithRestore | src/app/page.tsx:36-43 | on the client the restore keeps the first render's theme, and a page started over a persisted storage starts in the persisting page's theme |
| Preferences.FlagRestore | src/app/page.tsx:100-102 | each flag of `Restored` comes from its own key alone: a present value gives (stored == "true"), so "" and every other string give false, an absent key keeps the value; `String(b)` written under the key restores b |
| Preferences.RestoreTextFields | src/app/page.tsx:101-106 | each of timezone, font, both styles and mode is restored from its own key alone: from a present non-empty value (through `Number` for the styles), otherwise kept |
| Preferences.NoRangeCheck | src/app/page.tsx:104-105 | a stored "99" restores as style 99 and a stored "x" as NaN: no range check |
| Preferences.RestoreFromEmpty | src/app/page.tsx:92-107 | with none of the page's keys stored, the restore keeps every field |
| Preferences.EncodingsInjective | src/app/page.tsx:113-122 | `String` on booleans and on numbers is injective, so a written value changes exactly when its field does |
| Preferences.PersistedMirrors | src/app/page.tsx:109-126 | persisting writes every field under its own key and leaves every other key unchanged |
| Preferences.MirroredRestores | src/app/page.tsx:92-107 | a storage holding every (non-empty) field restores exactly those fields, from any state |
| Preferences.PersistRestoreRoundTrip | src/app/page.tsx:92-126 | restoring from what the persist effects wrote gives every field back |
| Preferences.PersistIdempotent | src/app/page.tsx:109-126 | persisting into a storage already in step changes nothing |
| Preferences.OffersAreRestorable | src/app/page.tsx:4-20 | every timezone and font of the lists at page.tsx:4-20, and both clock modes the select offers at page.tsx:233-234, are non-empty, so they pass the restore's truthiness test |
| Preferences.MirrorsDetermine | src/app/page.tsx:109-126 | a storage holding every field and otherwise equal to the old one is exactly the old one with every field persisted |
| Preferences.PreferenceStore.constructor | src/app/page.tsx:47-67 | first render: timezone "UTC", 12-hour, "font-sans", both styles 0, mode "digital", dark from `getInitialDark`; not mounted |
| Preferences.PreferenceStore.Restore | src/app/page.tsx:92-107 | each field takes its restored value under its own test; storage and `mounted` unchanged |
| Preferences.PreferenceStore.PersistDark | src/app/page.tsx:80-89 | writes `String(dark)` under "wc_dark" only in a mounted render |
| Preferences.PreferenceStore.PersistTimezone | src/app/page.tsx:109-111 | writes the timezone under "wc_timezone", nothing else |
| Preferences.PreferenceStore.PersistIs24h | src/app/page.tsx:112-114 | writes `String(is24h)` under "wc_is24h", nothing else |
| Preferences.PreferenceStore.PersistFont | src/app/page.tsx:115-117 | writes the font under "wc_font", nothing else |
| Preferences.PreferenceStore.PersistDigitalStyle | src/app/page.tsx:118-120 | writes `String(digitalStyle)` under "wc_digitalStyle", nothing else |
| Preferences.PreferenceStore.PersistAnalogStyle | src/app/page.tsx:121-123 | writes `String(analogStyle)` under "wc_analogStyle", nothing else |
| Preferences.PreferenceStore.PersistClockMode | src/app/page.tsx:124-126 | writes the mode under "wc_clockMode", nothing else |
| Preferences.PreferenceStore.FirstCommit | src/app/page.tsx:69-126 | after the first commit the fields are the restored ones while the six field keys hold the first render's values, other keys untouched |
| Preferences.PreferenceStore.SecondCommit | src/app/page.tsx:80-126 | the second commit leaves every field written under its key over the storage it started from |
| Preferences.PreferenceStore.Mount | src/app/page.tsx:69-126 | after mounting the fields are the restored ones, the storage is the old one with every field persisted, and the two are in step |
| Preferences.PreferenceStore.SetTimezone | src/app/page.tsx:109-111 | choosing a timezone changes that field only and writes its key only if the value changed; storage stays in step |
| Preferences.PreferenceStore.SetIs24h | src/app/page.tsx:112-114 | the same for the 12/24-hour flag |
| Preferences.PreferenceStore.SetFont | src/app/page.tsx:115-117 | the same for the font |
| Preferences.PreferenceStore.SetDigitalStyle | src/app/page.tsx:118-120 | the same for the digital style |
| Preferences.PreferenceStore.SetAnalogStyle | src/app/page.tsx:121-123 | the same for the analog style |
| Preferences.PreferenceStore.SetClockMode | src/app/page.tsx:124-126 | the same for the clock mode |
| Preferences.Reload | src/app/page.tsx:92-126 | a new page mounted over the storage an in-step page left has the same preferences and leaves the storage as it was |
| Page.ClockAreaAfterRestore | src/app/page.tsx:150-176 | after the restore the mounted page shows the digital panel iff the stored mode is "digital", absent or empty, the analog panel for every other string |
| Page.ClockArea | src/app/page.tsx:134-176 | `null` before mount; then the digital component fed with displayHour, minute, second, ampm, is24h, mounted and the digital style iff `clockMode === 'digital'`, otherwise the analog one with the time and the analog style; contract in `ClockAreaAfterRestore`, `DigitalTextDeterminesTime` and `StoredUnknownModeShowsAnalog` |
| Page.OfferedStylesRender | src/app/page.tsx:55-66 | the offered style indices are exactly those the components render, each as the named skin |
| Page.DigitalTextDeterminesTime | src/app/page.tsx:128-161 | for a valid time and an offered style the digital text is three two-digit numerals that, with AM/PM in 12h mode, read back as the time |
| Page.AfternoonIn12Hours | src/app/page.tsx:131-132 | 14:05:30 in 12h mode shows "02", "05", "30" and "PM" |
| Page.AfternoonIn24Hours | src/app/page.tsx:131-132 | 14:05:30 in 24h mode shows "14", "05", "30" and no suffix |
| Page.MidnightIn12Hours | src/app/page.tsx:131-132 | midnight in 12h mode shows "12", "00", "00" and "AM" |
| Page.SeparatorBlinksOnPage | src/app/page.tsx:134-159 | the page only renders mounted, so the modular skin's separator is ":" on even seconds and " " on odd ones |
| Page.StoredOutOfRangeStyleShowsNothing | src/app/page.tsx:104 | a stored digital style "99" restores as 99 and the digital component then renders nothing |
| Page.StoredUnknownModeShowsAnalog | src/app/page.tsx:106 | a stored mode "Digital" restores as is and selects the analog face |

## Left out

- `getTime`, `Date`, `toLocaleString` and `toLocaleDateString`: timezone conversion and date formatting are calls into the browser's Intl support. The current instant is a `WallTime` (hour, minute, second) parameter, and the date line is not modelled.
- The one-second `setInterval` tick and its cleanup: timer plumbing. Any sequence of instants can be fed to the pure functions.
- `document.documentElement.classList` (dark theme), `window.matchMedia`, and the `typeof window` test: browser calls. `InitialDark` takes the client test and the system preference as parameters.
- Hand and marker coordinates (`Math.sin`/`Math.cos` of the angles) and all floating point: only the angles in degrees are modelled, in exact arithmetic.
- Numbers.ToNumber: models `Number` only for the empty string and an optional sign followed by decimal digits; every other string is NaN here. JavaScript reads surrounding whitespace, fractions, exponents, hex, binary, octal and "Infinity" as numbers, so a stored " 2", "2.0", "2e0", "0x2", "0b10" or "0o2" selects skin 2 in the program but renders nothing in the model, and is written back as "NaN" rather than "2". A stored value of whitespace only, such as " ", passes the truthiness test and `Number(" ")` is 0, so the program shows skin 0 where the model gets NaN and renders nothing.
- Numbers.ToString: `Num` integers are exact and unbounded, while JavaScript numbers are doubles. The program rounds stored digit strings beyond 2^53 (a stored "99999999999999999999" is read as 1e20 and written back as "100000000000000000000") and writes 1e21 and larger in exponent notation; the model reads and writes back the exact digits, so the round trips of `ToNumberInvertsToString` and `Mount` hold in the program only below those magnitudes.
- `timezone.replace("_", " ")`, the settings overlay, the footer, JSX and CSS class strings: presentation only. The settings' choices are modelled by the `Set…` methods of `PreferenceStore`.
- The real `localStorage` API (quota, exceptions, other tabs): it is a `map<string, string>` field.
- Server rendering, hydration and React's development double-invoking of effects: `Mount` replays one client mount.
- Preferences.PreferenceStore.Rerun: compares the encoded value the effect wrote last with the one it would write now. React compares the field's old and new values instead. The two agree because both encodings are injective (`Preferences.EncodingsInjective`).
