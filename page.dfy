/**
  The page's clock area: nothing before mount, then the digital component
  when the clock mode is "digital" and the analog one for any other mode,
  fed with the fields the page derives from the current instant.
*/
module Page {
  import opened Wrappers
  import opened Numbers
  import opened TimeFormat
  import opened Preferences
  import DigitalClock
  import AnalogClock

  /** What the clock area holds: the output of the digital or of the analog
      component (either may be `null`, None, for an unknown style index). */
  datatype Panel =
    | DigitalPanel(digital: Option<DigitalClock.Face>)
    | AnalogPanel(analog: Option<AnalogClock.Face>)

  /** The digital styles the settings panel offers, by index. */
  const DigitalStyleNames: seq<string> := [
    "Classic Modular", "StandBy Flip", "Liquid Glass", "Minimalist Neon", "Modern Glassmorphism"
  ]

  /** The analog styles the settings panel offers, by index. */
  const AnalogStyleNames: seq<string> := ["California Dial", "StandBy Simple", "Liquid Glass Analog"]

  /** The page's clock area for the preferences p at instant `now`: None (the
      page returns `null`) until mounted; then the `clockMode === 'digital'`
      branch, with the display hour and AM/PM derived from the hour. */
  function ClockArea(p: Prefs, mounted: bool, now: WallTime): Option<Panel> {
    if !mounted then None
    else if p.clockMode == "digital" then
      Some(DigitalPanel(DigitalClock.Render(DisplayHour(now.hour, p.is24h), now.minute, now.second,
                                            AmPm(now.hour), p.is24h, mounted, p.digitalStyle)))
    else
      Some(AnalogPanel(AnalogClock.Render(now, p.analogStyle)))
  }

  /** After the restore from `storage`, the mounted page shows the digital
      panel exactly when the stored mode is "digital", absent or empty (the
      default mode is kept), and the analog panel for any other stored string,
      including ones the settings panel never offers. */
  lemma ClockAreaAfterRestore(dark: bool, storage: map<string, string>, now: WallTime)
    ensures var area := ClockArea(Restored(Defaults(dark), storage), true, now);
      area.Some? &&
      (area.value.DigitalPanel? <==> Lookup(storage, ClockModeKey) in {None, Some(""), Some("digital")})
  {
    RestoreTextFields(Defaults(dark), storage);
  }

  /** Every style the settings panel offers renders a face of that style, and
      the offered indices are exactly those the components render. */
  lemma OfferedStylesRender(hour: nat, minute: nat, second: nat, ampm: string, is24h: bool,
                            mounted: bool, t: WallTime, i: int)
    ensures DigitalClock.Render(hour, minute, second, ampm, is24h, mounted, Int(i)).Some?
            <==> 0 <= i < |DigitalStyleNames|
    ensures AnalogClock.Render(t, Int(i)).Some? <==> 0 <= i < |AnalogStyleNames|
    ensures 0 <= i < |DigitalStyleNames| ==>
      DigitalClock.SkinIndex(DigitalClock.Render(hour, minute, second, ampm, is24h, mounted, Int(i)).value.skin) == i
    ensures 0 <= i < |AnalogStyleNames| ==>
      AnalogClock.SkinIndex(AnalogClock.Render(t, Int(i)).value.skin) == i
  {
    DigitalClock.RenderDispatch(hour, minute, second, ampm, is24h, mounted, Int(i));
    AnalogClock.RenderDispatch(t, Int(i));
  }

  /** The digital panel's text loses nothing: for a valid instant and an
      offered style, the three numerals are two-digit strings and, read back
      (with the AM/PM suffix in 12-hour mode), give the hour, minute and second. */
  lemma DigitalTextDeterminesTime(p: Prefs, now: WallTime)
    requires now.Valid() && p.clockMode == "digital"
    requires p.digitalStyle.Int? && 0 <= p.digitalStyle.value < |DigitalStyleNames|
    ensures ClockArea(p, true, now).value.digital.Some?
    ensures var face := ClockArea(p, true, now).value.digital.value;
      var fields := DigitalClock.Shown(face.segments, DigitalClock.TimeField);
      var suffix := DigitalClock.Shown(face.segments, DigitalClock.Suffix);
      && |fields| == 3
      && (forall k :: 0 <= k < 3 ==> |fields[k]| == 2 && AllDigits(fields[k]))
      && DigitsValue(fields[1]) == now.minute && DigitsValue(fields[2]) == now.second
      && (p.is24h ==> suffix == [] && DigitsValue(fields[0]) == now.hour)
      && (!p.is24h ==> |suffix| == 1 && 1 <= DigitsValue(fields[0]) <= 12 &&
                       Hour24(DigitsValue(fields[0]), suffix[0]) == now.hour)
  {
    var shown := DisplayHour(now.hour, p.is24h);
    DigitalClock.RenderDispatch(shown, now.minute, now.second, AmPm(now.hour), p.is24h, true, p.digitalStyle);
    DigitalClock.RenderShows(shown, now.minute, now.second, AmPm(now.hour), p.is24h, true, p.digitalStyle);
    ShownTimeReadsBack(now, p.is24h);
  }

  /** 14:05:30 in 12-hour mode reads "02", "05", "30" and "PM". */
  lemma AfternoonIn12Hours(p: Prefs)
    requires p.clockMode == "digital" && p.digitalStyle == Int(0) && !p.is24h
    ensures var face := ClockArea(p, true, WallTime(14, 5, 30)).value.digital.value;
      DigitalClock.Shown(face.segments, DigitalClock.TimeField) == ["02", "05", "30"] &&
      DigitalClock.Shown(face.segments, DigitalClock.Suffix) == ["PM"]
  {
    assert DisplayHour(14, false) == 2 && AmPm(14) == "PM";
    assert Pad(2) == "02" && Pad(5) == "05" && DecimalString(30) == "30";
    DigitalClock.RenderShows(2, 5, 30, "PM", false, true, Int(0));
  }

  /** 14:05:30 in 24-hour mode reads "14", "05", "30" with no suffix. */
  lemma AfternoonIn24Hours(p: Prefs)
    requires p.clockMode == "digital" && p.digitalStyle == Int(0) && p.is24h
    ensures var face := ClockArea(p, true, WallTime(14, 5, 30)).value.digital.value;
      DigitalClock.Shown(face.segments, DigitalClock.TimeField) == ["14", "05", "30"] &&
      DigitalClock.Shown(face.segments, DigitalClock.Suffix) == []
  {
    assert DecimalString(14) == "14" && Pad(5) == "05" && DecimalString(30) == "30";
    DigitalClock.RenderShows(14, 5, 30, "PM", true, true, Int(0));
  }

  /** Midnight in 12-hour mode reads "12", "00", "00" and "AM". */
  lemma MidnightIn12Hours(p: Prefs)
    requires p.clockMode == "digital" && p.digitalStyle == Int(0) && !p.is24h
    ensures var face := ClockArea(p, true, WallTime(0, 0, 0)).value.digital.value;
      DigitalClock.Shown(face.segments, DigitalClock.TimeField) == ["12", "00", "00"] &&
      DigitalClock.Shown(face.segments, DigitalClock.Suffix) == ["AM"]
  {
    assert DecimalString(12) == "12" && Pad(0) == "00";
    DigitalClock.RenderShows(12, 0, 0, "AM", false, true, Int(0));
  }

  /** The clock area only exists once mounted, so in the modular skin the
      separator between minutes and seconds blinks: ":" on even seconds and a
      blank on odd ones. */
  lemma SeparatorBlinksOnPage(p: Prefs, now: WallTime)
    requires p.clockMode == "digital" && p.digitalStyle == Int(0)
    ensures var face := ClockArea(p, true, now).value.digital.value;
      DigitalClock.Shown(face.segments, DigitalClock.Separator) ==
        [":", if now.second % 2 == 0 then ":" else " "]
  {
    DigitalClock.RenderShows(DisplayHour(now.hour, p.is24h), now.minute, now.second,
                             AmPm(now.hour), p.is24h, true, Int(0));
  }

  /** A stored style index out of range is restored as is, and the clock area
      then holds a digital panel with nothing in it. */
  lemma StoredOutOfRangeStyleShowsNothing(p: Prefs, now: WallTime)
    requires p.clockMode == "digital"
    ensures var restored := Restored(p, map[DigitalStyleKey := "99"]);
      restored.digitalStyle == Int(99) &&
      ClockArea(restored, true, now) == Some(DigitalPanel(None))
  {
    NoRangeCheck(p);
    var restored := Restored(p, map[DigitalStyleKey := "99"]);
    KeysDistinct();
    assert Lookup(map[DigitalStyleKey := "99"], ClockModeKey) == None;
    assert restored.clockMode == "digital";
    assert DigitalClock.SkinFor(Int(99)) == None;
  }

  /** A mode stored as anything but "digital", even a string the settings
      panel never offers, selects the analog panel after a restore. */
  lemma StoredUnknownModeShowsAnalog(p: Prefs, now: WallTime)
    ensures var restored := Restored(p, map[ClockModeKey := "Digital"]);
      restored.clockMode == "Digital" &&
      ClockArea(restored, true, now) == Some(AnalogPanel(AnalogClock.Render(now, p.analogStyle)))
  {
  }
}
