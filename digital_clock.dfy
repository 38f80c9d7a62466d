/**
  The digital clock component: a switch on the style index over five skins.
  A rendered face is the sequence of text pieces it shows, in order; the
  class names, colours and layout of each skin are not modelled.
*/
module DigitalClock {
  import opened Wrappers
  import opened Numbers
  import opened TimeFormat

  datatype Skin = ClassicModular | StandByFlip | LiquidGlass | MinimalistNeon | ModernGlassmorphism

  /** What a piece of shown text is. */
  datatype Kind = TimeField | Separator | Suffix

  /** One piece of shown text. */
  datatype Segment = Segment(kind: Kind, text: string)

  datatype Face = Face(skin: Skin, segments: seq<Segment>)

  /** The position of a skin in the component's switch (and in the settings list). */
  function SkinIndex(skin: Skin): nat {
    match skin
    case ClassicModular => 0
    case StandByFlip => 1
    case LiquidGlass => 2
    case MinimalistNeon => 3
    case ModernGlassmorphism => 4
  }

  /** The separator that blinks in the modular and neon skins: a steady ":" until
      the component is mounted, then ":" on even seconds and a blank on odd ones. */
  function BlinkSeparator(mounted: bool, second: nat): string {
    if mounted then (if second % 2 == 0 then ":" else " ") else ":"
  }

  /** The `switch (styleIndex)`: `===` comparison with 0..4, no clamping. */
  function SkinFor(styleIndex: Num): Option<Skin> {
    if styleIndex == Int(0) then Some(ClassicModular)
    else if styleIndex == Int(1) then Some(StandByFlip)
    else if styleIndex == Int(2) then Some(LiquidGlass)
    else if styleIndex == Int(3) then Some(MinimalistNeon)
    else if styleIndex == Int(4) then Some(ModernGlassmorphism)
    else None
  }

  /** The texts one skin shows, before the optional AM/PM suffix. */
  function Layout(skin: Skin, hour: string, minute: string, second: string, blink: string): seq<Segment> {
    var h, m, s := Segment(TimeField, hour), Segment(TimeField, minute), Segment(TimeField, second);
    var colon := Segment(Separator, ":");
    match skin
    case ClassicModular => [h, colon, m, Segment(Separator, blink), s]
    case StandByFlip => [h, m, s]
    case LiquidGlass => [h, colon, m, colon, s]
    case MinimalistNeon => [h, colon, m, Segment(Separator, blink), s]
    case ModernGlassmorphism => [h, colon, m, colon, s]
  }

  /** The component: `null` (None) for any style index outside 0..4; otherwise
      the skin's texts followed by `ampm` unless in 24-hour mode. */
  function Render(hour: nat, minute: nat, second: nat, ampm: string, is24h: bool,
                  mounted: bool, styleIndex: Num): Option<Face>
  {
    match SkinFor(styleIndex)
    case None => None
    case Some(skin) =>
      var suffix := if is24h then [] else [Segment(Suffix, ampm)];
      Some(Face(skin, Layout(skin, Pad(hour), Pad(minute), Pad(second), BlinkSeparator(mounted, second)) + suffix))
  }

  /** The text of x as a one-element sequence if it is of the given kind. */
  function Pick(x: Segment, kind: Kind): seq<string> {
    if x.kind == kind then [x.text] else []
  }

  /** The texts of the segments of one kind, in the order shown. */
  function Shown(segments: seq<Segment>, kind: Kind): seq<string> {
    if segments == [] then [] else Pick(segments[0], kind) + Shown(segments[1..], kind)
  }

  lemma {:induction false} ShownAppend(a: seq<Segment>, b: seq<Segment>, kind: Kind)
    ensures Shown(a + b, kind) == Shown(a, kind) + Shown(b, kind)
  {
    if a == [] {
      assert a + b == b;
    } else {
      var ab := a + b;
      assert ab[0] == a[0] && ab[1..] == a[1..] + b;
      ShownAppend(a[1..], b, kind);
      assert Shown(ab, kind) == Pick(a[0], kind) + (Shown(a[1..], kind) + Shown(b, kind));
    }
  }

  /** Shown on a sequence with a first element. */
  lemma ShownCons(x: Segment, rest: seq<Segment>, kind: Kind)
    ensures Shown([x] + rest, kind) == Pick(x, kind) + Shown(rest, kind)
  {
    assert ([x] + rest)[1..] == rest;
  }

  lemma ShownSingle(x: Segment, kind: Kind)
    ensures Shown([x], kind) == Pick(x, kind)
  {
    assert [x][1..] == [];
  }

  lemma ShownThree(a: Segment, b: Segment, c: Segment, kind: Kind)
    ensures Shown([a, b, c], kind) == Pick(a, kind) + (Pick(b, kind) + Pick(c, kind))
  {
    ShownSingle(c, kind);
    ShownCons(b, [c], kind);
    assert [b] + [c] == [b, c];
    ShownCons(a, [b, c], kind);
    assert [a] + [b, c] == [a, b, c];
  }

  lemma ShownFive(a: Segment, b: Segment, c: Segment, d: Segment, e: Segment, kind: Kind)
    ensures Shown([a, b, c, d, e], kind) ==
      Pick(a, kind) + (Pick(b, kind) + (Pick(c, kind) + (Pick(d, kind) + Pick(e, kind))))
  {
    ShownThree(c, d, e, kind);
    ShownCons(b, [c, d, e], kind);
    assert [b] + [c, d, e] == [b, c, d, e];
    ShownCons(a, [b, c, d, e], kind);
    assert [a] + [b, c, d, e] == [a, b, c, d, e];
  }

  /** What each skin shows, kind by kind. */
  lemma LayoutShown(skin: Skin, hour: string, minute: string, second: string, blink: string)
    ensures Shown(Layout(skin, hour, minute, second, blink), TimeField) == [hour, minute, second]
    ensures Shown(Layout(skin, hour, minute, second, blink), Suffix) == []
    ensures Shown(Layout(skin, hour, minute, second, blink), Separator) ==
      match skin
      case ClassicModular => [":", blink]
      case MinimalistNeon => [":", blink]
      case LiquidGlass => [":", ":"]
      case ModernGlassmorphism => [":", ":"]
      case StandByFlip => []
  {
    var h, m, s := Segment(TimeField, hour), Segment(TimeField, minute), Segment(TimeField, second);
    if skin == StandByFlip {
      ShownThree(h, m, s, TimeField);
      ShownThree(h, m, s, Separator);
      ShownThree(h, m, s, Suffix);
    } else {
      var colon := Segment(Separator, ":");
      var sep := if skin in {ClassicModular, MinimalistNeon} then Segment(Separator, blink) else colon;
      assert Layout(skin, hour, minute, second, blink) == [h, colon, m, sep, s];
      ShownFive(h, colon, m, sep, s, TimeField);
      ShownFive(h, colon, m, sep, s, Separator);
      ShownFive(h, colon, m, sep, s, Suffix);
    }
  }

  /** Style indices 0..4 each select their skin; every other index, negative,
      too large or NaN, selects none. */
  lemma SkinForDispatch(styleIndex: Num)
    ensures SkinFor(styleIndex).Some? <==> styleIndex.Int? && 0 <= styleIndex.value < 5
    ensures SkinFor(styleIndex).Some? ==> SkinIndex(SkinFor(styleIndex).value) == styleIndex.value
  {
  }

  /** The component renders a face exactly when the index selects a skin, and
      that face is of the selected skin: so 0..4 each produce a face and any
      other index produces `null`. */
  lemma RenderDispatch(hour: nat, minute: nat, second: nat, ampm: string, is24h: bool,
                       mounted: bool, styleIndex: Num)
    ensures Render(hour, minute, second, ampm, is24h, mounted, styleIndex).Some?
            <==> styleIndex.Int? && 0 <= styleIndex.value < 5
    ensures Render(hour, minute, second, ampm, is24h, mounted, styleIndex).Some? ==>
            SkinIndex(Render(hour, minute, second, ampm, is24h, mounted, styleIndex).value.skin)
            == styleIndex.value
  {
    SkinForDispatch(styleIndex);
  }

  /** Every skin shows the same numeric text, pad(hour), pad(minute), pad(second)
      in that order; the AM/PM suffix is shown exactly when not in 24-hour mode,
      as the last piece; and the separators are the blinking one (second) in the
      modular and neon skins, two steady colons in the glass skins, none in the
      flip skin. */
  lemma RenderShows(hour: nat, minute: nat, second: nat, ampm: string, is24h: bool,
                    mounted: bool, styleIndex: Num)
    requires Render(hour, minute, second, ampm, is24h, mounted, styleIndex).Some?
    ensures var face := Render(hour, minute, second, ampm, is24h, mounted, styleIndex).value;
      Shown(face.segments, TimeField) == [Pad(hour), Pad(minute), Pad(second)] &&
      Shown(face.segments, Suffix) == (if is24h then [] else [ampm]) &&
      (!is24h ==> face.segments[|face.segments| - 1] == Segment(Suffix, ampm))
    ensures var face := Render(hour, minute, second, ampm, is24h, mounted, styleIndex).value;
      Shown(face.segments, Separator) ==
        match face.skin
        case ClassicModular => [":", BlinkSeparator(mounted, second)]
        case MinimalistNeon => [":", BlinkSeparator(mounted, second)]
        case LiquidGlass => [":", ":"]
        case ModernGlassmorphism => [":", ":"]
        case StandByFlip => []
  {
    var face := Render(hour, minute, second, ampm, is24h, mounted, styleIndex).value;
    var blink := BlinkSeparator(mounted, second);
    var core := Layout(face.skin, Pad(hour), Pad(minute), Pad(second), blink);
    var suffix := if is24h then [] else [Segment(Suffix, ampm)];
    assert face.segments == core + suffix;
    LayoutShown(face.skin, Pad(hour), Pad(minute), Pad(second), blink);
    ShownAppend(core, suffix, TimeField);
    ShownAppend(core, suffix, Separator);
    ShownAppend(core, suffix, Suffix);
    if !is24h {
      ShownSingle(Segment(Suffix, ampm), TimeField);
      ShownSingle(Segment(Suffix, ampm), Separator);
      ShownSingle(Segment(Suffix, ampm), Suffix);
    }
  }

  /** The flip skin renders exactly three cells, one per time field, then the suffix. */
  lemma FlipHasThreeCells(hour: nat, minute: nat, second: nat, ampm: string, is24h: bool,
                          mounted: bool)
    ensures var face := Render(hour, minute, second, ampm, is24h, mounted, Int(1)).value;
      face.skin == StandByFlip &&
      |face.segments| == 3 + (if is24h then 0 else 1) &&
      face.segments[..3] == [Segment(TimeField, Pad(hour)), Segment(TimeField, Pad(minute)),
                             Segment(TimeField, Pad(second))]
  {
  }

  /** Before mount the blinking separator is a steady ":"; once mounted it is ":"
      exactly on even seconds, so it changes at every tick. */
  lemma BlinkAlternates(mounted: bool, second: nat)
    ensures !mounted ==> BlinkSeparator(mounted, second) == ":"
    ensures mounted ==> (BlinkSeparator(mounted, second) == ":" <==> second % 2 == 0)
    ensures mounted ==> BlinkSeparator(mounted, second) in {":", " "}
    ensures mounted ==> BlinkSeparator(mounted, second) != BlinkSeparator(mounted, second + 1)
  {
  }
}
