/**
  The analog clock component: hand angles in degrees clockwise from 12, an
  `if` chain over three skins, and twelve dial markers. Marker and hand
  coordinates (sine and cosine of these angles) are not modelled.
*/
module AnalogClock {
  import opened Wrappers
  import opened Numbers
  import opened TimeFormat

  /** What `getAngles` returns. */
  datatype Angles = Angles(hourAngle: real, minuteAngle: real, secondAngle: real,
                           hour: nat, minute: nat, second: nat)

  datatype Skin = CaliforniaDial | StandBySimple | LiquidGlassAnalog

  /** A dial marker at `degrees` clockwise from 12: a number (California dial)
      or a tick of the given stroke width (the other two skins). */
  datatype Marker = Label(degrees: nat, number: nat) | Tick(degrees: nat, strokeWidth: nat)

  datatype Face = Face(skin: Skin, hands: Angles, markers: seq<Marker>)

  /** `getAngles`: the hour hand moves half a degree per minute, the minute
      hand a tenth of a degree per second, the second hand six degrees per second. */
  function GetAngles(t: WallTime): (a: Angles)
    ensures a.hour < 12 && a.hour == t.hour % 12 && a.minute == t.minute && a.second == t.second
    ensures t.minute < 60 ==> 0.0 <= a.hourAngle < 360.0
    ensures t.minute < 60 && t.second < 60 ==> 0.0 <= a.minuteAngle < 360.0
    ensures t.second < 60 ==> 0.0 <= a.secondAngle <= 354.0
    ensures a.secondAngle == a.secondAngle.Floor as real && a.secondAngle.Floor % 6 == 0
  {
    var hour := t.hour % 12;
    Angles((hour as real + t.minute as real / 60.0) * 30.0,
           (t.minute as real + t.second as real / 60.0) * 6.0,
           (t.second * 6) as real,
           hour, t.minute, t.second)
  }

  /** The same angles on the scale the dial is divided into: the hour hand sits
      30 degrees per hour plus half a degree per minute past the hour mark, the
      minute hand 6 degrees per minute plus a tenth of a degree per second. */
  lemma AnglesScaled(t: WallTime)
    ensures 2.0 * GetAngles(t).hourAngle == (60 * (t.hour % 12) + t.minute) as real
    ensures 10.0 * GetAngles(t).minuteAngle == (60 * t.minute + t.second) as real
    ensures GetAngles(t).secondAngle == 6.0 * t.second as real
  {
  }

  /** Three o'clock puts the hour hand at 90 degrees; half past puts the minute hand at 180. */
  lemma AngleExamples()
    ensures GetAngles(WallTime(3, 0, 0)).hourAngle == 90.0
    ensures GetAngles(WallTime(15, 0, 0)).hourAngle == 90.0
    ensures GetAngles(WallTime(0, 30, 0)).minuteAngle == 180.0
  {
  }

  /** At a fixed hour the hour hand advances strictly with the minute; at a
      fixed minute the minute hand advances strictly with the second; and the
      second hand with the second. */
  lemma HandsAdvance(h: nat, m: nat, s: nat, later: nat)
    requires later > 0
    ensures GetAngles(WallTime(h, m, s)).hourAngle < GetAngles(WallTime(h, m + later, s)).hourAngle
    ensures GetAngles(WallTime(h, m, s)).minuteAngle < GetAngles(WallTime(h, m, s + later)).minuteAngle
    ensures GetAngles(WallTime(h, m, s)).secondAngle < GetAngles(WallTime(h, m, s + later)).secondAngle
  {
  }

  /** The hour and minute hands do not jump at a unit boundary: from minute
      59 to the next hour the hour hand moves by the same half degree as within
      the hour (except where it wraps round to 12), and from second 59 to the
      next minute the minute hand by the same tenth of a degree. */
  lemma HandsContinuous(h: nat, m: nat, s: nat)
    ensures h % 12 < 11 ==>
      GetAngles(WallTime(h + 1, 0, s)).hourAngle == GetAngles(WallTime(h, 59, s)).hourAngle + 0.5
    ensures GetAngles(WallTime(h, m + 1, 0)).minuteAngle == GetAngles(WallTime(h, m, 59)).minuteAngle + 0.1
  {
  }

  /** The twelve numbers of the California dial: 12 at the top, then 1..11. */
  function DialLabels(): seq<Marker> {
    seq(12, i requires 0 <= i < 12 => Label(i * 30, if i == 0 then 12 else i))
  }

  /** Where the number n (1..12) stands on the dial: 12 at the top, position 0. */
  function DialPosition(n: nat): (i: nat)
    requires 1 <= n <= 12
    ensures i < 12
  {
    n % 12
  }

  /** The twelve ticks of the other two skins: wide at every third position. */
  function TickMarks(): seq<Marker> {
    seq(12, i requires 0 <= i < 12 => Tick(i * 30, if i % 3 == 0 then 3 else 1))
  }

  /** The `if (styleIndex === k)` chain: 0, 1 and 2 select a skin, anything else none. */
  function SkinFor(styleIndex: Num): Option<Skin> {
    if styleIndex == Int(0) then Some(CaliforniaDial)
    else if styleIndex == Int(1) then Some(StandBySimple)
    else if styleIndex == Int(2) then Some(LiquidGlassAnalog)
    else None
  }

  /** The position of a skin in the chain (and in the settings list). */
  function SkinIndex(skin: Skin): nat {
    match skin
    case CaliforniaDial => 0
    case StandBySimple => 1
    case LiquidGlassAnalog => 2
  }

  /** The component: `null` (None) for any index but 0, 1, 2. */
  function Render(t: WallTime, styleIndex: Num): Option<Face> {
    match SkinFor(styleIndex)
    case None => None
    case Some(skin) =>
      Some(Face(skin, GetAngles(t), if skin == CaliforniaDial then DialLabels() else TickMarks()))
  }

  /** Indices 0, 1 and 2 each produce their skin, every other index `null`; all
      skins draw the same hands, and twelve markers 30 degrees apart: the dial
      numbers on the California dial, tick marks on the others. */
  lemma RenderDispatch(t: WallTime, styleIndex: Num)
    ensures Render(t, styleIndex).Some? <==> styleIndex.Int? && 0 <= styleIndex.value < 3
    ensures Render(t, styleIndex).Some? ==>
      var face := Render(t, styleIndex).value;
      SkinIndex(face.skin) == styleIndex.value && face.hands == GetAngles(t) &&
      face.markers == (if face.skin == CaliforniaDial then DialLabels() else TickMarks()) &&
      |face.markers| == 12 &&
      (forall i :: 0 <= i < 12 ==> face.markers[i].degrees == 30 * i) &&
      (face.skin == CaliforniaDial <==> forall i :: 0 <= i < 12 ==> face.markers[i].Label?)
  {
    if Render(t, styleIndex).Some? && Render(t, styleIndex).value.skin != CaliforniaDial {
      assert !Render(t, styleIndex).value.markers[0].Label?;
    }
  }

  /** Each number names the hour at its angle (angle = 30 * (number mod 12)),
      every number lies in 1..12, and each of 1..12 appears exactly once. */
  lemma DialLabelsNameTheirHour()
    ensures |DialLabels()| == 12
    ensures forall i :: 0 <= i < 12 ==>
      DialLabels()[i].Label? && 1 <= DialLabels()[i].number <= 12 &&
      DialLabels()[i].degrees == 30 * (DialLabels()[i].number % 12)
    ensures forall n :: 1 <= n <= 12 ==> DialLabels()[DialPosition(n)].number == n
    ensures forall i, j :: 0 <= i < j < 12 ==> DialLabels()[i].number != DialLabels()[j].number
  {
  }

  /** A tick is major (width 3) exactly at every third position, that is at the
      12, 3, 6 and 9 o'clock angles; all others have width 1. */
  lemma MajorTicks()
    ensures |TickMarks()| == 12
    ensures forall i :: 0 <= i < 12 ==>
      TickMarks()[i].Tick? &&
      (TickMarks()[i].strokeWidth == 3 <==> i % 3 == 0) &&
      (TickMarks()[i].strokeWidth != 3 ==> TickMarks()[i].strokeWidth == 1)
    ensures (set i | 0 <= i < 12 && TickMarks()[i].strokeWidth == 3 :: TickMarks()[i].degrees)
            == {0, 90, 180, 270}
  {
    var major := set i | 0 <= i < 12 && TickMarks()[i].strokeWidth == 3 :: TickMarks()[i].degrees;
    assert TickMarks()[0].degrees == 0 && TickMarks()[3].degrees == 90;
    assert TickMarks()[6].degrees == 180 && TickMarks()[9].degrees == 270;
    forall d | d in major ensures d in {0, 90, 180, 270} {
      var i :| 0 <= i < 12 && TickMarks()[i].strokeWidth == 3 && TickMarks()[i].degrees == d;
      assert i in {0, 3, 6, 9};
    }
  }

  /** On the hour the hour hand points exactly at the number the page shows as
      the 12-hour display hour. */
  lemma HourHandOnItsNumber(t: WallTime)
    requires t.Valid() && t.minute == 0
    ensures var mark := DialLabels()[t.hour % 12];
      GetAngles(t).hourAngle == mark.degrees as real &&
      mark.number == DisplayHour(t.hour, false)
  {
  }
}
