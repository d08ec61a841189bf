/**
 * The weekly calorie trend: one bar per daily sample, scaled against the
 * larger of 2500 kcal and the week's highest day, red above 2500 kcal.
 */
module WeeklyTrendGraph {
  import Palette

  /** The daily calorie ceiling: the chart's minimum scale and the over-limit threshold. */
  const CalorieCeiling: real := 2500.0

  datatype DailySample = DailySample(day: string, calories: real, averageRating: real)

  /** One bar of the chart: its day label, height in percent, fill colour and hover calories. */
  datatype Bar = Bar(day: string, heightPercent: real, color: string, kcal: real)

  function Max(a: real, b: real): real {
    if a >= b then a else b
  }

  /** `Math.max(...data.map(d => d.calories), 2500)` */
  function MaxCalories(data: seq<DailySample>): (m: real)
    ensures m >= CalorieCeiling
    ensures forall i :: 0 <= i < |data| ==> data[i].calories <= m
    ensures m == CalorieCeiling || exists i :: 0 <= i < |data| && data[i].calories == m
  {
    if data == [] then CalorieCeiling
    else Max(data[0].calories, MaxCalories(data[1..]))
  }

  /** The scale is exactly 2500 when no day goes over it, empty weeks included. */
  lemma ScaleIsCeilingUnlessExceeded(data: seq<DailySample>)
    ensures (forall i :: 0 <= i < |data| ==> data[i].calories <= CalorieCeiling) <==> MaxCalories(data) == CalorieCeiling
  {
  }

  /** Whether a day's bar is painted as over the limit; exactly 2500 is not. */
  predicate OverLimit(d: DailySample) {
    d.calories > CalorieCeiling
  }

  /** A bar's height: its calories as a percentage of the chart's scale. */
  function HeightPercent(calories: real, scale: real): (h: real)
    requires scale > 0.0
    ensures 0.0 <= calories <= scale ==> 0.0 <= h <= 100.0
    ensures calories == scale ==> h == 100.0
    ensures calories < scale ==> h < 100.0
  {
    RatioBounds(calories, scale);
    (calories / scale) * 100.0
  }

  lemma RatioBounds(c: real, s: real)
    requires s > 0.0
    ensures c <= s ==> c / s <= 1.0
    ensures c < s ==> c / s < 1.0
    ensures c >= 0.0 ==> c / s >= 0.0
    ensures c == s ==> c / s == 1.0
  {
  }

  /** The bar for one day, drawn against `scale`. */
  function BarFor(d: DailySample, scale: real): Bar
    requires scale > 0.0
  {
    Bar(d.day, HeightPercent(d.calories, scale), if OverLimit(d) then Palette.BarRed else Palette.Green, d.calories)
  }

  /** The bars of the chart, one per sample in input order. */
  function Bars(data: seq<DailySample>): (bars: seq<Bar>)
    ensures |bars| == |data|
    ensures forall i :: 0 <= i < |data| ==> bars[i].day == data[i].day && bars[i].kcal == data[i].calories
    ensures forall i :: 0 <= i < |data| ==> bars[i].heightPercent == HeightPercent(data[i].calories, MaxCalories(data))
    ensures forall i :: 0 <= i < |data| ==> (bars[i].color == Palette.BarRed <==> data[i].calories > CalorieCeiling)
    ensures forall i :: 0 <= i < |data| ==> (bars[i].color == Palette.Green <==> data[i].calories <= CalorieCeiling)
  {
    var scale := MaxCalories(data);
    seq(|data|, i requires 0 <= i < |data| => BarFor(data[i], scale))
  }

  /** A day with non-negative calories gets a bar between 0% and 100% tall. */
  lemma BarHeightWithinChart(data: seq<DailySample>, i: int)
    requires 0 <= i < |data| && data[i].calories >= 0.0
    ensures 0.0 <= Bars(data)[i].heightPercent <= 100.0
  {
  }

  /** When some day goes over 2500, the scale is that week's highest day. */
  lemma ScaleReachedWhenExceeded(data: seq<DailySample>)
    requires exists i :: 0 <= i < |data| && data[i].calories > CalorieCeiling
    ensures exists j :: 0 <= j < |data| && data[j].calories == MaxCalories(data)
  {
  }

  /** The day whose calories set the scale gets a full-height bar. */
  lemma FullBarAtScale(data: seq<DailySample>, j: int)
    requires 0 <= j < |data| && data[j].calories == MaxCalories(data)
    ensures Bars(data)[j].heightPercent == 100.0
  {
  }

  /** No bar is taller than the chart, whatever its calories. */
  lemma NoBarOverflows(data: seq<DailySample>, j: int)
    requires 0 <= j < |data|
    ensures Bars(data)[j].heightPercent <= 100.0
  {
  }

  /** An empty week yields no bars. */
  lemma EmptyWeekHasNoBars()
    ensures Bars([]) == []
    ensures MaxCalories([]) == CalorieCeiling
  {
  }

  /** A 3000 kcal Monday and a 1000 kcal Tuesday: scale 3000, bars 100% (red) and one third (green). */
  lemma MondayTuesdayExample()
    ensures var data := [DailySample("Mon", 3000.0, 0.0), DailySample("Tue", 1000.0, 0.0)];
            MaxCalories(data) == 3000.0
            && Bars(data) == [Bar("Mon", 100.0, Palette.BarRed, 3000.0), Bar("Tue", 100.0 / 3.0, Palette.Green, 1000.0)]
  {
  }
}
