/** The history view (`HistoricalUV`): a fixed week of exposure minutes
    drawn as bars, the colour of each bar, the select/deselect rule of a
    bar click, the weekly total, average and hours-and-minutes figures, and
    the recommendation history passed in by the dashboard, shown three at a
    time unless expanded. */
module HistoricalUV {
  import opened Wrappers
  import Dashboard

  /** One bar of the week. */
  datatype DayExposure = DayExposure(day: string, minutes: int, uv: real, fullDay: string)

  const WeeklyData: seq<DayExposure> := [
    DayExposure("L", 15, 4.2, "Lunes"),
    DayExposure("M", 25, 6.5, "Martes"),
    DayExposure("X", 50, 7.8, "Miércoles"),
    DayExposure("J", 40, 6.2, "Jueves"),
    DayExposure("V", 55, 8.5, "Viernes"),
    DayExposure("S", 30, 5.3, "Sábado"),
    DayExposure("D", 35, 6.8, "Domingo")
  ]

  // ---------------------------------------------------------------------
  // Bar colours

  /** The four fills of `getBarColor`. */
  datatype BarColor = SelectedGrey | Green | Yellow | Red

  /** The fill each colour stands for. */
  function Hex(c: BarColor): string {
    match c
    case SelectedGrey => "#6a6e73"
    case Green => "#4ADE80"
    case Yellow => "#FACC15"
    case Red => "#FF5E62"
  }

  /** The four fills differ, so a bar's fill shows its colour band. */
  lemma FillsDistinct(a: BarColor, b: BarColor)
    ensures Hex(a) == Hex(b) <==> a == b
  {
  }

  /** `getBarColor`: the selected bar is grey whatever its minutes; any
      other bar is green below 20, yellow below 40 and red from 40 up. */
  function BarColorFor(selectedDay: Option<int>, minutes: int, index: int): (c: BarColor)
    ensures selectedDay == Some(index) <==> c == SelectedGrey
    ensures selectedDay != Some(index) ==>
              (c == Green <==> minutes < 20) &&
              (c == Yellow <==> 20 <= minutes < 40) &&
              (c == Red <==> 40 <= minutes)
  {
    if selectedDay == Some(index) then SelectedGrey
    else if minutes < 20 then Green
    else if minutes < 40 then Yellow
    else Red
  }

  /** More minutes never give a cooler colour to an unselected bar. */
  lemma BarColorMonotone(selectedDay: Option<int>, m1: int, m2: int, index: int)
    requires selectedDay != Some(index) && m1 <= m2
    ensures BarColorFor(selectedDay, m1, index) == Red ==> BarColorFor(selectedDay, m2, index) == Red
    ensures BarColorFor(selectedDay, m2, index) == Green ==> BarColorFor(selectedDay, m1, index) == Green
  {
  }

  /** The view's own copy of `getUVStatus` (its colour classes differ, its
      labels and thresholds do not): it agrees with the dashboard's on
      every value. */
  function UVStatus(uv: real): (l: Dashboard.UVLevel)
    ensures l == Dashboard.UVStatus(uv)
  {
    if uv <= 2.9 then Dashboard.Low
    else if uv <= 5.9 then Dashboard.Moderate
    else if uv <= 7.9 then Dashboard.High
    else Dashboard.VeryHigh
  }

  // ---------------------------------------------------------------------
  // Weekly figures

  /** The `reduce` over the week: the sum of the daily minutes, folded
      from the left. */
  function TotalMinutes(days: seq<DayExposure>): int
  {
    if days == [] then 0
    else TotalMinutes(days[..|days| - 1]) + days[|days| - 1].minutes
  }

  /** The fold from the left equals the fold from the right: the total is
      the first day's minutes plus the total of the rest. */
  lemma {:induction false} TotalMinutesFromFront(days: seq<DayExposure>)
    requires days != []
    ensures TotalMinutes(days) == days[0].minutes + TotalMinutes(days[1..])
  {
    if |days| == 1 {
      assert days[1..] == [];
      assert days[..0] == [];
    } else {
      var init := days[..|days| - 1];
      TotalMinutesFromFront(init);
      assert init[1..] == days[1..][..|days[1..]| - 1];
      assert days[1..][|days[1..]| - 1] == days[|days| - 1];
    }
  }

  /** When every day lies within [lo, hi], the total lies within
      [lo * n, hi * n]. */
  lemma {:induction false} TotalBounds(days: seq<DayExposure>, lo: int, hi: int)
    requires forall i :: 0 <= i < |days| ==> lo <= days[i].minutes <= hi
    ensures lo * |days| <= TotalMinutes(days) <= hi * |days|
  {
    if days != [] {
      var init := days[..|days| - 1];
      assert forall i :: 0 <= i < |init| ==> init[i] == days[i];
      TotalBounds(init, lo, hi);
      assert lo * |days| == lo * |init| + lo;
      assert hi * |days| == hi * |init| + hi;
    }
  }

  /** `Math.round` on a non-negative value: the nearest integer, the larger
      one on a tie. */
  function RoundHalfUp(x: real): (n: int)
    ensures n as real - 0.5 <= x < n as real + 0.5
  {
    (x + 0.5).Floor
  }

  /** `avgDailyExposure`: the mean of the daily minutes, rounded. */
  function AverageMinutes(days: seq<DayExposure>): (avg: int)
    requires |days| > 0
    ensures avg as real - 0.5 <= TotalMinutes(days) as real / |days| as real < avg as real + 0.5
  {
    RoundHalfUp(TotalMinutes(days) as real / |days| as real)
  }

  /** The rounded mean stays within the daily range. */
  lemma AverageWithinRange(days: seq<DayExposure>, lo: int, hi: int)
    requires |days| > 0
    requires forall i :: 0 <= i < |days| ==> lo <= days[i].minutes <= hi
    ensures lo <= AverageMinutes(days) <= hi
  {
    TotalBounds(days, lo, hi);
    var n := |days| as real;
    var mean := TotalMinutes(days) as real / n;
    assert lo as real * n <= TotalMinutes(days) as real;
    assert TotalMinutes(days) as real <= hi as real * n;
    assert lo as real <= mean <= hi as real by {
      assert mean * n == TotalMinutes(days) as real;
    }
  }

  /** `hours` and `minutes` of the weekly total: whole hours and the
      remaining minutes. */
  function HoursMinutes(total: int): (hm: (int, int))
    requires total >= 0
    ensures hm.0 >= 0 && 0 <= hm.1 < 60
    ensures hm.0 * 60 + hm.1 == total
  {
    (total / 60, total % 60)
  }

  /** The hours-and-minutes split is the only one with minutes below 60. */
  lemma HoursMinutesUnique(total: int, h: int, m: int)
    requires total >= 0 && 0 <= m < 60 && h * 60 + m == total
    ensures HoursMinutes(total) == (h, m)
  {
    var hm := HoursMinutes(total);
    assert (h - hm.0) * 60 == hm.1 - m;
  }

  /** The figures the view shows for its fixed week: 250 minutes in total,
      a daily average of 36, and 4h 10m. */
  lemma WeeklyFigures()
    ensures TotalMinutes(WeeklyData) == 250
    ensures AverageMinutes(WeeklyData) == 36
    ensures HoursMinutes(TotalMinutes(WeeklyData)) == (4, 10)
  {
    var w := WeeklyData;
    assert TotalMinutes(w[..1]) == 15 by { assert w[..1][..0] == []; }
    assert TotalMinutes(w[..2]) == 40 by { assert w[..2][..1] == w[..1]; }
    assert TotalMinutes(w[..3]) == 90 by { assert w[..3][..2] == w[..2]; }
    assert TotalMinutes(w[..4]) == 130 by { assert w[..4][..3] == w[..3]; }
    assert TotalMinutes(w[..5]) == 185 by { assert w[..5][..4] == w[..4]; }
    assert TotalMinutes(w[..6]) == 215 by { assert w[..6][..5] == w[..5]; }
    assert TotalMinutes(w) == 250 by { assert w[..6] == w[..|w| - 1]; }
    assert 250.0 / 7.0 + 0.5 == 507.0 / 14.0;
    HoursMinutesUnique(250, 4, 10);
  }

  // ---------------------------------------------------------------------
  // Bar selection

  /** `handleBarClick`: clicking the selected bar deselects it; clicking any
      other bar selects that one. */
  function ClickBar(selectedDay: Option<int>, index: int): (r: Option<int>)
    ensures selectedDay == Some(index) ==> r == None
    ensures selectedDay != Some(index) ==> r == Some(index)
  {
    if selectedDay == Some(index) then None else Some(index)
  }

  /** Two clicks on one bar restore the selection when nothing, or that bar,
      was selected before. */
  lemma ClickTwiceRestores(selectedDay: Option<int>, index: int)
    requires selectedDay == None || selectedDay == Some(index)
    ensures ClickBar(ClickBar(selectedDay, index), index) == selectedDay
  {
  }

  /** When another bar was selected, two clicks leave nothing selected. */
  lemma ClickTwiceFromOtherBar(j: int, index: int)
    requires j != index
    ensures ClickBar(ClickBar(Some(j), index), index) == None
  {
  }

  // ---------------------------------------------------------------------
  // The recommendation list

  /** `recommendations.slice(0, showAll ? length : 3)`: everything when
      expanded, otherwise the first three (or fewer), in order. */
  function VisibleRecommendations(recs: seq<Dashboard.Recommendation>, showAll: bool): (v: seq<Dashboard.Recommendation>)
    ensures showAll ==> v == recs
    ensures !showAll ==> |v| == (if |recs| < 3 then |recs| else 3)
    ensures v == recs[..|v|]
  {
    var end := if showAll then |recs| else 3;
    recs[..if end > |recs| then |recs| else end]
  }

  /** The caption of the expand button. */
  datatype ExpandCaption = ShowLess | ShowMore(hidden: int)

  /** The expand button exists only for more than three entries; collapsed
      it offers the number of entries left out. */
  function ExpandButton(recs: seq<Dashboard.Recommendation>, showAll: bool): (b: Option<ExpandCaption>)
    ensures b.None? <==> |recs| <= 3
    ensures b.Some? ==> (b.value == ShowLess <==> showAll)
  {
    if |recs| <= 3 then None
    else if showAll then Some(ShowLess)
    else Some(ShowMore(|recs| - 3))
  }

  /** The count on "Ver más" is exactly the number of entries the collapsed
      list leaves out. */
  lemma ShowMoreCountsHidden(recs: seq<Dashboard.Recommendation>)
    requires ExpandButton(recs, false).Some?
    ensures ExpandButton(recs, false).value.ShowMore?
    ensures ExpandButton(recs, false).value.hidden + |VisibleRecommendations(recs, false)| == |recs|
  {
  }

  /** Whether the history block is rendered at all. */
  predicate HistoryShown(recs: seq<Dashboard.Recommendation>) {
    |recs| > 0
  }

  /** The history block is rendered exactly when its list, collapsed or
      expanded, has something to show. */
  lemma HistoryShownIffVisible(recs: seq<Dashboard.Recommendation>, showAll: bool)
    ensures HistoryShown(recs) <==> VisibleRecommendations(recs, showAll) != []
  {
  }

  // ---------------------------------------------------------------------
  // The component

  /** A selection, when there is one, names a day of the week, so the
      detail card can look it up. */
  predicate Inv(selectedDay: Option<int>) {
    selectedDay.Some? ==> 0 <= selectedDay.value < |WeeklyData|
  }

  class HistoricalUVScreen {
    var selectedDay: Option<int>
    var showAllRecommendations: bool

    ghost predicate Valid()
      reads this
    {
      Inv(selectedDay)
    }

    constructor ()
      ensures Valid() && selectedDay == None && !showAllRecommendations
    {
      selectedDay := None;
      showAllRecommendations := false;
    }

    /** A bar click; the chart passes the index of one of its seven bars. */
    method HandleBarClick(index: int)
      requires Valid() && 0 <= index < |WeeklyData|
      modifies this
      ensures Valid() && selectedDay == ClickBar(old(selectedDay), index)
      ensures showAllRecommendations == old(showAllRecommendations)
    {
      selectedDay := if selectedDay == Some(index) then None else Some(index);
    }

    /** The detail card's close button. */
    method HandleCloseDetail()
      requires Valid()
      modifies this
      ensures Valid() && selectedDay == None
      ensures showAllRecommendations == old(showAllRecommendations)
    {
      selectedDay := None;
    }

    /** The expand button flips the list between collapsed and expanded. */
    method HandleToggleShowAll()
      requires Valid()
      modifies this
      ensures Valid() && showAllRecommendations == !old(showAllRecommendations)
      ensures selectedDay == old(selectedDay)
    {
      showAllRecommendations := !showAllRecommendations;
    }
  }
}
