/** The home screen (`Dashboard`): the UV traffic light, the advice text
    for a UV value, the menu that hides while scrolling down, the refresh
    button whose 1500 ms timer takes a new simulated reading and prepends a
    recommendation to the history, and the dismissable floating
    recommendation.

    UV values are reals. `Math.random()` is the parameter `r` in [0, 1);
    `Date.now()` and the formatted date are the parameters `id` and
    `stamp`. Refresh timers are counted in `pendingRefreshes`. */
module Dashboard {
  import opened Wrappers

  // ---------------------------------------------------------------------
  // UV bands

  /** The four labels of `getUVStatus`. */
  datatype UVLevel = Low | Moderate | High | VeryHigh

  function Label(l: UVLevel): string {
    match l
    case Low => "Bajo"
    case Moderate => "Moderado"
    case High => "Alto"
    case VeryHigh => "Muy alto"
  }

  function Rank(l: UVLevel): nat {
    match l
    case Low => 0
    case Moderate => 1
    case High => 2
    case VeryHigh => 3
  }

  /** The four labels differ, and so do the four ranks: a label names one
      level, and the ranks order the levels without ties. */
  lemma LevelEncodingsDistinct(a: UVLevel, b: UVLevel)
    ensures Label(a) == Label(b) <==> a == b
    ensures Rank(a) == Rank(b) <==> a == b
  {
  }

  /** `getUVStatus`: at most 2.9 is low, at most 5.9 moderate, at most 7.9
      high, anything above very high. */
  function UVStatus(uv: real): (l: UVLevel)
    ensures l == Low <==> uv <= 2.9
    ensures l == Moderate <==> 2.9 < uv <= 5.9
    ensures l == High <==> 5.9 < uv <= 7.9
    ensures l == VeryHigh <==> 7.9 < uv
  {
    if uv <= 2.9 then Low
    else if uv <= 5.9 then Moderate
    else if uv <= 7.9 then High
    else VeryHigh
  }

  /** A higher UV never gets a lower label. */
  lemma StatusMonotone(u: real, v: real)
    requires u <= v
    ensures Rank(UVStatus(u)) <= Rank(UVStatus(v))
  {
  }

  /** The three texts of `getRecommendationText`. */
  datatype Advice = Safe | HatAndShade | Alert

  function AdviceText(a: Advice): string {
    match a
    case Safe => "Nivel seguro. Disfruta el exterior."
    case HatAndShade => "Usa sombrero y busca sombra."
    case Alert => "¡Alerta! Aplica protector solar FPS 50+."
  }

  /** The three advice texts differ: a message names one band. */
  lemma AdviceTextsDistinct(a: Advice, b: Advice)
    ensures AdviceText(a) == AdviceText(b) <==> a == b
  {
  }

  /** `getRecommendationText`: below 3 safe, below 6 hat and shade, else
      alert. */
  function AdviceFor(uv: real): (a: Advice)
    ensures a == Safe <==> uv < 3.0
    ensures a == HatAndShade <==> 3.0 <= uv < 6.0
    ensures a == Alert <==> 6.0 <= uv
  {
    if uv < 3.0 then Safe
    else if uv < 6.0 then HatAndShade
    else Alert
  }

  /** A value with at most one decimal. */
  predicate IsTenths(u: real) {
    (u * 10.0).Floor as real == u * 10.0
  }

  /** No one-decimal value lies strictly between two neighbouring tenths. */
  lemma TenthsGap(u: real, k: int)
    requires IsTenths(u) && u > k as real / 10.0
    ensures u >= (k + 1) as real / 10.0
  {
    var n := (u * 10.0).Floor;
    assert n as real > k as real;
    assert n >= k + 1;
  }

  /** On one-decimal values the two bucketings agree: low exactly when the
      text is the safe one, moderate exactly when it is hat and shade, high
      or very high exactly when it is the alert. */
  lemma BandsAgreeOnTenths(uv: real)
    requires IsTenths(uv)
    ensures UVStatus(uv) == Low <==> AdviceFor(uv) == Safe
    ensures UVStatus(uv) == Moderate <==> AdviceFor(uv) == HatAndShade
    ensures UVStatus(uv) in {High, VeryHigh} <==> AdviceFor(uv) == Alert
  {
    if uv > 29.0 / 10.0 {
      TenthsGap(uv, 29);
    }
    if uv > 59.0 / 10.0 {
      TenthsGap(uv, 59);
    }
  }

  /** Off the one-decimal grid the bucketings part: 2.95 is moderate but
      gets the safe text. */
  lemma BandsDisagreeOffGrid()
    ensures !IsTenths(2.95)
    ensures UVStatus(2.95) == Moderate && AdviceFor(2.95) == Safe
  {
    assert (2.95 * 10.0).Floor == 29;
  }

  // ---------------------------------------------------------------------
  // The simulated reading

  /** `+x.toFixed(1)` for positive `x`: the nearest tenth, the larger one
      on a tie. */
  function RoundToTenths(x: real): (u: real)
    requires x >= 0.0
    ensures IsTenths(u)
    ensures x - 0.05 < u <= x + 0.05
  {
    var n := (x * 10.0 + 0.5).Floor;
    assert n as real * 10.0 / 10.0 == n as real;
    n as real / 10.0
  }

  /** The new reading of a refresh, `Math.random() * 10 + 1` rounded to
      one decimal: a one-decimal value from 1.0 to 11.0. */
  function RefreshReading(r: real): (u: real)
    requires 0.0 <= r < 1.0
    ensures 1.0 <= u <= 11.0 && IsTenths(u)
  {
    RoundToTenths(r * 10.0 + 1.0)
  }

  // ---------------------------------------------------------------------
  // Recommendations

  /** One entry of the history (the `Recommendation` interface). */
  datatype Recommendation = Recommendation(id: int, uv: real, message: string, timestamp: string, level: string)

  /** The entry the refresh timer and the close button build for `uv`:
      message and label are computed from `uv`. */
  function RecommendationFor(id: int, uv: real, stamp: string): (rec: Recommendation)
    ensures rec.uv == uv && Consistent(rec)
    ensures rec.id == id && rec.timestamp == stamp
  {
    Recommendation(id, uv, AdviceText(AdviceFor(uv)), stamp, Label(UVStatus(uv)))
  }

  /** The message and the label of an entry are the ones its UV gets. */
  predicate Consistent(rec: Recommendation) {
    rec.message == AdviceText(AdviceFor(rec.uv)) && rec.level == Label(UVStatus(rec.uv))
  }

  /** The two entries the history starts with. */
  const SeedHistory: seq<Recommendation> := [
    Recommendation(1, 6.2, "Usa sombrero y busca sombra.", "10 Feb, 09:30", "Moderado"),
    Recommendation(2, 4.5, "Nivel seguro. Disfruta el exterior.", "9 Feb, 14:15", "Bajo")
  ]

  /** Neither seeded entry carries the label or the text its own UV would
      get: 6.2 is high and gets the alert; 4.5 is moderate and gets hat and
      shade. */
  lemma SeedHistoryInconsistent()
    ensures !Consistent(SeedHistory[0]) && !Consistent(SeedHistory[1])
    ensures UVStatus(6.2) == High && AdviceFor(6.2) == Alert
    ensures UVStatus(4.5) == Moderate && AdviceFor(4.5) == HatAndShade
  {
    assert Label(UVStatus(6.2)) == "Alto";
    assert Label(UVStatus(4.5)) == "Moderado";
  }

  // ---------------------------------------------------------------------
  // The screen state

  datatype View = Home | History | ProfileView

  datatype DashboardState = DashboardState(
    currentView: View,
    isMenuVisible: bool,
    lastScrollY: real,
    currentUV: real,
    isRefreshing: bool,
    showRecommendation: bool,
    lastRecommendation: Option<Recommendation>,
    recommendations: seq<Recommendation>,
    pendingRefreshes: nat)

  const Initial := DashboardState(Home, true, 0.0, 7.5, false, false, None, SeedHistory, 0)

  /** The history is the seeded pair preceded by refresh entries, each a
      one-decimal reading consistent with its UV. */
  predicate HistoryInv(recs: seq<Recommendation>) {
    && |recs| >= 2
    && recs[|recs| - 2..] == SeedHistory
    && (forall i :: 0 <= i < |recs| - 2 ==> Consistent(recs[i]) && IsTenths(recs[i].uv))
  }

  /** Putting a consistent one-decimal entry in front keeps the history
      well formed. */
  lemma PrependKeepsHistory(recs: seq<Recommendation>, rec: Recommendation)
    requires Consistent(rec) && IsTenths(rec.uv)
    ensures HistoryInv(recs) ==> HistoryInv([rec] + recs)
  {
    if HistoryInv(recs) {
      var t := [rec] + recs;
      assert t[|t| - 2..] == recs[|recs| - 2..];
      forall i | 0 <= i < |t| - 2
        ensures Consistent(t[i]) && IsTenths(t[i].uv)
      {
        if i > 0 { assert t[i] == recs[i - 1]; }
      }
    }
  }

  /** The history is well formed; the current UV is a one-decimal value
      from 1 to 11; the closed recommendation, if any, is consistent; the
      spinner only turns while a refresh timer is pending. */
  predicate Inv(s: DashboardState) {
    && HistoryInv(s.recommendations)
    && 1.0 <= s.currentUV <= 11.0 && IsTenths(s.currentUV)
    && (s.lastRecommendation.Some? ==> Consistent(s.lastRecommendation.value))
    && (s.isRefreshing ==> s.pendingRefreshes > 0)
  }

  lemma InitialInv()
    ensures Inv(Initial)
  {
    assert (7.5 * 10.0).Floor == 75;
  }

  /** `handleScroll`: moving down past 20 hides the menu, moving up shows
      it, anything else leaves it; the offset is always recorded. */
  function Scroll(s: DashboardState, y: real): (r: DashboardState)
    ensures r.lastScrollY == y
    ensures y > s.lastScrollY && y > 20.0 ==> !r.isMenuVisible
    ensures y < s.lastScrollY ==> r.isMenuVisible
    ensures (y == s.lastScrollY || s.lastScrollY < y <= 20.0) ==> r.isMenuVisible == s.isMenuVisible
    ensures r == s.(isMenuVisible := r.isMenuVisible, lastScrollY := y)
    ensures Inv(s) ==> Inv(r)
  {
    var visible :=
      if y > s.lastScrollY && y > 20.0 then false
      else if y < s.lastScrollY then true
      else s.isMenuVisible;
    s.(isMenuVisible := visible, lastScrollY := y)
  }

  /** Scrolling down and back up to where the menu was shown shows it. */
  lemma ScrollDownThenUp(s: DashboardState, y: real)
    requires y > s.lastScrollY && y > 20.0
    ensures !Scroll(s, y).isMenuVisible
    ensures Scroll(Scroll(s, y), s.lastScrollY).isMenuVisible
    ensures Scroll(Scroll(s, y), s.lastScrollY).lastScrollY == s.lastScrollY
  {
  }

  /** `handleRefresh`: the spinner starts and a timer is queued (the button
      stays enabled, so timers can pile up). */
  function Refresh(s: DashboardState): (r: DashboardState)
    ensures r.isRefreshing && r.pendingRefreshes == s.pendingRefreshes + 1
    ensures r == s.(isRefreshing := true, pendingRefreshes := s.pendingRefreshes + 1)
    ensures Inv(s) ==> Inv(r)
  {
    s.(isRefreshing := true, pendingRefreshes := s.pendingRefreshes + 1)
  }

  /** A refresh timer fires: a one-decimal reading from 1 to 11 becomes the
      current UV, the floating recommendation shows, and exactly one entry
      built from that reading goes in front of the history, whose other
      entries keep their order. */
  function FireRefresh(s: DashboardState, r: real, id: int, stamp: string): (t: DashboardState)
    requires s.pendingRefreshes > 0 && 0.0 <= r < 1.0
    ensures 1.0 <= t.currentUV <= 11.0 && IsTenths(t.currentUV)
    ensures !t.isRefreshing && t.showRecommendation && t.pendingRefreshes == s.pendingRefreshes - 1
    ensures |t.recommendations| == |s.recommendations| + 1
    ensures t.recommendations[1..] == s.recommendations
    ensures t.recommendations[0].uv == t.currentUV && Consistent(t.recommendations[0])
    ensures t.recommendations[0].id == id && t.recommendations[0].timestamp == stamp
    ensures t.currentView == s.currentView && t.isMenuVisible == s.isMenuVisible
    ensures t.lastScrollY == s.lastScrollY && t.lastRecommendation == s.lastRecommendation
    ensures Inv(s) ==> Inv(t)
  {
    var newUV := RefreshReading(r);
    var newRec := RecommendationFor(id, newUV, stamp);
    PrependKeepsHistory(s.recommendations, newRec);
    assert ([newRec] + s.recommendations)[1..] == s.recommendations;
    s.(currentUV := newUV, isRefreshing := false, showRecommendation := true,
       recommendations := [newRec] + s.recommendations,
       pendingRefreshes := s.pendingRefreshes - 1)
  }

  /** The close button of the floating recommendation (it exists only while
      the card is shown on the home view): the card hides and an entry for
      the current UV is recorded as the last recommendation; the history is
      not touched. */
  function CloseRecommendation(s: DashboardState, id: int, stamp: string): (r: DashboardState)
    requires s.showRecommendation && s.currentView == Home
    ensures !r.showRecommendation
    ensures r.lastRecommendation == Some(RecommendationFor(id, s.currentUV, stamp))
    ensures r.lastRecommendation.value.level == Label(UVStatus(s.currentUV))
    ensures r == s.(showRecommendation := false, lastRecommendation := r.lastRecommendation)
    ensures Inv(s) ==> Inv(r)
  {
    s.(lastRecommendation := Some(RecommendationFor(id, s.currentUV, stamp)), showRecommendation := false)
  }

  /** A tab of the bottom menu sets the view and nothing else. */
  function SetView(s: DashboardState, v: View): (r: DashboardState)
    ensures r.currentView == v && r == s.(currentView := v)
    ensures Inv(s) ==> Inv(r)
  {
    s.(currentView := v)
  }

  /** Every refresh entry in the history reads the same under both
      bucketings: a low label goes with the safe text, a moderate one with
      hat and shade, a high or very high one with the alert. */
  lemma RefreshEntriesAgree(s: DashboardState, i: int)
    requires Inv(s) && 0 <= i < |s.recommendations| - 2
    ensures s.recommendations[i].level == "Bajo" <==>
              s.recommendations[i].message == AdviceText(Safe)
    ensures s.recommendations[i].level == "Moderado" <==>
              s.recommendations[i].message == AdviceText(HatAndShade)
    ensures s.recommendations[i].level in {"Alto", "Muy alto"} <==>
              s.recommendations[i].message == AdviceText(Alert)
  {
    var rec := s.recommendations[i];
    assert Consistent(rec) && IsTenths(rec.uv);
    BandsAgreeOnTenths(rec.uv);
  }

  // ---------------------------------------------------------------------
  // The component

  class DashboardScreen {
    var currentView: View
    var isMenuVisible: bool
    var lastScrollY: real
    var currentUV: real
    var isRefreshing: bool
    var showRecommendation: bool
    var lastRecommendation: Option<Recommendation>
    var recommendations: seq<Recommendation>
    var pendingRefreshes: nat

    function Snapshot(): DashboardState
      reads this
    {
      DashboardState(currentView, isMenuVisible, lastScrollY, currentUV, isRefreshing,
                     showRecommendation, lastRecommendation, recommendations, pendingRefreshes)
    }

    ghost predicate Valid()
      reads this
    {
      Inv(Snapshot())
    }

    constructor ()
      ensures Valid() && Snapshot() == Initial
    {
      currentView, isMenuVisible, lastScrollY := Home, true, 0.0;
      currentUV, isRefreshing := 7.5, false;
      showRecommendation, lastRecommendation := false, None;
      recommendations, pendingRefreshes := SeedHistory, 0;
      new;
      assert Snapshot() == Initial;
      InitialInv();
    }

    method HandleScroll(currentScrollY: real)
      requires Valid()
      modifies this
      ensures Valid() && Snapshot() == Scroll(old(Snapshot()), currentScrollY)
    {
      if currentScrollY > lastScrollY && currentScrollY > 20.0 {
        isMenuVisible := false;
      } else if currentScrollY < lastScrollY {
        isMenuVisible := true;
      }
      lastScrollY := currentScrollY;
    }

    method HandleRefresh()
      requires Valid()
      modifies this
      ensures Valid() && Snapshot() == Refresh(old(Snapshot()))
    {
      isRefreshing := true;
      pendingRefreshes := pendingRefreshes + 1;
    }

    /** A refresh timer fires; `r` stands for `Math.random()`, `id` for
        `Date.now()` and `stamp` for the formatted date and time. */
    method FireRefreshTimer(r: real, id: int, stamp: string)
      requires Valid() && pendingRefreshes > 0 && 0.0 <= r < 1.0
      modifies this
      ensures Valid() && Snapshot() == FireRefresh(old(Snapshot()), r, id, stamp)
    {
      pendingRefreshes := pendingRefreshes - 1;
      var newUV := RefreshReading(r);
      currentUV := newUV;
      isRefreshing := false;
      showRecommendation := true;
      var newRec := RecommendationFor(id, newUV, stamp);
      recommendations := [newRec] + recommendations;
    }

    method HandleCloseRecommendation(id: int, stamp: string)
      requires Valid() && showRecommendation && currentView == Home
      modifies this
      ensures Valid() && Snapshot() == CloseRecommendation(old(Snapshot()), id, stamp)
    {
      var closedRec := RecommendationFor(id, currentUV, stamp);
      lastRecommendation := Some(closedRec);
      showRecommendation := false;
    }

    method SetCurrentView(v: View)
      requires Valid()
      modifies this
      ensures Valid() && Snapshot() == SetView(old(Snapshot()), v)
    {
      currentView := v;
    }
  }
}
