/** The profile editor (`Profile`): a skin-type selector with a simulated
    camera scan, an SPF stepper over a fixed list of options, a
    notifications switch, an edit toggle, and a delayed logout.

    The scan's 3000 ms timer and the logout's 500 ms timer are counted in
    `pendingScans` and `pendingLogouts`; which one fires next is the
    caller's choice. `Math.random()` is the parameter `r`, a real in [0, 1). */
module Profile {

  /** One entry of the skin-type list: its name and its description. */
  datatype SkinType = SkinType(kind: string, description: string)

  const SkinTypes: seq<SkinType> := [
    SkinType("Tipo I (Muy Clara)", "Siempre se quema, nunca se broncea"),
    SkinType("Tipo II (Clara)", "Se quema fácilmente, bronceado mínimo"),
    SkinType("Tipo III (Trigueña)", "Se broncea moderadamente, puede quemarse"),
    SkinType("Tipo IV (Morena Clara)", "Se broncea bien, rara vez se quema"),
    SkinType("Tipo V (Morena)", "Se broncea con facilidad, muy rara vez se quema"),
    SkinType("Tipo VI (Muy Oscura)", "Nunca se quema, siempre se broncea")
  ]

  const SpfOptions: seq<int> := [15, 30, 50, 70, 100]

  datatype ProfileState = ProfileState(
    skinTypeIndex: int,
    spf: int,
    notifications: bool,
    isEditing: bool,
    showCamera: bool,
    isScanning: bool,
    pendingScans: nat,
    pendingLogouts: nat)

  const Initial := ProfileState(2, 50, true, false, false, false, 0, 0)

  /** The skin type indexes the list, the SPF is one of the options, and
      the scanning overlay only shows while a scan timer is pending. */
  predicate Inv(s: ProfileState) {
    && 0 <= s.skinTypeIndex < |SkinTypes|
    && s.spf in SpfOptions
    && (s.isScanning ==> s.pendingScans > 0)
  }

  lemma InitialInv()
    ensures Inv(Initial)
  {
  }

  // ---------------------------------------------------------------------
  // The SPF stepper

  /** `Array.prototype.indexOf`: the first position of `x`, or -1. */
  function IndexOf(xs: seq<int>, x: int): (r: int)
    ensures -1 <= r < |xs|
    ensures r == -1 <==> x !in xs
    ensures r >= 0 ==> xs[r] == x && forall j :: 0 <= j < r ==> xs[j] != x
  {
    if xs == [] then -1
    else if xs[0] == x then 0
    else
      var k := IndexOf(xs[1..], x);
      if k == -1 then -1 else k + 1
  }

  /** The option `handleIncreaseSPF` picks: the next larger option, 100 at
      the top; a value outside the list (index -1) would become 15. */
  function NextSpf(spf: int): (r: int)
    ensures r in SpfOptions
    ensures spf == 100 ==> r == 100
    ensures spf in SpfOptions && spf != 100 ==>
              spf < r && forall o :: o in SpfOptions ==> !(spf < o < r)
    ensures spf !in SpfOptions ==> r == 15
  {
    var i := IndexOf(SpfOptions, spf);
    var next := if i < |SpfOptions| - 1 then i + 1 else i;
    SpfOptions[next]
  }

  /** The option `handleDecreaseSPF` picks: the next smaller option, 15 at
      the bottom. */
  function PrevSpf(spf: int): (r: int)
    requires spf in SpfOptions
    ensures r in SpfOptions
    ensures spf == 15 ==> r == 15
    ensures spf != 15 ==> r < spf && forall o :: o in SpfOptions ==> !(r < o < spf)
  {
    var i := IndexOf(SpfOptions, spf);
    var prev := if i > 0 then i - 1 else i;
    SpfOptions[prev]
  }

  /** The minus button is disabled on the first option, 15, and only
      there. */
  function DecreaseDisabled(spf: int): (b: bool)
    ensures b <==> spf == 15
  {
    IndexOf(SpfOptions, spf) == 0
  }

  /** The plus button is disabled on the last option, 100, and only
      there. */
  function IncreaseDisabled(spf: int): (b: bool)
    ensures b <==> spf == 100
  {
    IndexOf(SpfOptions, spf) == |SpfOptions| - 1
  }

  /** Each stepper button is disabled exactly where pressing it would
      change nothing. */
  lemma StepperDisabledAtClamps(spf: int)
    requires spf in SpfOptions
    ensures DecreaseDisabled(spf) <==> PrevSpf(spf) == spf
    ensures IncreaseDisabled(spf) <==> NextSpf(spf) == spf
  {
  }

  /** Up then down restores the SPF below the top; down then up restores
      it above the bottom. */
  lemma StepperRoundTrips(spf: int)
    requires spf in SpfOptions
    ensures spf != 100 ==> PrevSpf(NextSpf(spf)) == spf
    ensures spf != 15 ==> NextSpf(PrevSpf(spf)) == spf
  {
  }

  // ---------------------------------------------------------------------
  // Handlers

  /** `handleIncreaseSPF`: only `spf` changes. */
  function IncreaseSpf(s: ProfileState): (r: ProfileState)
    ensures r == s.(spf := NextSpf(s.spf))
    ensures Inv(s) ==> Inv(r)
  {
    s.(spf := NextSpf(s.spf))
  }

  /** `handleDecreaseSPF`: only `spf` changes. */
  function DecreaseSpf(s: ProfileState): (r: ProfileState)
    requires s.spf in SpfOptions
    ensures r == s.(spf := PrevSpf(s.spf))
    ensures Inv(s) ==> Inv(r)
  {
    s.(spf := PrevSpf(s.spf))
  }

  /** `handleToggleNotifications`: only `notifications` flips. */
  function ToggleNotifications(s: ProfileState): (r: ProfileState)
    ensures r.notifications != s.notifications && r == s.(notifications := r.notifications)
    ensures Inv(s) ==> Inv(r)
  {
    s.(notifications := !s.notifications)
  }

  lemma ToggleNotificationsTwice(s: ProfileState)
    ensures ToggleNotifications(ToggleNotifications(s)) == s
  {
  }

  /** `handleSelectChange`: the selector offers the indexes of `SkinTypes`
      and only `skinTypeIndex` changes. */
  function SelectSkinType(s: ProfileState, index: int): (r: ProfileState)
    requires 0 <= index < |SkinTypes|
    ensures r.skinTypeIndex == index && r == s.(skinTypeIndex := index)
    ensures Inv(s) ==> Inv(r)
  {
    s.(skinTypeIndex := index)
  }

  /** The description under the selector: the six descriptions differ,
      so the text shown identifies the selected type. */
  function Description(s: ProfileState): (d: string)
    requires Inv(s)
    ensures forall j :: 0 <= j < |SkinTypes| ==> (SkinTypes[j].description == d <==> j == s.skinTypeIndex)
  {
    SkinTypes[s.skinTypeIndex].description
  }

  /** The edit button flips `isEditing` (it only restyles the button). */
  function ToggleEditing(s: ProfileState): (r: ProfileState)
    ensures r.isEditing != s.isEditing && r == s.(isEditing := r.isEditing)
    ensures Inv(s) ==> Inv(r)
  {
    s.(isEditing := !s.isEditing)
  }

  /** `startCamera`: the camera overlay opens. */
  function StartCamera(s: ProfileState): (r: ProfileState)
    ensures r.showCamera && r == s.(showCamera := true)
    ensures Inv(s) ==> Inv(r)
  {
    s.(showCamera := true)
  }

  /** `stopCamera`: the overlay closes and the scanning flag drops; a scan
      timer already started is not cancelled. */
  function StopCamera(s: ProfileState): (r: ProfileState)
    ensures !r.showCamera && !r.isScanning && r.pendingScans == s.pendingScans
    ensures r == s.(showCamera := false, isScanning := false)
    ensures Inv(s) ==> Inv(r)
  {
    s.(showCamera := false, isScanning := false)
  }

  /** `handleScanSkin`: scanning starts and a scan timer is queued. */
  function ScanSkin(s: ProfileState): (r: ProfileState)
    ensures r.isScanning && r.pendingScans == s.pendingScans + 1
    ensures r == s.(isScanning := true, pendingScans := s.pendingScans + 1)
    ensures Inv(s) ==> Inv(r)
  {
    s.(isScanning := true, pendingScans := s.pendingScans + 1)
  }

  /** The shutter button is disabled while scanning. */
  predicate ScanDisabled(s: ProfileState) {
    s.isScanning
  }

  /** A scan disables the shutter until its timer fires or the camera is
      closed. */
  lemma ScanDisablesShutter(s: ProfileState, r: real)
    requires 0.0 <= r < 1.0
    ensures ScanDisabled(ScanSkin(s))
    ensures !ScanDisabled(FireScan(ScanSkin(s), r))
    ensures !ScanDisabled(StopCamera(s))
    ensures Inv(s) && ScanDisabled(s) ==> s.pendingScans > 0
  {
  }

  /** `Math.floor(Math.random() * 3) + 1`: the second, third or fourth
      skin type. */
  function DetectedIndex(r: real): (d: int)
    requires 0.0 <= r < 1.0
    ensures 1 <= d <= 3
    ensures (d - 1) as real <= r * 3.0 < d as real
  {
    (r * 3.0).Floor + 1
  }

  /** A scan timer fires: the detected type is stored, scanning stops and
      the camera closes; SPF and notifications are untouched. */
  function FireScan(s: ProfileState, r: real): (t: ProfileState)
    requires s.pendingScans > 0 && 0.0 <= r < 1.0
    ensures 1 <= t.skinTypeIndex <= 3
    ensures !t.isScanning && !t.showCamera && t.pendingScans == s.pendingScans - 1
    ensures t.spf == s.spf && t.notifications == s.notifications && t.isEditing == s.isEditing
    ensures t.pendingLogouts == s.pendingLogouts
    ensures Inv(s) ==> Inv(t)
  {
    var detected := DetectedIndex(r);
    var withType := s.(skinTypeIndex := detected);
    StopCamera(withType.(isScanning := false, pendingScans := s.pendingScans - 1))
  }

  /** Closing the camera while scanning does not cancel the scan: when the
      timer fires, the detected type still replaces the selection. */
  lemma StopCameraDoesNotCancelScan(s: ProfileState, index: int, r: real)
    requires Inv(s) && s.pendingScans == 0 && 0 <= index < |SkinTypes| && 0.0 <= r < 1.0
    ensures
      var t := StopCamera(ScanSkin(StartCamera(SelectSkinType(s, index))));
      !t.showCamera && t.skinTypeIndex == index &&
      FireScan(t, r).skinTypeIndex == DetectedIndex(r)
  {
  }

  /** `handleLogoutClick`: a logout timer is queued. */
  function LogoutClick(s: ProfileState): (r: ProfileState)
    ensures r == s.(pendingLogouts := s.pendingLogouts + 1)
    ensures Inv(s) ==> Inv(r)
  {
    s.(pendingLogouts := s.pendingLogouts + 1)
  }

  /** A logout timer fires and calls `onLogout`. */
  function FireLogout(s: ProfileState): (r: ProfileState)
    requires s.pendingLogouts > 0
    ensures r == s.(pendingLogouts := s.pendingLogouts - 1)
    ensures Inv(s) ==> Inv(r)
  {
    s.(pendingLogouts := s.pendingLogouts - 1)
  }

  // ---------------------------------------------------------------------
  // The component

  /** The component: the `profile` record's three fields and the flags. */
  class ProfileScreen {
    var skinTypeIndex: int
    var spf: int
    var notifications: bool
    var isEditing: bool
    var showCamera: bool
    var isScanning: bool
    var pendingScans: nat
    var pendingLogouts: nat

    function Snapshot(): ProfileState
      reads this
    {
      ProfileState(skinTypeIndex, spf, notifications, isEditing, showCamera, isScanning, pendingScans, pendingLogouts)
    }

    ghost predicate Valid()
      reads this
    {
      Inv(Snapshot())
    }

    constructor ()
      ensures Valid() && Snapshot() == Initial
    {
      skinTypeIndex, spf, notifications := 2, 50, true;
      isEditing, showCamera, isScanning := false, false, false;
      pendingScans, pendingLogouts := 0, 0;
    }

    method HandleIncreaseSpf()
      requires Valid()
      modifies this
      ensures Valid() && Snapshot() == IncreaseSpf(old(Snapshot()))
    {
      var currentIndex := IndexOf(SpfOptions, spf);
      var nextIndex := if currentIndex < |SpfOptions| - 1 then currentIndex + 1 else currentIndex;
      spf := SpfOptions[nextIndex];
    }

    method HandleDecreaseSpf()
      requires Valid()
      modifies this
      ensures Valid() && Snapshot() == DecreaseSpf(old(Snapshot()))
    {
      var currentIndex := IndexOf(SpfOptions, spf);
      var prevIndex := if currentIndex > 0 then currentIndex - 1 else currentIndex;
      spf := SpfOptions[prevIndex];
    }

    method HandleToggleNotifications()
      requires Valid()
      modifies this
      ensures Valid() && Snapshot() == ToggleNotifications(old(Snapshot()))
    {
      notifications := !notifications;
    }

    method HandleSelectChange(index: int)
      requires Valid() && 0 <= index < |SkinTypes|
      modifies this
      ensures Valid() && Snapshot() == SelectSkinType(old(Snapshot()), index)
    {
      skinTypeIndex := index;
    }

    method HandleToggleEditing()
      requires Valid()
      modifies this
      ensures Valid() && Snapshot() == ToggleEditing(old(Snapshot()))
    {
      isEditing := !isEditing;
    }

    method HandleStartCamera()
      requires Valid()
      modifies this
      ensures Valid() && Snapshot() == StartCamera(old(Snapshot()))
    {
      showCamera := true;
    }

    method HandleStopCamera()
      requires Valid()
      modifies this
      ensures Valid() && Snapshot() == StopCamera(old(Snapshot()))
    {
      showCamera := false;
      isScanning := false;
    }

    method HandleScanSkin()
      requires Valid()
      modifies this
      ensures Valid() && Snapshot() == ScanSkin(old(Snapshot()))
    {
      isScanning := true;
      pendingScans := pendingScans + 1;
    }

    /** A scan timer fires with `r` standing for `Math.random()`. */
    method FireScanTimer(r: real)
      requires Valid() && pendingScans > 0 && 0.0 <= r < 1.0
      modifies this
      ensures Valid() && Snapshot() == FireScan(old(Snapshot()), r)
    {
      pendingScans := pendingScans - 1;
      var detectedIndex := (r * 3.0).Floor + 1;
      skinTypeIndex := detectedIndex;
      isScanning := false;
      // `stopCamera()`
      showCamera := false;
      isScanning := false;
    }

    method HandleLogoutClick()
      requires Valid()
      modifies this
      ensures Valid() && Snapshot() == LogoutClick(old(Snapshot()))
    {
      pendingLogouts := pendingLogouts + 1;
    }

    /** A logout timer fires; `loggedOut` says `onLogout` was called. */
    method FireLogoutTimer() returns (loggedOut: bool)
      requires Valid() && pendingLogouts > 0
      modifies this
      ensures Valid() && Snapshot() == FireLogout(old(Snapshot())) && loggedOut
    {
      pendingLogouts := pendingLogouts - 1;
      loggedOut := true;
    }
  }
}
