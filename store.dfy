// The session store (frontend/lib/store.ts): one object whose actions
// overwrite some of its fields. The list transforms inside the actions are
// pure functions here, with their properties proved; the class's actions are
// stated as "the new state is the old state with these fields replaced".

module Store {
  import opened Types

  /** Capacity of the rolling alert log. */
  const MaxAlerts: nat := 100

  function Min(a: int, b: int): int {
    if a <= b then a else b
  }

  datatype LatLng = LatLng(lat: real, lng: real)

  datatype Destination = Destination(lat: real, lng: real, address: string)

  /** A Partial<UserSettings>: the fields to overwrite. */
  datatype SettingsPatch = SettingsPatch(
    alertSoundEnabled: Option<bool>,
    voiceAlertsEnabled: Option<bool>,
    batterySaverMode: Option<bool>,
    nightModeAuto: Option<bool>,
    sensitivityLevel: Option<Sensitivity>,
    language: Option<string>)

  const EmptyPatch := SettingsPatch(None, None, None, None, None, None)

  function Pick<T>(patch: Option<T>, current: T): T {
    match patch
    case Some(v) => v
    case None => current
  }

  /** { ...settings, ...patch } */
  function MergeSettings(s: UserSettings, p: SettingsPatch): UserSettings {
    UserSettings(
      Pick(p.alertSoundEnabled, s.alertSoundEnabled),
      Pick(p.voiceAlertsEnabled, s.voiceAlertsEnabled),
      Pick(p.batterySaverMode, s.batterySaverMode),
      Pick(p.nightModeAuto, s.nightModeAuto),
      Pick(p.sensitivityLevel, s.sensitivityLevel),
      Pick(p.language, s.language))
  }

  /** Merging is the identity for an empty patch, and merging the same patch
      twice is merging it once. */
  lemma MergeSettingsLaws(s: UserSettings, p: SettingsPatch)
    ensures MergeSettings(s, EmptyPatch) == s
    ensures MergeSettings(MergeSettings(s, p), p) == MergeSettings(s, p)
  {
  }

  /** Every field of the store, as one value. */
  datatype StoreState = StoreState(
    user: Option<User>,
    isAuthenticated: bool,
    currentTrip: Option<Trip>,
    tripStatus: TripStatus,
    trips: seq<Trip>,
    currentDetection: Option<Detection>,
    riskLevel: RiskLevel,
    alerts: seq<Alert>,
    currentLocation: Option<LatLng>,
    destination: Option<Destination>,
    isCameraActive: bool,
    isMonitoring: bool,
    sosActive: bool)

  const InitialState := StoreState(
    None, false, None, Idle, [], None, Safe, [], None, None, false, false, false)

  /** The state endTrip leaves: without a current trip nothing changes;
      otherwise the trip is archived as completed at `endTime`, monitoring
      and the camera go off and the risk level returns to safe. */
  function EndTripState(s: StoreState, endTime: nat): (r: StoreState)
    ensures s.currentTrip.None? ==> r == s
    ensures s.currentTrip.Some? ==>
      && r.currentTrip.None? && r.tripStatus == Idle && !r.isMonitoring && !r.isCameraActive
      && r.riskLevel == Safe
      && |r.trips| == |s.trips| + 1 && r.trips[..|s.trips|] == s.trips
      && r.trips[|s.trips|] == s.currentTrip.value.(status := Completed, endTime := Some(endTime))
      && r.(currentTrip := s.currentTrip, tripStatus := s.tripStatus, trips := s.trips, isMonitoring := s.isMonitoring,
            isCameraActive := s.isCameraActive, riskLevel := s.riskLevel) == s
  {
    if s.currentTrip.None? then s
    else s.(currentTrip := None, tripStatus := Idle,
            trips := s.trips + [s.currentTrip.value.(status := Completed, endTime := Some(endTime))],
            isMonitoring := false, isCameraActive := false, riskLevel := Safe)
  }

  // ---------------------------------------------------------------------
  // The alert log: newest first, at most MaxAlerts entries.

  /** [alert, ...alerts].slice(0, 100) */
  function PrependCapped(a: Alert, log: seq<Alert>): (r: seq<Alert>)
    ensures |r| == Min(|log| + 1, MaxAlerts)
    ensures r[0] == a
    ensures r[1..] == log[..|r| - 1]
  {
    ([a] + log)[..Min(|log| + 1, MaxAlerts)]
  }

  /** The log after adding `xs` one by one, in order. */
  function PrependAll(log: seq<Alert>, xs: seq<Alert>): seq<Alert>
    decreases |xs|
  {
    if xs == [] then log
    else PrependCapped(xs[|xs| - 1], PrependAll(log, xs[..|xs| - 1]))
  }

  function Reverse<T>(s: seq<T>): (r: seq<T>)
    ensures |r| == |s|
    ensures forall i :: 0 <= i < |s| ==> r[i] == s[|s| - 1 - i]
  {
    if s == [] then [] else [s[|s| - 1]] + Reverse(s[..|s| - 1])
  }

  /** After any number of additions the log holds the most recent alerts,
      newest first, and never more than MaxAlerts of them: the evicted
      entries are always the oldest. */
  lemma {:induction false} PrependAllNewestFirst(log: seq<Alert>, xs: seq<Alert>)
    requires |log| <= MaxAlerts
    ensures PrependAll(log, xs) == (Reverse(xs) + log)[..Min(|xs| + |log|, MaxAlerts)]
    decreases |xs|
  {
    if xs != [] {
      var init := xs[..|xs| - 1];
      var x := xs[|xs| - 1];
      PrependAllNewestFirst(log, init);
      var prev := (Reverse(init) + log)[..Min(|init| + |log|, MaxAlerts)];
      assert Reverse(xs) == [x] + Reverse(init);
      var r := PrependCapped(x, prev);
      var want := (Reverse(xs) + log)[..Min(|xs| + |log|, MaxAlerts)];
      assert |r| == |want|;
      forall i | 0 <= i < |r| ensures r[i] == want[i] {
        if i > 0 {
          assert r[i] == r[1..][i - 1] == prev[i - 1];
        }
      }
    }
  }

  /** alerts.map(a => a.id === id ? { ...a, acknowledged: true } : a) */
  function Acknowledge(log: seq<Alert>, id: string): (r: seq<Alert>)
    ensures |r| == |log|
    ensures forall i :: 0 <= i < |r| ==> r[i].acknowledged == (log[i].acknowledged || log[i].id == id)
    ensures forall i :: 0 <= i < |r| ==> r[i].(acknowledged := false) == log[i].(acknowledged := false)
    decreases |log|
  {
    if log == [] then []
    else [if log[0].id == id then log[0].(acknowledged := true) else log[0]] + Acknowledge(log[1..], id)
  }

  lemma AcknowledgeIdempotent(log: seq<Alert>, id: string)
    ensures Acknowledge(Acknowledge(log, id), id) == Acknowledge(log, id)
  {
    var once := Acknowledge(log, id);
    var twice := Acknowledge(once, id);
    forall i | 0 <= i < |log| ensures twice[i] == once[i] {
      assert twice[i].(acknowledged := false) == once[i].(acknowledged := false);
    }
  }

  /** alerts.filter(a => !a.acknowledged): what the top bar and the sidebar
      count as new alerts. */
  function Unacknowledged(log: seq<Alert>): (r: seq<Alert>)
    ensures forall a :: a in r <==> a in log && !a.acknowledged
    ensures forall a :: multiset(r)[a] == if a.acknowledged then 0 else multiset(log)[a]
    ensures Subsequence(r, log)
    decreases |log|
  {
    if log == [] then []
    else
      assert log == [log[0]] + log[1..];
      var rest := Unacknowledged(log[1..]);
      if log[0].acknowledged then rest else [log[0]] + rest
  }

  /** After acknowledging an id, no new alert carries that id, and every
      alert that stays new was new before. */
  lemma AcknowledgeClearsId(log: seq<Alert>, id: string)
    ensures forall a :: a in Unacknowledged(Acknowledge(log, id)) ==> a.id != id && a in log
  {
    var r := Acknowledge(log, id);
    forall a | a in Unacknowledged(r) ensures a.id != id && a in log {
      var i :| 0 <= i < |r| && r[i] == a;
      assert r[i].(acknowledged := false) == log[i].(acknowledged := false);
    }
  }

  // ---------------------------------------------------------------------

  class DriverStore {
    var user: Option<User>
    var isAuthenticated: bool
    var currentTrip: Option<Trip>
    var tripStatus: TripStatus
    var trips: seq<Trip>
    var currentDetection: Option<Detection>
    var riskLevel: RiskLevel
    var alerts: seq<Alert>
    var currentLocation: Option<LatLng>
    var destination: Option<Destination>
    var isCameraActive: bool
    var isMonitoring: bool
    var sosActive: bool

    function State(): StoreState
      reads this
    {
      StoreState(user, isAuthenticated, currentTrip, tripStatus, trips, currentDetection,
                 riskLevel, alerts, currentLocation, destination, isCameraActive,
                 isMonitoring, sosActive)
    }

    /** The alert log never exceeds its capacity. */
    ghost predicate Valid()
      reads this
    {
      |alerts| <= MaxAlerts
    }

    constructor ()
      ensures State() == InitialState && Valid()
    {
      user, isAuthenticated := None, false;
      currentTrip, tripStatus, trips := None, Idle, [];
      currentDetection, riskLevel, alerts := None, Safe, [];
      currentLocation, destination := None, None;
      isCameraActive, isMonitoring, sosActive := false, false, false;
    }

    method SetUser(u: Option<User>)
      modifies this
      ensures State() == old(State()).(user := u, isAuthenticated := u.Some?)
    {
      user, isAuthenticated := u, u.Some?;
    }

    method SetAuthenticated(status: bool)
      modifies this
      ensures State() == old(State()).(isAuthenticated := status)
    {
      isAuthenticated := status;
    }

    method StartTrip(trip: Trip)
      modifies this
      ensures State() == old(State()).(currentTrip := Some(trip), tripStatus := Active,
                                       isMonitoring := true, isCameraActive := true)
    {
      currentTrip, tripStatus := Some(trip), Active;
      isMonitoring, isCameraActive := true, true;
    }

    /** Archives the current trip as completed; without a current trip,
        nothing changes. The alert log, the last detection and the SOS flag
        are kept. */
    method EndTrip(endTime: nat)
      modifies this
      ensures State() == EndTripState(old(State()), endTime)
    {
      if currentTrip.Some? {
        var completed := currentTrip.value.(status := Completed, endTime := Some(endTime));
        currentTrip, tripStatus := None, Idle;
        trips := trips + [completed];
        isMonitoring, isCameraActive := false, false;
        riskLevel := Safe;
      }
    }

    method SetDetection(detection: Detection)
      modifies this
      ensures State() == old(State()).(currentDetection := Some(detection),
                                       riskLevel := detection.overallRisk)
    {
      currentDetection, riskLevel := Some(detection), detection.overallRisk;
    }

    method SetRiskLevel(level: RiskLevel)
      modifies this
      ensures State() == old(State()).(riskLevel := level)
    {
      riskLevel := level;
    }

    method AddAlert(alert: Alert)
      modifies this
      ensures State() == old(State()).(alerts := PrependCapped(alert, old(alerts)))
      ensures Valid()
    {
      alerts := PrependCapped(alert, alerts);
    }

    method AcknowledgeAlert(alertId: string)
      modifies this
      ensures State() == old(State()).(alerts := Acknowledge(old(alerts), alertId))
    {
      alerts := Acknowledge(alerts, alertId);
    }

    method SetLocation(location: LatLng)
      modifies this
      ensures State() == old(State()).(currentLocation := Some(location))
    {
      currentLocation := Some(location);
    }

    method SetDestination(dest: Option<Destination>)
      modifies this
      ensures State() == old(State()).(destination := dest)
    {
      destination := dest;
    }

    method SetCameraActive(active: bool)
      modifies this
      ensures State() == old(State()).(isCameraActive := active)
    {
      isCameraActive := active;
    }

    method SetMonitoring(active: bool)
      modifies this
      ensures State() == old(State()).(isMonitoring := active)
    {
      isMonitoring := active;
    }

    method TriggerSOS()
      modifies this
      ensures State() == old(State()).(sosActive := true, tripStatus := Emergency)
    {
      sosActive, tripStatus := true, Emergency;
    }

    /** Whatever the prior state, the trip is back to active. */
    method CancelSOS()
      modifies this
      ensures State() == old(State()).(sosActive := false, tripStatus := Active)
    {
      sosActive, tripStatus := false, Active;
    }

    /** Merges into the settings of the signed-in user; without a user,
        the user stays absent. */
    method UpdateSettings(patch: SettingsPatch)
      modifies this
      ensures old(user).None? ==> State() == old(State())
      ensures old(user).Some? ==>
        State() == old(State()).(user := Some(old(user).value.(settings := MergeSettings(old(user).value.settings, patch))))
    {
      if user.Some? {
        user := Some(user.value.(settings := MergeSettings(user.value.settings, patch)));
      }
    }

    method Reset()
      modifies this
      ensures State() == InitialState && Valid()
    {
      user, isAuthenticated := None, false;
      currentTrip, tripStatus, trips := None, Idle, [];
      currentDetection, riskLevel, alerts := None, Safe, [];
      currentLocation, destination := None, None;
      isCameraActive, isMonitoring, sosActive := false, false, false;
    }
  }
}
