// The drive page (frontend/app/drive/page.tsx): it puts the newest urgent
// unacknowledged alert on screen, acknowledges it on dismissal, starts and
// ends trips, counts the trip's seconds and formats them as HH:MM:SS.
//
// Date.now(), Math.random() and the one-second interval are parameters or
// explicit steps. The route weather lookup is not part of this model.

module DrivePage {
  import opened Types
  import opened Decimal
  import Store

  // ---------------------------------------------------------------------
  // Which alert goes on screen

  /** An alert the page would put on screen. */
  predicate IsCandidate(a: Alert) {
    !a.acknowledged && IsUrgent(a.severity)
  }

  /** Index of the first candidate in store order, or |log| if none. */
  function FirstCandidate(log: seq<Alert>): (i: nat)
    ensures i <= |log|
    ensures i < |log| ==> IsCandidate(log[i])
    ensures forall j :: 0 <= j < i ==> !IsCandidate(log[j])
    decreases |log|
  {
    if log == [] then 0
    else if IsCandidate(log[0]) then 0
    else 1 + FirstCandidate(log[1..])
  }

  /** The alert-selection effect: an alert already on screen stays; with
      none, the first candidate of the log, if any, goes on screen. */
  function SelectAlert(active: Option<Alert>, log: seq<Alert>): (r: Option<Alert>)
    ensures active.Some? ==> r == active
    ensures active.None? ==> (r.Some? <==> exists j :: 0 <= j < |log| && IsCandidate(log[j]))
    ensures active.None? && r.Some? ==>
      exists i :: 0 <= i < |log| && log[i] == r.value && IsCandidate(log[i])
        && forall j :: 0 <= j < i ==> !IsCandidate(log[j])
  {
    if active.Some? then active
    else
      var i := FirstCandidate(log);
      if i < |log| then Some(log[i]) else None
  }

  /** Because the store prepends, a freshly added urgent alert is the one
      put on screen, however many older candidates the log holds. */
  lemma NewestUrgentSelected(a: Alert, log: seq<Alert>)
    requires IsCandidate(a)
    ensures SelectAlert(None, Store.PrependCapped(a, log)) == Some(a)
  {
  }

  /** Once dismissed (its id acknowledged), an alert's id is never selected
      again, and whatever is selected next was already in the log. */
  lemma DismissedNotReselected(log: seq<Alert>, id: string)
    ensures var r := SelectAlert(None, Store.Acknowledge(log, id));
      r.Some? ==> r.value.id != id && r.value in log
  {
    var acked := Store.Acknowledge(log, id);
    var r := SelectAlert(None, acked);
    if r.Some? {
      Store.AcknowledgeClearsId(log, id);
      assert r.value in Store.Unacknowledged(acked);
    }
  }

  // ---------------------------------------------------------------------
  // Display helpers

  /** The score shown on the risk meter for each level. */
  function RiskDisplayScore(level: RiskLevel): (score: nat)
    ensures 0 < score < 100
  {
    match level
    case Safe => 95
    case Moderate => 75
    case High => 45
    case Critical => 20
  }

  /** A higher risk level always shows a strictly lower score. */
  lemma RiskDisplayScoreDecreasing(a: RiskLevel, b: RiskLevel)
    requires Rank(a) < Rank(b)
    ensures RiskDisplayScore(a) > RiskDisplayScore(b)
  {
  }

  /** Three numbers as "HH:MM:SS", each part zero-padded to two digits. */
  function Clock(hrs: nat, mins: nat, secs: nat): string {
    PadStart2(NatToString(hrs)) + ":" + PadStart2(NatToString(mins)) + ":" + PadStart2(NatToString(secs))
  }

  /** formatDuration */
  function FormatDuration(seconds: nat): string {
    Clock(seconds / 3600, (seconds % 3600) / 60, seconds % 60)
  }

  /** The split into hours, minutes and seconds adds back up. */
  lemma DurationSplit(seconds: nat)
    ensures (seconds % 3600) / 60 < 60 && seconds % 60 < 60
    ensures (seconds / 3600) * 3600 + ((seconds % 3600) / 60) * 60 + seconds % 60 == seconds
  {
    var r := seconds % 3600;
    assert seconds == (seconds / 3600) * 3600 + r;
    assert r == (r / 60) * 60 + r % 60;
    assert r % 60 == seconds % 60 by {
      assert seconds == (seconds / 3600) * 60 * 60 + r;
    }
  }

  /** A padded rendering is digits and denotes its number. */
  lemma PaddedDenotes(n: nat)
    ensures AllDigits(PadStart2(NatToString(n))) && DigitsValue(PadStart2(NatToString(n))) == n
    ensures n < 100 ==> |PadStart2(NatToString(n))| == 2
    ensures |PadStart2(NatToString(n))| >= 2
  {
    NatToStringRoundTrip(n);
    PadStart2Value(NatToString(n));
  }

  /** Regrouping a text of three colon-separated parts. */
  lemma ColonParts(a: string, b: string, c: string)
    ensures a + ":" + b + ":" + c == a + [':'] + (b + [':'] + c)
  {
  }

  lemma PaddedInjective(n1: nat, n2: nat)
    requires PadStart2(NatToString(n1)) == PadStart2(NatToString(n2))
    ensures n1 == n2
  {
    PaddedDenotes(n1);
    PaddedDenotes(n2);
  }

  /** A padded number followed by a colon is read back unambiguously. */
  lemma PaddedThenColon(n1: nat, r1: string, n2: nat, r2: string)
    requires PadStart2(NatToString(n1)) + [':'] + r1 == PadStart2(NatToString(n2)) + [':'] + r2
    ensures n1 == n2 && r1 == r2
  {
    var p1, p2 := PadStart2(NatToString(n1)), PadStart2(NatToString(n2));
    assert AllDigits(p1) && AllDigits(p2) by {
      PadStart2Value(NatToString(n1));
      PadStart2Value(NatToString(n2));
    }
    SplitAtNonDigit(p1, r1, p2, r2, ':');
    PaddedInjective(n1, n2);
  }

  lemma ClockInjective(h1: nat, m1: nat, s1: nat, h2: nat, m2: nat, s2: nat)
    requires Clock(h1, m1, s1) == Clock(h2, m2, s2)
    ensures h1 == h2 && m1 == m2 && s1 == s2
  {
    var a1, b1, c1 := PadStart2(NatToString(h1)), PadStart2(NatToString(m1)), PadStart2(NatToString(s1));
    var a2, b2, c2 := PadStart2(NatToString(h2)), PadStart2(NatToString(m2)), PadStart2(NatToString(s2));
    ColonParts(a1, b1, c1);
    ColonParts(a2, b2, c2);
    PaddedThenColon(h1, b1 + [':'] + c1, h2, b2 + [':'] + c2);
    PaddedThenColon(m1, c1, m2, c2);
    PaddedInjective(s1, s2);
  }

  /** The text reads back as hours, minutes and seconds that add up to the
      duration, with minutes and seconds below 60 and two digits wide. */
  lemma FormatDurationDenotes(seconds: nat)
    ensures exists hh: string, mm: string, ss: string ::
      && FormatDuration(seconds) == hh + ":" + mm + ":" + ss
      && AllDigits(hh) && AllDigits(mm) && AllDigits(ss)
      && |hh| >= 2 && |mm| == 2 && |ss| == 2
      && DigitsValue(mm) < 60 && DigitsValue(ss) < 60
      && DigitsValue(hh) * 3600 + DigitsValue(mm) * 60 + DigitsValue(ss) == seconds
  {
    var hrs, mins, secs := seconds / 3600, (seconds % 3600) / 60, seconds % 60;
    DurationSplit(seconds);
    PaddedDenotes(hrs);
    PaddedDenotes(mins);
    PaddedDenotes(secs);
    var hh, mm, ss := PadStart2(NatToString(hrs)), PadStart2(NatToString(mins)), PadStart2(NatToString(secs));
    assert FormatDuration(seconds) == hh + ":" + mm + ":" + ss;
  }

  /** Distinct durations are shown as distinct texts. */
  lemma FormatDurationInjective(a: nat, b: nat)
    requires FormatDuration(a) == FormatDuration(b)
    ensures a == b
  {
    ClockInjective(a / 3600, (a % 3600) / 60, a % 60, b / 3600, (b % 3600) / 60, b % 60);
    DurationSplit(a);
    DurationSplit(b);
  }

  // ---------------------------------------------------------------------
  // The page

  /** Fallback start coordinates when no position is known. */
  const DefaultLat: real := 11.0168
  const DefaultLng: real := 76.9558

  /** `x || fallback` on a number: 0 and absent both fall back. */
  function OrDefault(x: Option<real>, fallback: real): real {
    if x.Some? && x.value != 0.0 then x.value else fallback
  }

  /** The trip handleStartTrip hands to the store. */
  function NewTrip(now: nat, location: Option<Store.LatLng>): (t: Trip)
    ensures t.status == Active && t.startTime == now && t.endTime.None? && t.endLocation.None?
    ensures t.distance == 0.0 && t.duration == 0.0 && t.fatigueScore == 100.0 && t.safetyScore == 100.0
    ensures t.id == "trip-" + NatToString(now) && t.userId == "user-1"
    ensures t.startLocation.timestamp == now
    ensures location.None? ==> t.startLocation.lat == DefaultLat && t.startLocation.lng == DefaultLng
    ensures location.Some? ==>
      && t.startLocation.lat == (if location.value.lat != 0.0 then location.value.lat else DefaultLat)
      && t.startLocation.lng == (if location.value.lng != 0.0 then location.value.lng else DefaultLng)
  {
    var lat := OrDefault(if location.Some? then Some(location.value.lat) else None, DefaultLat);
    var lng := OrDefault(if location.Some? then Some(location.value.lng) else None, DefaultLng);
    Trip("trip-" + NatToString(now), "user-1", Location(lat, lng, None, None, now), None,
         now, None, Active, 0.0, 0.0, 100.0, 100.0)
  }

  class DrivePage {
    const store: Store.DriverStore
    var showSetup: bool
    var destinationInput: string
    var tripDuration: nat
    var activeAlert: Option<Alert>

    constructor (store: Store.DriverStore)
      ensures this.store == store
      ensures showSetup && destinationInput == "" && tripDuration == 0 && activeAlert.None?
    {
      this.store := store;
      showSetup, destinationInput, tripDuration, activeAlert := true, "", 0, None;
    }

    method SetDestinationInput(text: string)
      modifies this
      ensures destinationInput == text
      ensures showSetup == old(showSetup) && tripDuration == old(tripDuration) && activeAlert == old(activeAlert)
    {
      destinationInput := text;
    }

    /** The alert-selection effect, with `find` written out as a scan. */
    method SelectActiveAlert()
      modifies this
      ensures activeAlert == SelectAlert(old(activeAlert), store.alerts)
      ensures showSetup == old(showSetup) && destinationInput == old(destinationInput)
      ensures tripDuration == old(tripDuration)
    {
      var log := store.alerts;
      var i := 0;
      while i < |log| && !IsCandidate(log[i])
        invariant 0 <= i <= |log|
        invariant forall j :: 0 <= j < i ==> !IsCandidate(log[j])
      {
        i := i + 1;
      }
      if i < |log| && activeAlert.None? {
        activeAlert := Some(log[i]);
      }
      assert i == FirstCandidate(log);
    }

    /** handleDismissAlert: acknowledge the alert on screen and take it
        down; with none on screen nothing happens. */
    method DismissAlert()
      modifies this, store
      ensures activeAlert.None?
      ensures old(activeAlert).Some? ==>
        store.State() == old(store.State()).(alerts := Store.Acknowledge(old(store.alerts), old(activeAlert).value.id))
      ensures old(activeAlert).None? ==> store.State() == old(store.State())
      ensures showSetup == old(showSetup) && destinationInput == old(destinationInput)
      ensures tripDuration == old(tripDuration)
    {
      if activeAlert.Some? {
        store.AcknowledgeAlert(activeAlert.value.id);
        activeAlert := None;
      }
    }

    /** One firing of the trip-duration interval, which runs only while
        monitoring. */
    method DurationTick()
      modifies this
      ensures tripDuration == old(tripDuration) + (if store.isMonitoring then 1 else 0)
      ensures showSetup == old(showSetup) && destinationInput == old(destinationInput)
      ensures activeAlert == old(activeAlert)
    {
      if store.isMonitoring {
        tripDuration := tripDuration + 1;
      }
    }

    /** handleStartTrip. An empty destination does nothing. Otherwise the
        destination is set near the default point (`rand1`, `rand2` stand
        for the two Math.random() draws), the trip is started and the
        counter restarts at 0. */
    method StartTrip(now: nat, rand1: real, rand2: real)
      modifies this, store
      ensures old(destinationInput) == "" ==>
        && store.State() == old(store.State())
        && showSetup == old(showSetup) && tripDuration == old(tripDuration)
      ensures old(destinationInput) != "" ==>
        && store.State() == old(store.State()).(
             destination := Some(Store.Destination(DefaultLat + (rand1 - 0.5) * 0.5,
                                                   DefaultLng + (rand2 - 0.5) * 0.5,
                                                   old(destinationInput))),
             currentTrip := Some(NewTrip(now, old(store.currentLocation))),
             tripStatus := Active, isMonitoring := true, isCameraActive := true)
        && !showSetup && tripDuration == 0
      ensures destinationInput == old(destinationInput) && activeAlert == old(activeAlert)
    {
      if destinationInput == "" {
        return;
      }
      store.SetDestination(Some(Store.Destination(DefaultLat + (rand1 - 0.5) * 0.5,
                                                  DefaultLng + (rand2 - 0.5) * 0.5,
                                                  destinationInput)));
      store.StartTrip(NewTrip(now, store.currentLocation));
      showSetup := false;
      tripDuration := 0;
    }

    /** handleEndTrip: the store archives the trip; the page goes back to
        the setup form with the counter at 0. */
    method EndTrip(now: nat)
      modifies this, store
      ensures store.State() == Store.EndTripState(old(store.State()), now)
      ensures showSetup && tripDuration == 0
      ensures destinationInput == old(destinationInput) && activeAlert == old(activeAlert)
    {
      store.EndTrip(now);
      showSetup := true;
      tripDuration := 0;
    }
  }
}
