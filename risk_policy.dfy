// Risk scoring, alert attempts and the per-type cooldown of the detection
// hook (frontend/hooks/use-ai-detection.ts), as pure functions. The hook's
// class (module AIDetectionHook) is proved against these.

module RiskPolicy {
  import opened Types
  import Decimal

  // ---------------------------------------------------------------------
  // Scoring and bucketing

  /** Sum of the six fixed weights whose condition holds. */
  function RiskScore(d: Detection): (score: int)
    ensures 0 <= score <= 140
  {
    (if d.drowsinessScore > 70.0 then 30 else 0)
    + (if d.distractionScore > 70.0 then 25 else 0)
    + (if d.phoneUsageDetected then 40 else 0)
    + (if !d.faceDetected then 20 else 0)
    + (if d.yawning then 10 else 0)
    + (if Abs(d.headPose.yaw) > 20.0 then 15 else 0)
  }

  function Bucket(score: int): RiskLevel {
    if score >= 80 then Critical
    else if score >= 60 then High
    else if score >= 30 then Moderate
    else Safe
  }

  /** The bucket boundaries: 29/30, 59/60 and 79/80. */
  lemma BucketBoundaries(score: int)
    ensures Bucket(score) == Safe <==> score < 30
    ensures Bucket(score) == Moderate <==> 30 <= score < 60
    ensures Bucket(score) == High <==> 60 <= score < 80
    ensures Bucket(score) == Critical <==> 80 <= score
  {
  }

  /** A higher score never gives a lower level. */
  lemma BucketMonotone(a: int, b: int)
    requires a <= b
    ensures Rank(Bucket(a)) <= Rank(Bucket(b))
  {
  }

  /** `worse` shows every risk signal that `d` shows. */
  predicate SignalsAtLeast(d: Detection, worse: Detection) {
    && (d.drowsinessScore > 70.0 ==> worse.drowsinessScore > 70.0)
    && (d.distractionScore > 70.0 ==> worse.distractionScore > 70.0)
    && (d.phoneUsageDetected ==> worse.phoneUsageDetected)
    && (!d.faceDetected ==> !worse.faceDetected)
    && (d.yawning ==> worse.yawning)
    && (Abs(d.headPose.yaw) > 20.0 ==> Abs(worse.headPose.yaw) > 20.0)
  }

  /** Adding risk signals never lowers the score nor the level. */
  lemma MoreSignalsNeverSafer(d: Detection, worse: Detection)
    requires SignalsAtLeast(d, worse)
    ensures RiskScore(d) <= RiskScore(worse)
    ensures Rank(Bucket(RiskScore(d))) <= Rank(Bucket(RiskScore(worse)))
  {
    BucketMonotone(RiskScore(d), RiskScore(worse));
  }

  /** The frame with its overall risk filled in, as the hook stores it. */
  function Classify(sample: Detection): (d: Detection)
    ensures d.overallRisk == Bucket(RiskScore(sample))
    ensures d.(overallRisk := sample.overallRisk) == sample
  {
    sample.(overallRisk := Bucket(RiskScore(sample)))
  }

  // ---------------------------------------------------------------------
  // Alert attempts

  datatype Attempt = Attempt(kind: AlertType, severity: RiskLevel)

  /** Position of a type in the fixed attempt order; the other types are
      never attempted by a frame. */
  function AttemptOrder(t: AlertType): nat {
    match t
    case Drowsiness => 0
    case Distraction => 1
    case PhoneUsage => 2
    case NoFace => 3
    case Yawning => 4
    case _ => 5
  }

  /** When a frame attempts an alert of each type. */
  predicate Triggers(d: Detection, t: AlertType) {
    match t
    case Drowsiness => d.drowsinessScore > 80.0
    case Distraction => d.distractionScore > 80.0
    case PhoneUsage => d.phoneUsageDetected
    case NoFace => !d.faceDetected
    case Yawning => d.yawning
    case _ => false
  }

  /** The severity an attempt of each type carries: fixed for phone use, a
      missing face and yawning, the overall level otherwise. */
  function SeverityFor(t: AlertType, level: RiskLevel): RiskLevel {
    match t
    case PhoneUsage => High
    case NoFace => Moderate
    case Yawning => Moderate
    case _ => level
  }

  function If(c: bool, a: Attempt): seq<Attempt> {
    if c then [a] else []
  }

  /** The alerts one frame attempts, in the order the hook tries them. */
  function Attempts(d: Detection, level: RiskLevel): (r: seq<Attempt>)
    ensures forall i, j :: 0 <= i < j < |r| ==> AttemptOrder(r[i].kind) < AttemptOrder(r[j].kind)
    ensures forall i :: 0 <= i < |r| ==> r[i].severity == SeverityFor(r[i].kind, level)
  {
    If(d.drowsinessScore > 80.0, Attempt(Drowsiness, level))
    + If(d.distractionScore > 80.0, Attempt(Distraction, level))
    + If(d.phoneUsageDetected, Attempt(PhoneUsage, High))
    + If(!d.faceDetected, Attempt(NoFace, Moderate))
    + If(d.yawning, Attempt(Yawning, Moderate))
  }

  /** A frame attempts a type exactly when that type's condition holds, and
      then with that type's severity. */
  lemma AttemptsExactlyTriggered(d: Detection, level: RiskLevel, a: Attempt)
    ensures a in Attempts(d, level) <==> Triggers(d, a.kind) && a.severity == SeverityFor(a.kind, level)
  {
    var p1 := If(d.drowsinessScore > 80.0, Attempt(Drowsiness, level));
    var p2 := If(d.distractionScore > 80.0, Attempt(Distraction, level));
    var p3 := If(d.phoneUsageDetected, Attempt(PhoneUsage, High));
    var p4 := If(!d.faceDetected, Attempt(NoFace, Moderate));
    var p5 := If(d.yawning, Attempt(Yawning, Moderate));
    assert Attempts(d, level) == p1 + p2 + p3 + p4 + p5;
    assert a in Attempts(d, level) <==> a in p1 || a in p2 || a in p3 || a in p4 || a in p5;
    match a.kind {
      case Drowsiness =>
      case Distraction =>
      case PhoneUsage =>
      case NoFace =>
      case Yawning =>
      case _ =>
    }
  }

  /** A frame attempts each type at most once. */
  predicate DistinctKinds(attempts: seq<Attempt>) {
    forall i, j :: 0 <= i < j < |attempts| ==> attempts[i].kind != attempts[j].kind
  }

  lemma AttemptsDistinct(d: Detection, level: RiskLevel)
    ensures DistinctKinds(Attempts(d, level))
  {
    var r := Attempts(d, level);
    forall i, j | 0 <= i < j < |r| ensures r[i].kind != r[j].kind {
      assert AttemptOrder(r[i].kind) < AttemptOrder(r[j].kind);
    }
  }

  /** A drowsiness alert is never `safe`: a drowsiness score above 80 already
      adds 30 points, which is the moderate threshold. */
  lemma DrowsinessAlertNeverSafe(sample: Detection)
    requires sample.drowsinessScore > 80.0
    ensures Attempt(Drowsiness, Classify(sample).overallRisk) in Attempts(Classify(sample), Classify(sample).overallRisk)
    ensures Classify(sample).overallRisk != Safe
  {
    var d := Classify(sample);
    assert Triggers(d, Drowsiness);
  }

  /** A distraction alert can be `safe`: its 25 points alone stay below 30. */
  lemma DistractionAlertCanBeSafe()
    ensures exists sample: Detection ::
      && sample.distractionScore > 80.0
      && Attempt(Distraction, Safe) in Attempts(Classify(sample), Classify(sample).overallRisk)
  {
    var sample := Detection(0.0, 90.0, false, true, true, false, HeadPose(0.0, 0.0, 0.0), Safe, 0.9, 1);
    assert RiskScore(sample) == 25;
    assert Attempts(Classify(sample), Safe) == [Attempt(Distraction, Safe)];
  }

  // ---------------------------------------------------------------------
  // Cooldown

  /** Minimum time between two alerts of one type, in milliseconds. */
  const AlertCooldown: nat := 5000

  /** The last time a type fired. A recorded time of 0 reads as falsy in
      the source, so it counts as "never fired", as does a missing entry. */
  function LastFired(table: map<AlertType, nat>, t: AlertType): (r: Option<nat>)
    ensures r.Some? <==> t in table && table[t] != 0
    ensures r.Some? ==> r.value == table[t]
  {
    if t in table && table[t] != 0 then Some(table[t]) else None
  }

  predicate Suppressed(table: map<AlertType, nat>, t: AlertType, now: nat) {
    match LastFired(table, t)
    case Some(last) => now - last < AlertCooldown
    case None => false
  }

  /** `alert-${now}-${type}` */
  function AlertId(now: nat, t: AlertType): string {
    "alert-" + Decimal.NatToString(now) + "-" + AlertTypeName(t)
  }

  /** Reads an alert type back from its name. */
  function AlertTypeFromName(s: string): Option<AlertType> {
    if s == "drowsiness" then Some(Drowsiness)
    else if s == "distraction" then Some(Distraction)
    else if s == "phone_usage" then Some(PhoneUsage)
    else if s == "no_face" then Some(NoFace)
    else if s == "yawning" then Some(Yawning)
    else if s == "head_drop" then Some(HeadDrop)
    else if s == "seatbelt" then Some(Seatbelt)
    else if s == "accident" then Some(Accident)
    else None
  }

  lemma AlertTypeNameRoundTrip(t: AlertType)
    ensures AlertTypeFromName(AlertTypeName(t)) == Some(t)
  {
  }

  /** What follows the "alert-" prefix of an id. */
  lemma AlertIdSuffix(now: nat, t: AlertType)
    ensures |AlertId(now, t)| >= 6
    ensures AlertId(now, t)[6..] == Decimal.NatToString(now) + "-" + AlertTypeName(t)
  {
    var d := Decimal.NatToString(now);
    var name := AlertTypeName(t);
    assert AlertId(now, t) == "alert-" + (d + "-" + name);
  }

  /** Ids of this form name their instant and type unambiguously. */
  lemma AlertIdInjective(n1: nat, t1: AlertType, n2: nat, t2: AlertType)
    requires AlertId(n1, t1) == AlertId(n2, t2)
    ensures n1 == n2 && t1 == t2
  {
    AlertIdSuffix(n1, t1);
    AlertIdSuffix(n2, t2);
    Decimal.SplitAtNonDigit(Decimal.NatToString(n1), AlertTypeName(t1), Decimal.NatToString(n2), AlertTypeName(t2), '-');
    Decimal.NatToStringInjective(n1, n2);
    AlertTypeNameRoundTrip(t1);
    AlertTypeNameRoundTrip(t2);
  }

  function NewAlert(a: Attempt, confidence: real, now: nat): Alert {
    Alert(AlertId(now, a.kind), a.kind, a.severity, confidence, now, false)
  }

  /** The cooldown table together with the alerts fired so far. */
  datatype Policy = Policy(lastAlertTime: map<AlertType, nat>, fired: seq<Alert>)

  /** One createAlert: a suppressed attempt changes nothing; otherwise the
      type's time is recorded and a fresh alert is emitted. */
  function Fire(p: Policy, a: Attempt, confidence: real, now: nat): Policy {
    if Suppressed(p.lastAlertTime, a.kind, now) then p
    else Policy(p.lastAlertTime[a.kind := now], p.fired + [NewAlert(a, confidence, now)])
  }

  /** A frame's attempts, tried in order. */
  function Evaluate(p: Policy, attempts: seq<Attempt>, confidence: real, now: nat): Policy
    decreases |attempts|
  {
    if attempts == [] then p
    else Fire(Evaluate(p, attempts[..|attempts| - 1], confidence, now), attempts[|attempts| - 1], confidence, now)
  }

  /** The attempts of a frame that are outside their type's cooldown. */
  function Unsuppressed(table: map<AlertType, nat>, attempts: seq<Attempt>, now: nat): seq<Attempt>
    decreases |attempts|
  {
    if attempts == [] then []
    else Unsuppressed(table, attempts[..|attempts| - 1], now)
         + (var a := attempts[|attempts| - 1]; if Suppressed(table, a.kind, now) then [] else [a])
  }

  function FreshAlerts(attempts: seq<Attempt>, confidence: real, now: nat): (r: seq<Alert>)
    ensures |r| == |attempts|
    ensures forall i :: 0 <= i < |r| ==> r[i] == NewAlert(attempts[i], confidence, now)
  {
    seq(|attempts|, i requires 0 <= i < |attempts| => NewAlert(attempts[i], confidence, now))
  }

  /** The cooldown table with `now` recorded for each of the attempts' types. */
  function Record(table: map<AlertType, nat>, attempts: seq<Attempt>, now: nat): map<AlertType, nat>
    decreases |attempts|
  {
    if attempts == [] then table
    else Record(table, attempts[..|attempts| - 1], now)[attempts[|attempts| - 1].kind := now]
  }

  /** Attempts of other types leave a type's cooldown entry alone. */
  lemma {:induction false} EntryUntouched(p: Policy, attempts: seq<Attempt>, confidence: real, now: nat, k: AlertType)
    requires forall i :: 0 <= i < |attempts| ==> attempts[i].kind != k
    ensures var q := Evaluate(p, attempts, confidence, now).lastAlertTime;
            (k in q <==> k in p.lastAlertTime) && (k in q ==> q[k] == p.lastAlertTime[k])
    decreases |attempts|
  {
    if attempts != [] {
      EntryUntouched(p, attempts[..|attempts| - 1], confidence, now, k);
    }
  }

  /** Unsuppressed, one more attempt at a time. */
  lemma UnsuppressedSnoc(table: map<AlertType, nat>, init: seq<Attempt>, a: Attempt, now: nat)
    ensures Unsuppressed(table, init + [a], now)
            == Unsuppressed(table, init, now) + (if Suppressed(table, a.kind, now) then [] else [a])
  {
    assert (init + [a])[..|init + [a]| - 1] == init;
  }

  /** The policy a frame's attempts should lead to. */
  function Expected(p: Policy, attempts: seq<Attempt>, confidence: real, now: nat): Policy {
    var u := Unsuppressed(p.lastAlertTime, attempts, now);
    Policy(Record(p.lastAlertTime, u, now), p.fired + FreshAlerts(u, confidence, now))
  }

  /** One more attempt, of a type the frame has not tried yet. */
  lemma ExpectedStep(p: Policy, init: seq<Attempt>, a: Attempt, confidence: real, now: nat)
    requires Evaluate(p, init, confidence, now) == Expected(p, init, confidence, now)
    requires forall i :: 0 <= i < |init| ==> init[i].kind != a.kind
    ensures Evaluate(p, init + [a], confidence, now) == Expected(p, init + [a], confidence, now)
  {
    var attempts := init + [a];
    assert attempts[..|attempts| - 1] == init;
    var q := Evaluate(p, init, confidence, now);
    var u := Unsuppressed(p.lastAlertTime, init, now);
    EntryUntouched(p, init, confidence, now, a.kind);
    assert Suppressed(q.lastAlertTime, a.kind, now) == Suppressed(p.lastAlertTime, a.kind, now);
    UnsuppressedSnoc(p.lastAlertTime, init, a, now);
    if !Suppressed(p.lastAlertTime, a.kind, now) {
      var u' := u + [a];
      assert u'[..|u'| - 1] == u;
      assert Record(p.lastAlertTime, u', now) == Record(p.lastAlertTime, u, now)[a.kind := now];
      assert FreshAlerts(u', confidence, now) == FreshAlerts(u, confidence, now) + [NewAlert(a, confidence, now)];
      assert p.fired + FreshAlerts(u', confidence, now) == q.fired + [NewAlert(a, confidence, now)];
    } else {
      assert u + [] == u;
    }
  }

  /** When a frame tries each type at most once, it fires exactly its
      attempts that are outside their cooldown, in attempt order, and records
      `now` for exactly those types. */
  lemma {:induction false} EvaluateFiresUnsuppressed(p: Policy, attempts: seq<Attempt>, confidence: real, now: nat)
    requires DistinctKinds(attempts)
    ensures Evaluate(p, attempts, confidence, now) == Expected(p, attempts, confidence, now)
    decreases |attempts|
  {
    if attempts == [] {
      assert FreshAlerts([], confidence, now) == [];
      assert p.fired + [] == p.fired;
    } else {
      var init := attempts[..|attempts| - 1];
      var a := attempts[|attempts| - 1];
      assert attempts == init + [a];
      assert DistinctKinds(init) by {
        forall i, j | 0 <= i < j < |init| ensures init[i].kind != init[j].kind {
          assert init[i] == attempts[i] && init[j] == attempts[j];
        }
      }
      forall i | 0 <= i < |init| ensures init[i].kind != a.kind {
        assert init[i] == attempts[i];
      }
      EvaluateFiresUnsuppressed(p, init, confidence, now);
      ExpectedStep(p, init, a, confidence, now);
    }
  }

  // ---------------------------------------------------------------------
  // The cooldown over a whole drive

  /** Two alerts of one type are at least AlertCooldown apart (the log of
      fired alerts is in firing order). */
  predicate CooldownRespected(fired: seq<Alert>) {
    forall i, j :: 0 <= i < j < |fired| && fired[i].kind == fired[j].kind ==>
      fired[j].timestamp - fired[i].timestamp >= AlertCooldown
  }

  predicate IdsDistinct(fired: seq<Alert>) {
    forall i, j :: 0 <= i < j < |fired| ==> fired[i].id != fired[j].id
  }

  predicate WellFormedIds(fired: seq<Alert>) {
    forall i :: 0 <= i < |fired| ==> fired[i].id == AlertId(fired[i].timestamp, fired[i].kind)
  }

  /** Spaced alerts with ids `alert-${now}-${type}` never share an id. */
  lemma SpacedAlertsHaveDistinctIds(fired: seq<Alert>)
    requires CooldownRespected(fired) && WellFormedIds(fired)
    ensures IdsDistinct(fired)
  {
    forall i, j | 0 <= i < j < |fired| ensures fired[i].id != fired[j].id {
      if fired[i].id == fired[j].id {
        AlertIdInjective(fired[i].timestamp, fired[i].kind, fired[j].timestamp, fired[j].kind);
      }
    }
  }

  /** One processed frame: its instant, its attempts and its confidence. */
  datatype Frame = Frame(now: nat, attempts: seq<Attempt>, confidence: real)

  predicate Chronological(frames: seq<Frame>) {
    && (forall i :: 0 <= i < |frames| ==> frames[i].now > 0)
    && (forall i, j :: 0 <= i < j < |frames| ==> frames[i].now <= frames[j].now)
  }

  /** The policy after a sequence of frames. */
  function Replay(p: Policy, frames: seq<Frame>): Policy
    decreases |frames|
  {
    if frames == [] then p
    else
      var last := frames[|frames| - 1];
      Evaluate(Replay(p, frames[..|frames| - 1]), last.attempts, last.confidence, last.now)
  }

  /** What holds of the policy once everything up to instant `t` is done. */
  predicate Consistent(p: Policy, t: nat) {
    && (forall k :: k in p.lastAlertTime ==> 0 < p.lastAlertTime[k] <= t)
    && (forall i :: 0 <= i < |p.fired| ==>
          p.fired[i].kind in p.lastAlertTime && p.fired[i].timestamp <= p.lastAlertTime[p.fired[i].kind])
    && CooldownRespected(p.fired)
    && WellFormedIds(p.fired)
  }

  lemma FireConsistent(p: Policy, a: Attempt, confidence: real, t: nat, now: nat)
    requires Consistent(p, t) && 0 < now && t <= now
    ensures Consistent(Fire(p, a, confidence, now), now)
  {
    if !Suppressed(p.lastAlertTime, a.kind, now) {
      var q := Fire(p, a, confidence, now);
      var n := |p.fired|;
      forall i, j | 0 <= i < j < |q.fired| && q.fired[i].kind == q.fired[j].kind
        ensures q.fired[j].timestamp - q.fired[i].timestamp >= AlertCooldown
      {
        if j == n {
          assert q.fired[i] == p.fired[i];
          assert a.kind in p.lastAlertTime;
        }
      }
    }
  }

  lemma {:induction false} EvaluateConsistent(p: Policy, attempts: seq<Attempt>, confidence: real, t: nat, now: nat)
    requires Consistent(p, t) && 0 < now && t <= now
    ensures Consistent(Evaluate(p, attempts, confidence, now), now)
    decreases |attempts|
  {
    if attempts != [] {
      var init := attempts[..|attempts| - 1];
      EvaluateConsistent(p, init, confidence, t, now);
      FireConsistent(Evaluate(p, init, confidence, now), attempts[|attempts| - 1], confidence, now, now);
    }
  }

  /** Over any drive whose frames come in time order (with non-zero
      timestamps), starting from an empty cooldown table, two alerts of the
      same type are at least 5000 ms apart, and so no two alerts share an id. */
  lemma {:induction false} ReplayRespectsCooldown(frames: seq<Frame>)
    requires Chronological(frames)
    ensures CooldownRespected(Replay(Policy(map[], []), frames).fired)
    ensures IdsDistinct(Replay(Policy(map[], []), frames).fired)
  {
    ReplayConsistent(frames);
    var p := Replay(Policy(map[], []), frames);
    SpacedAlertsHaveDistinctIds(p.fired);
  }

  lemma {:induction false} ReplayConsistent(frames: seq<Frame>)
    requires Chronological(frames)
    ensures Consistent(Replay(Policy(map[], []), frames), if frames == [] then 0 else frames[|frames| - 1].now)
    decreases |frames|
  {
    if frames != [] {
      var init := frames[..|frames| - 1];
      var last := frames[|frames| - 1];
      assert Chronological(init);
      ReplayConsistent(init);
      var t := if init == [] then 0 else init[|init| - 1].now;
      EvaluateConsistent(Replay(Policy(map[], []), init), last.attempts, last.confidence, t, last.now);
    }
  }

  /** Why the timestamps must be non-zero: a type that fired at instant 0
      is not in cooldown, so two frames at instant 0 raise two alerts with
      the same id. */
  lemma ZeroInstantEscapesCooldown()
    ensures var frames := [Frame(0, [Attempt(Yawning, Moderate)], 0.9), Frame(0, [Attempt(Yawning, Moderate)], 0.9)];
            var fired := Replay(Policy(map[], []), frames).fired;
            |fired| == 2 && fired[0].id == fired[1].id
  {
    var frames := [Frame(0, [Attempt(Yawning, Moderate)], 0.9), Frame(0, [Attempt(Yawning, Moderate)], 0.9)];
    assert frames[..1] == [frames[0]];
    assert frames[..0] == [];
  }

  // ---------------------------------------------------------------------
  // Notifications

  datatype ToastStyle = WarningToast | ErrorToast

  datatype Toast = Toast(kind: AlertType, style: ToastStyle, durationMs: nat)

  /** The toast raised for a created alert: none for `safe`, a 3000 ms
      warning for `moderate`, a 5000 ms error for `high` and `critical`. */
  function ToastFor(kind: AlertType, severity: RiskLevel): (r: Option<Toast>)
    ensures r.None? <==> severity == Safe
    ensures r.Some? ==> r.value.kind == kind
    ensures r.Some? ==> (r.value.style == ErrorToast <==> IsUrgent(severity))
    ensures r.Some? ==> r.value.durationMs == if IsUrgent(severity) then 5000 else 3000
  {
    match severity
    case Safe => None
    case Moderate => Some(Toast(kind, WarningToast, 3000))
    case High => Some(Toast(kind, ErrorToast, 5000))
    case Critical => Some(Toast(kind, ErrorToast, 5000))
  }

  /** A more severe alert never gets a shorter toast. */
  lemma ToastDurationMonotone(k: AlertType, a: RiskLevel, b: RiskLevel)
    requires Rank(a) <= Rank(b) && a != Safe
    ensures ToastFor(k, a).value.durationMs <= ToastFor(k, b).value.durationMs
  {
  }

  /** The toasts of a sequence of created alerts, in order. */
  function ToastsOf(fired: seq<Alert>): (r: seq<Toast>)
    ensures |r| <= |fired|
    ensures forall x :: x in r <==> exists a :: a in fired && ToastFor(a.kind, a.severity) == Some(x)
    decreases |fired|
  {
    if fired == [] then []
    else
      var a := fired[|fired| - 1];
      ToastsOf(fired[..|fired| - 1]) + (match ToastFor(a.kind, a.severity) case Some(x) => [x] case None => [])
  }
}
