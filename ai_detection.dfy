// The detection hook (frontend/hooks/use-ai-detection.ts): per frame it
// scores the sample, stores the detection and risk level, and tries the
// typed alerts, each behind its own cooldown. The random sample and
// Date.now() are parameters here.

module AIDetectionHook {
  import opened Types
  import opened RiskPolicy
  import Store

  /** Evaluate, one attempt more. */
  lemma EvaluateSnoc(p: Policy, done: seq<Attempt>, a: Attempt, confidence: real, now: nat)
    ensures Evaluate(p, done + [a], confidence, now) == Fire(Evaluate(p, done, confidence, now), a, confidence, now)
  {
    assert (done + [a])[..|done|] == done;
  }

  lemma PrependAllSnoc(log: seq<Alert>, fired: seq<Alert>, x: Alert)
    ensures Store.PrependAll(log, fired + [x]) == Store.PrependCapped(x, Store.PrependAll(log, fired))
  {
    assert (fired + [x])[..|fired|] == fired;
  }

  lemma ToastsOfSnoc(fired: seq<Alert>, x: Alert)
    ensures ToastsOf(fired + [x]) == ToastsOf(fired) + (match ToastFor(x.kind, x.severity) case Some(t) => [t] case None => [])
  {
    assert (fired + [x])[..|fired|] == fired;
  }

  function ToastList(t: Option<Toast>): seq<Toast> {
    match t
    case Some(x) => [x]
    case None => []
  }

  class AIDetection {
    const store: Store.DriverStore
    /** Last firing instant per alert type (the hook's lastAlertTime ref). */
    var lastAlertTime: map<AlertType, nat>

    constructor (store: Store.DriverStore)
      ensures this.store == store && lastAlertTime == map[]
    {
      this.store := store;
      lastAlertTime := map[];
    }

    /** Raises one alert unless its type fired less than AlertCooldown ago;
        returns the toast shown for it. A suppressed attempt touches neither
        the cooldown table nor the store. */
    method CreateAlert(kind: AlertType, severity: RiskLevel, confidence: real, now: nat)
      returns (toast: Option<Toast>)
      modifies this, store
      ensures Suppressed(old(lastAlertTime), kind, now) ==>
        && lastAlertTime == old(lastAlertTime)
        && store.State() == old(store.State())
        && toast == None
      ensures !Suppressed(old(lastAlertTime), kind, now) ==>
        && lastAlertTime == old(lastAlertTime)[kind := now]
        && store.State() == old(store.State()).(
             alerts := Store.PrependCapped(NewAlert(Attempt(kind, severity), confidence, now), old(store.alerts)))
        && toast == ToastFor(kind, severity)
    {
      var last := LastFired(lastAlertTime, kind);
      if last.Some? && now - last.value < AlertCooldown {
        return None;
      }
      lastAlertTime := lastAlertTime[kind := now];
      var alert := NewAlert(Attempt(kind, severity), confidence, now);
      store.AddAlert(alert);
      toast := ToastFor(kind, severity);
    }

    /** One attempt of ProcessFrame, proved to follow the policy fold. */
    method TryAlert(cond: bool, a: Attempt, confidence: real, now: nat,
                    ghost p0: Policy, ghost log0: seq<Alert>, ghost done: seq<Attempt>, toasts: seq<Toast>)
      returns (toasts': seq<Toast>, ghost done': seq<Attempt>)
      requires lastAlertTime == Evaluate(p0, done, confidence, now).lastAlertTime
      requires store.alerts == Store.PrependAll(log0, Evaluate(p0, done, confidence, now).fired)
      requires p0.fired == [] && toasts == ToastsOf(Evaluate(p0, done, confidence, now).fired)
      modifies this, store
      ensures done' == done + (if cond then [a] else [])
      ensures lastAlertTime == Evaluate(p0, done', confidence, now).lastAlertTime
      ensures store.alerts == Store.PrependAll(log0, Evaluate(p0, done', confidence, now).fired)
      ensures toasts' == ToastsOf(Evaluate(p0, done', confidence, now).fired)
      ensures store.State() == old(store.State()).(alerts := store.alerts)
    {
      toasts', done' := toasts, done;
      if cond {
        var t := CreateAlert(a.kind, a.severity, confidence, now);
        toasts' := toasts + ToastList(t);
        done' := done + [a];
        EvaluateSnoc(p0, done, a, confidence, now);
        var q := Evaluate(p0, done, confidence, now);
        if !Suppressed(q.lastAlertTime, a.kind, now) {
          PrependAllSnoc(log0, q.fired, NewAlert(a, confidence, now));
          ToastsOfSnoc(q.fired, NewAlert(a, confidence, now));
        }
      } else {
        assert done + [] == done;
      }
    }

    /** The five typed attempts of one frame, in the hook's order, each
        through CreateAlert. */
    method RunAttempts(d: Detection, now: nat) returns (toasts: seq<Toast>)
      modifies this, store
      ensures
        var p := Evaluate(Policy(old(lastAlertTime), []), Attempts(d, d.overallRisk), d.confidence, now);
        && lastAlertTime == p.lastAlertTime
        && store.State() == old(store.State()).(alerts := Store.PrependAll(old(store.alerts), p.fired))
        && toasts == ToastsOf(p.fired)
    {
      var level := d.overallRisk;
      ghost var p0 := Policy(lastAlertTime, []);
      ghost var log0 := store.alerts;
      ghost var done: seq<Attempt> := [];
      toasts := [];
      toasts, done := TryAlert(d.drowsinessScore > 80.0, Attempt(Drowsiness, level), d.confidence, now, p0, log0, done, toasts);
      toasts, done := TryAlert(d.distractionScore > 80.0, Attempt(Distraction, level), d.confidence, now, p0, log0, done, toasts);
      toasts, done := TryAlert(d.phoneUsageDetected, Attempt(PhoneUsage, High), d.confidence, now, p0, log0, done, toasts);
      toasts, done := TryAlert(!d.faceDetected, Attempt(NoFace, Moderate), d.confidence, now, p0, log0, done, toasts);
      toasts, done := TryAlert(d.yawning, Attempt(Yawning, Moderate), d.confidence, now, p0, log0, done, toasts);
      assert done == Attempts(d, level);
    }

    /** processFrame: when monitoring is off nothing changes; otherwise the
        classified detection and its level are stored, and the frame's
        attempts run through the cooldown policy, in order. */
    method ProcessFrame(sample: Detection, now: nat) returns (toasts: seq<Toast>)
      requires store.Valid()
      modifies this, store
      ensures store.Valid()
      ensures !old(store.isMonitoring) ==>
        && toasts == []
        && lastAlertTime == old(lastAlertTime)
        && store.State() == old(store.State())
      ensures old(store.isMonitoring) ==>
        var d := Classify(sample);
        var p := Evaluate(Policy(old(lastAlertTime), []), Attempts(d, d.overallRisk), d.confidence, now);
        && lastAlertTime == p.lastAlertTime
        && store.State() == old(store.State()).(
             currentDetection := Some(d), riskLevel := d.overallRisk,
             alerts := Store.PrependAll(old(store.alerts), p.fired))
        && toasts == ToastsOf(p.fired)
        && store.alerts == (Store.Reverse(p.fired) + old(store.alerts))[..Store.Min(|p.fired| + |old(store.alerts)|, Store.MaxAlerts)]
    {
      if !store.isMonitoring {
        return [];
      }
      ghost var log0 := store.alerts;
      var riskScore := RiskScore(sample);
      var overallRisk := Bucket(riskScore);
      var d := sample.(overallRisk := overallRisk);
      store.SetDetection(d);
      store.SetRiskLevel(overallRisk);
      toasts := RunAttempts(d, now);
      ghost var p := Evaluate(Policy(old(lastAlertTime), []), Attempts(d, d.overallRisk), d.confidence, now);
      Store.PrependAllNewestFirst(log0, p.fired);
    }
  }
}
