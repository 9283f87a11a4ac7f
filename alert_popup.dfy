// The alert popup (frontend/components/safety/alert-popup.tsx): a banner
// for one alert with a ten-second auto-dismiss countdown, a sound for high
// and critical alerts, a mute toggle and a close button.
//
// The effect keyed on the alert and on the mute flag is made explicit: its
// cleanup clears the interval and drops the sound, its body creates the
// sound and starts the interval. A call of onDismiss is reported as the
// `dismiss` result of the step that makes it.

module AlertPopup {
  import opened Types

  const CountdownStart: int := 10

  /** The audio handle: whether it loops and whether it is playing. */
  datatype Sound = Sound(looping: bool, playing: bool)

  datatype AlertView = AlertView(
    countdown: int,
    soundMuted: bool,
    sound: Option<Sound>,
    timerRunning: bool)

  /** The sound the effect body creates for an alert. */
  function SoundFor(severity: RiskLevel, muted: bool): (r: Option<Sound>)
    ensures r.Some? <==> IsUrgent(severity)
    ensures r.Some? ==> (r.value.looping <==> severity == Critical)
    ensures r.Some? ==> (r.value.playing <==> !muted)
  {
    if severity == High || severity == Critical then Some(Sound(severity == Critical, !muted))
    else None
  }

  /** Cleanup of the previous run, then the body. The countdown is kept. */
  function Effect(v: AlertView, severity: RiskLevel): AlertView {
    v.(sound := SoundFor(severity, v.soundMuted), timerRunning := true)
  }

  /** The component as mounted: the first effect run over a fresh state. */
  function Mounted(severity: RiskLevel): AlertView {
    Effect(AlertView(CountdownStart, false, None, false), severity)
  }

  /** One interval firing. At n <= 1 the countdown becomes 0 and onDismiss
      is called; the interval is not cleared here. */
  function TickStep(v: AlertView): (AlertView, bool) {
    if !v.timerRunning then (v, false)
    else if v.countdown <= 1 then (v.(countdown := 0), true)
    else (v.(countdown := v.countdown - 1), false)
  }

  /** toggleSound: flip the flag and play or pause the current sound; the
      flag's change then re-runs the effect. */
  function ToggleStep(v: AlertView, severity: RiskLevel): AlertView {
    var handled := v.(soundMuted := !v.soundMuted,
                      sound := if v.sound.Some? then Some(v.sound.value.(playing := v.soundMuted)) else None);
    Effect(handled, severity)
  }

  /** Unmounting: the interval is cleared and the sound paused and dropped. */
  function Cleanup(v: AlertView): AlertView {
    v.(timerRunning := false, sound := None)
  }

  ghost predicate Inv(v: AlertView) {
    0 <= v.countdown <= CountdownStart
  }

  /** The countdown never goes negative nor above its start. */
  lemma InvPreserved(v: AlertView, severity: RiskLevel)
    requires Inv(v)
    ensures Inv(Mounted(severity)) && Inv(TickStep(v).0) && Inv(ToggleStep(v, severity)) && Inv(Cleanup(v))
  {
  }

  function Ticks(v: AlertView, k: nat): AlertView
    decreases k
  {
    if k == 0 then v else TickStep(Ticks(v, k - 1)).0
  }

  lemma {:induction false} TicksCountDown(v: AlertView, k: nat)
    requires v.timerRunning && k < v.countdown
    ensures Ticks(v, k) == v.(countdown := v.countdown - k)
    decreases k
  {
    if k > 0 {
      TicksCountDown(v, k - 1);
    }
  }

  /** From mounting, onDismiss is first called on the tenth tick. */
  lemma DismissOnTenthTick(severity: RiskLevel)
    ensures forall k :: 0 <= k < 9 ==> !TickStep(Ticks(Mounted(severity), k)).1
    ensures TickStep(Ticks(Mounted(severity), 9)).1
    ensures Ticks(Mounted(severity), 10).countdown == 0
  {
    var m := Mounted(severity);
    forall k | 0 <= k < 9 ensures !TickStep(Ticks(m, k)).1 {
      TicksCountDown(m, k);
    }
    TicksCountDown(m, 9);
  }

  /** The interval keeps running at 0, so every later tick calls onDismiss
      again until the popup is unmounted. */
  lemma TickAtZeroDismissesAgain(v: AlertView)
    requires v.timerRunning && v.countdown == 0
    ensures TickStep(v) == (v, true)
  {
  }

  /** Toggling twice restores the flag and the sound. */
  lemma ToggleTwice(v: AlertView, severity: RiskLevel)
    requires v.sound == SoundFor(severity, v.soundMuted)
    ensures ToggleStep(ToggleStep(v, severity), severity) == v.(timerRunning := true)
  {
  }

  class AlertPopup {
    const severity: RiskLevel
    var countdown: int
    var soundMuted: bool
    var sound: Option<Sound>
    var timerRunning: bool

    function View(): AlertView
      reads this
    {
      AlertView(countdown, soundMuted, sound, timerRunning)
    }

    constructor (alert: Alert)
      ensures severity == alert.severity
      ensures View() == Mounted(alert.severity)
    {
      severity := alert.severity;
      countdown, soundMuted, sound, timerRunning := CountdownStart, false, None, false;
      new;
      RunEffect();
    }

    method RunEffect()
      modifies this
      ensures View() == Effect(old(View()), severity)
    {
      timerRunning, sound := false, None;
      if severity == High || severity == Critical {
        sound := Some(Sound(severity == Critical, false));
        if !soundMuted {
          sound := Some(sound.value.(playing := true));
        }
      }
      timerRunning := true;
    }

    method Tick() returns (dismiss: bool)
      modifies this
      ensures (View(), dismiss) == TickStep(old(View()))
    {
      dismiss := false;
      if !timerRunning {
        return;
      }
      if countdown <= 1 {
        dismiss := true;
        countdown := 0;
      } else {
        countdown := countdown - 1;
      }
    }

    method ToggleSound()
      modifies this
      ensures View() == ToggleStep(old(View()), severity)
      ensures soundMuted == !old(soundMuted) && countdown == old(countdown)
      ensures sound == SoundFor(severity, soundMuted)
    {
      var wasMuted := soundMuted;
      soundMuted := !soundMuted;
      if sound.Some? {
        sound := Some(sound.value.(playing := wasMuted));
      }
      RunEffect();
    }

    /** The close button: onDismiss right away, whatever the countdown. */
    method Close() returns (dismiss: bool)
      ensures dismiss
    {
      dismiss := true;
    }

    method Unmount()
      modifies this
      ensures View() == Cleanup(old(View()))
      ensures !timerRunning && sound.None?
    {
      timerRunning := false;
      if sound.Some? {
        sound := Some(sound.value.(playing := false));
      }
      sound := None;
    }
  }
}
