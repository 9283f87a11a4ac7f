// The SOS popup (frontend/components/safety/sos-popup.tsx): a ten-second
// countdown that dispatches the emergency alert on its own, a "Send Now"
// button, and cancel/close buttons that clear the store's SOS flag.
//
// Timers, the alarm sound and the two-second simulated dispatch are made
// explicit: Tick is one firing of the one-second interval, Complete is the
// resolution of one pending dispatch, and Refresh is a run of the effect
// keyed on the store's sosActive flag (its cleanup first, then its body).

module SosPopup {
  import opened Types
  import Store

  const CountdownStart: int := 10

  /** The alarm audio handle: absent, playing, or paused. */
  datatype Alarm = AlarmOff | AlarmPlaying | AlarmPaused

  /** The component's state. `pending` counts dispatches started and not yet
      completed; `seenActive` is the sosActive value the effect last ran for. */
  datatype SosView = SosView(
    countdown: int,
    sending: bool,
    sent: bool,
    timerRunning: bool,
    alarm: Alarm,
    pending: nat,
    seenActive: bool)

  const Initial := SosView(CountdownStart, false, false, false, AlarmOff, 0, false)

  function Pause(a: Alarm): Alarm {
    if a == AlarmOff then AlarmOff else AlarmPaused
  }

  /** The effect on a change of sosActive: the previous run's cleanup stops
      the interval and drops the alarm; then an inactive flag resets the
      countdown and both flags, and an active one starts the alarm and the
      interval. An unchanged flag does not re-run the effect. */
  function Sync(v: SosView, active: bool): SosView {
    if active == v.seenActive then v
    else
      var c := if v.seenActive then v.(timerRunning := false, alarm := AlarmOff) else v;
      if !active then c.(countdown := CountdownStart, sending := false, sent := false, seenActive := false)
      else c.(alarm := AlarmPlaying, timerRunning := true, seenActive := true)
  }

  /** sendEmergencyAlert up to its await. */
  function Send(v: SosView): SosView {
    v.(sending := true, pending := v.pending + 1)
  }

  /** One interval firing: n > 1 counts down; otherwise the countdown
      becomes 0, the interval is cleared and a dispatch starts. */
  function TickStep(v: SosView): SosView {
    if !v.timerRunning then v
    else if v.countdown <= 1 then Send(v.(countdown := 0, timerRunning := false))
    else v.(countdown := v.countdown - 1)
  }

  /** The buttons on screen; nothing is on screen while sosActive is false. */
  predicate CancelOffered(v: SosView, active: bool) {
    active && !v.sent
  }

  predicate CloseOffered(v: SosView, active: bool) {
    active && v.sent
  }

  predicate SendNowEnabled(v: SosView, active: bool) {
    active && !v.sent && !v.sending
  }

  /** A click on "Send Now"; the button is disabled while sending. The
      countdown interval is left running. */
  function SendNowStep(v: SosView, active: bool): SosView {
    if SendNowEnabled(v, active) then Send(v) else v
  }

  /** One pending dispatch resolves: it always succeeds, and pauses the
      alarm if there is one. */
  function CompleteStep(v: SosView): SosView {
    if v.pending == 0 then v
    else v.(pending := v.pending - 1, sending := false, sent := true, alarm := Pause(v.alarm))
  }

  /** handleCancel, bound to both "I'm Safe - Cancel" and "Close": pause the
      alarm, clear the store's flag (which was set, since the popup is on
      screen), and the effect re-runs for the cleared flag. */
  function CancelStep(v: SosView, active: bool): SosView {
    if !(CancelOffered(v, active) || CloseOffered(v, active)) then v
    else Sync(v.(alarm := Pause(v.alarm)), false)
  }

  /** The progress bar value. */
  function Progress(v: SosView): int {
    (CountdownStart - v.countdown) * 10
  }

  /** What every reachable state satisfies. */
  ghost predicate Inv(v: SosView) {
    && 0 <= v.countdown <= CountdownStart
    && (v.timerRunning ==> v.seenActive && v.countdown >= 1)
    && (!v.seenActive ==> v.countdown == CountdownStart && !v.timerRunning && v.alarm == AlarmOff)
  }

  /** Every step keeps the invariant, so the countdown is never negative and
      never above its start. */
  lemma InvPreserved(v: SosView, active: bool)
    requires Inv(v)
    ensures Inv(Sync(v, active)) && Inv(TickStep(v)) && Inv(SendNowStep(v, active))
    ensures Inv(CompleteStep(v)) && Inv(CancelStep(v, active))
  {
  }

  lemma InitialInv()
    ensures Inv(Initial) && Inv(Sync(Initial, true)) && Inv(Sync(Initial, false))
  {
  }

  /** The progress bar stays within 0..100. */
  lemma ProgressBounds(v: SosView)
    requires Inv(v)
    ensures 0 <= Progress(v) <= 100
  {
  }

  /** When the flag goes from set to clear, the local state returns to a
      full countdown with nothing sending and nothing sent, and the interval
      and the alarm are gone. */
  lemma ClearingResets(v: SosView)
    requires v.seenActive
    ensures var w := Sync(v, false);
      w.countdown == CountdownStart && !w.sending && !w.sent && !w.timerRunning && w.alarm == AlarmOff
  {
  }

  /** k interval firings. */
  function Ticks(v: SosView, k: nat): SosView
    decreases k
  {
    if k == 0 then v else TickStep(Ticks(v, k - 1))
  }

  /** While the countdown has not reached 1, ticks only count down. */
  lemma {:induction false} TicksCountDown(v: SosView, k: nat)
    requires v.timerRunning && k < v.countdown
    ensures Ticks(v, k) == v.(countdown := v.countdown - k)
    decreases k
  {
    if k > 0 {
      TicksCountDown(v, k - 1);
    }
  }

  /** From a freshly started countdown, the first nine ticks dispatch
      nothing and the tenth dispatches once and stops the interval. */
  lemma AutoSendOnTenthTick(v: SosView)
    requires v.timerRunning && v.countdown == CountdownStart
    ensures Ticks(v, 9) == v.(countdown := 1)
    ensures Ticks(v, 10) == v.(countdown := 0, timerRunning := false, sending := true, pending := v.pending + 1)
  {
    TicksCountDown(v, 9);
  }

  /** "Send Now" with time left on the countdown leaves the interval
      running, so the countdown still reaches its end and starts a second
      dispatch of the same alert. */
  lemma SendNowThenTimerSendsAgain(v: SosView)
    requires Inv(v) && SendNowEnabled(v, true) && v.timerRunning
    ensures SendNowStep(v, true).timerRunning
    ensures Ticks(SendNowStep(v, true), v.countdown).pending == v.pending + 2
  {
    var w := SendNowStep(v, true);
    TicksCountDown(w, v.countdown - 1);
  }

  /** Cancelling is offered while a dispatch is in flight; the dispatch is
      not withdrawn, and once it resolves the popup holds sent == true with
      the flag clear. The next SOS therefore opens already showing "sent"
      and offering only Close, although nothing was dispatched for it. */
  lemma CancelWhileSendingLeavesStaleSent(v: SosView)
    requires Inv(v) && v.seenActive && v.sending && !v.sent && v.pending == 1
    ensures CancelOffered(v, true)
    ensures var w := CompleteStep(CancelStep(v, true));
      !w.seenActive && w.sent && w.pending == 0
    ensures var next := Sync(CompleteStep(CancelStep(v, true)), true);
      CloseOffered(next, true) && !CancelOffered(next, true) && next.pending == 0
  {
  }

  /** A dispatch always completes as sent; after it only Close is offered. */
  lemma CompleteShowsSent(v: SosView, active: bool)
    requires v.pending > 0
    ensures CompleteStep(v).sent && !CompleteStep(v).sending && CompleteStep(v).alarm != AlarmPlaying
    ensures active ==> CloseOffered(CompleteStep(v), active) && !CancelOffered(CompleteStep(v), active)
  {
  }

  class SosPopup {
    const store: Store.DriverStore
    var countdown: int
    var sending: bool
    var sent: bool
    var timerRunning: bool
    var alarm: Alarm
    var pending: nat
    var seenActive: bool

    function View(): SosView
      reads this
    {
      SosView(countdown, sending, sent, timerRunning, alarm, pending, seenActive)
    }

    ghost predicate Valid()
      reads this
    {
      Inv(View())
    }

    /** Mounting: the initial state, then the effect's first run. */
    constructor (store: Store.DriverStore)
      ensures this.store == store
      ensures View() == Sync(Initial, store.sosActive) && Valid()
    {
      this.store := store;
      countdown, sending, sent := CountdownStart, false, false;
      timerRunning, alarm, pending, seenActive := false, AlarmOff, 0, false;
      new;
      Refresh();
    }

    /** The effect keyed on the store's sosActive. */
    method Refresh()
      requires Valid()
      modifies this
      ensures View() == Sync(old(View()), store.sosActive) && Valid()
    {
      if store.sosActive == seenActive {
        return;
      }
      if seenActive {
        timerRunning, alarm := false, AlarmOff;
      }
      if !store.sosActive {
        countdown, sending, sent, seenActive := CountdownStart, false, false, false;
      } else {
        alarm, timerRunning, seenActive := AlarmPlaying, true, true;
      }
    }

    method SendEmergencyAlert()
      modifies this
      ensures View() == Send(old(View()))
    {
      sending := true;
      pending := pending + 1;
    }

    method Tick()
      requires Valid()
      modifies this
      ensures View() == TickStep(old(View())) && Valid()
    {
      if !timerRunning {
        return;
      }
      if countdown <= 1 {
        timerRunning := false;
        countdown := 0;
        SendEmergencyAlert();
      } else {
        countdown := countdown - 1;
      }
    }

    method SendNow()
      requires Valid()
      modifies this
      ensures View() == SendNowStep(old(View()), store.sosActive) && Valid()
    {
      if store.sosActive && !sent && !sending {
        SendEmergencyAlert();
      }
    }

    method Complete()
      requires Valid()
      modifies this
      ensures View() == CompleteStep(old(View())) && Valid()
    {
      if pending == 0 {
        return;
      }
      pending := pending - 1;
      sending, sent := false, true;
      alarm := Pause(alarm);
    }

    /** handleCancel, followed by the effect run that the cleared flag
        triggers. The store's trip goes back to active. */
    method Cancel()
      requires Valid()
      modifies this, store
      ensures View() == CancelStep(old(View()), old(store.sosActive)) && Valid()
      ensures old(store.sosActive) ==>
        store.State() == old(store.State()).(sosActive := false, tripStatus := Active)
      ensures !old(store.sosActive) ==> store.State() == old(store.State())
    {
      if !store.sosActive {
        return;
      }
      alarm := Pause(alarm);
      store.CancelSOS();
      Refresh();
    }
  }
}
