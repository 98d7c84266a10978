/** The redraw debounce of `ChartElement.update`: the `#pendingUpdate` flag, the callbacks
    handed to `setTimeout`, and the redraws they perform. Time itself is not modelled: a
    scheduled callback runs when the environment fires it. */
module Debounce {

  /** `pending` is `#pendingUpdate`; `scheduled` counts callbacks handed to `setTimeout`
      that have not run yet; `redraws` counts calls of `chart.update('none')`. */
  datatype Timer = Timer(pending: bool, scheduled: nat, redraws: nat)

  const Idle := Timer(false, 0, 0)

  /** At most one callback is outstanding, and only while the flag is up. */
  predicate AtMostOneScheduled(t: Timer) {
    t.scheduled <= 1 && (t.scheduled == 1 ==> t.pending)
  }

  /** The flag is up exactly while a callback is outstanding. */
  predicate Coherent(t: Timer) {
    t.scheduled == if t.pending then 1 else 0
  }

  /** `update()`: a no-op while a redraw is pending; otherwise raise the flag and
      schedule one callback. */
  function Request(t: Timer): (r: Timer)
    ensures t.pending ==> r == t
    ensures !t.pending ==> r.pending && r.scheduled == t.scheduled + 1 && r.redraws == t.redraws
  {
    if t.pending then t else t.(pending := true, scheduled := t.scheduled + 1)
  }

  /** The scheduled callback: `this.chart.update('none')` then clear the flag. When the
      element has no chart yet, the first statement throws a TypeError and the flag is
      never cleared. */
  function Fire(t: Timer, chartExists: bool): (r: Timer)
    requires t.scheduled > 0
    ensures r.scheduled == t.scheduled - 1
    ensures chartExists ==> !r.pending && r.redraws == t.redraws + 1
    ensures !chartExists ==> r.pending == t.pending && r.redraws == t.redraws
  {
    if chartExists then t.(pending := false, scheduled := t.scheduled - 1, redraws := t.redraws + 1)
    else t.(scheduled := t.scheduled - 1)
  }

  datatype Event = UpdateCall | TimerFires

  /** A timer event with no outstanding callback has nothing to run. */
  function Step(t: Timer, e: Event, chartExists: bool): Timer {
    match e
    case UpdateCall => Request(t)
    case TimerFires => if t.scheduled > 0 then Fire(t, chartExists) else t
  }

  function Run(t: Timer, events: seq<Event>, chartExists: bool): Timer
    decreases |events|
  {
    if |events| == 0 then t else Run(Step(t, events[0], chartExists), events[1..], chartExists)
  }

  function Count(events: seq<Event>, e: Event): nat {
    if |events| == 0 then 0 else (if events[0] == e then 1 else 0) + Count(events[1..], e)
  }

  function Updates(n: nat): (events: seq<Event>)
    ensures |events| == n && forall i :: 0 <= i < n ==> events[i] == UpdateCall
  {
    if n == 0 then [] else [UpdateCall] + Updates(n - 1)
  }

  /** Whatever happens, at most one callback is ever outstanding. */
  lemma {:induction false} RunKeepsAtMostOne(t: Timer, events: seq<Event>, chartExists: bool)
    requires AtMostOneScheduled(t)
    ensures AtMostOneScheduled(Run(t, events, chartExists))
    decreases |events|
  {
    if |events| > 0 {
      RunKeepsAtMostOne(Step(t, events[0], chartExists), events[1..], chartExists);
    }
  }

  /** With a chart in place, the flag and the outstanding callback stay in step. */
  lemma {:induction false} RunKeepsCoherent(t: Timer, events: seq<Event>)
    requires Coherent(t)
    ensures Coherent(Run(t, events, true))
    decreases |events|
  {
    if |events| > 0 {
      RunKeepsCoherent(Step(t, events[0], true), events[1..]);
    }
  }

  /** Any burst of `update()` calls from an idle element schedules exactly one callback,
      and firing it performs exactly one redraw and returns to idle. */
  lemma {:induction false} BurstCollapses(t: Timer, n: nat, chartExists: bool)
    requires Coherent(t) && !t.pending && n >= 1
    ensures Run(t, Updates(n), chartExists) == t.(pending := true, scheduled := 1)
    ensures chartExists ==> Run(t, Updates(n) + [TimerFires], true) == t.(redraws := t.redraws + 1)
  {
    var s := Request(t);
    assert Updates(n)[1..] == Updates(n - 1);
    PendingAbsorbs(s, n - 1, chartExists);
    RunAppend(t, Updates(n), [TimerFires], chartExists);
  }

  /** While the flag is up, further `update()` calls change nothing. */
  lemma {:induction false} PendingAbsorbs(t: Timer, n: nat, chartExists: bool)
    requires t.pending
    ensures Run(t, Updates(n), chartExists) == t
    decreases n
  {
    if n > 0 {
      assert Updates(n)[1..] == Updates(n - 1);
      PendingAbsorbs(t, n - 1, chartExists);
    }
  }

  lemma {:induction false} RunAppend(t: Timer, a: seq<Event>, b: seq<Event>, chartExists: bool)
    ensures Run(t, a + b, chartExists) == Run(Run(t, a, chartExists), b, chartExists)
    decreases |a|
  {
    if |a| == 0 {
      assert a + b == b;
    } else {
      assert (a + b)[1..] == a[1..] + b;
      RunAppend(Step(t, a[0], chartExists), a[1..], b, chartExists);
    }
  }

  /** Once some `update()` call has happened, a redraw has happened or is still scheduled. */
  lemma {:induction false} UpdateLeadsToRedraw(t: Timer, events: seq<Event>)
    requires Coherent(t)
    requires UpdateCall in events
    ensures Run(t, events, true).redraws > t.redraws || Run(t, events, true).scheduled == 1
    decreases |events|
  {
    var s := Step(t, events[0], true);
    if events[0] == UpdateCall {
      ScheduledLeadsToRedraw(s, events[1..]);
    } else {
      assert UpdateCall in events[1..];
      UpdateLeadsToRedraw(s, events[1..]);
    }
  }

  lemma {:induction false} ScheduledLeadsToRedraw(t: Timer, events: seq<Event>)
    requires Coherent(t) && t.scheduled == 1
    ensures Run(t, events, true).redraws > t.redraws || Run(t, events, true).scheduled == 1
    decreases |events|
  {
    if |events| > 0 {
      var s := Step(t, events[0], true);
      if events[0] == UpdateCall {
        ScheduledLeadsToRedraw(s, events[1..]);
      } else {
        RunRedrawsGrow(s, events[1..], true);
      }
    }
  }

  lemma {:induction false} RunRedrawsGrow(t: Timer, events: seq<Event>, chartExists: bool)
    ensures Run(t, events, chartExists).redraws >= t.redraws
    decreases |events|
  {
    if |events| > 0 {
      RunRedrawsGrow(Step(t, events[0], chartExists), events[1..], chartExists);
    }
  }

  /** Redraws never outnumber the callbacks already scheduled plus the `update()` calls. */
  lemma {:induction false} RedrawsBounded(t: Timer, events: seq<Event>, chartExists: bool)
    ensures Run(t, events, chartExists).redraws + Run(t, events, chartExists).scheduled
            <= t.redraws + t.scheduled + Count(events, UpdateCall)
    decreases |events|
  {
    if |events| > 0 {
      RedrawsBounded(Step(t, events[0], chartExists), events[1..], chartExists);
    }
  }

  /** A flag left up with nothing scheduled (the callback threw because the element had
      no chart) stops the debounce for good: no later event calls `chart.update` again. */
  lemma {:induction false} StuckFlagNeverRedraws(t: Timer, events: seq<Event>, chartExists: bool)
    requires t.pending && t.scheduled == 0
    ensures Run(t, events, chartExists) == t
    decreases |events|
  {
    if |events| > 0 {
      StuckFlagNeverRedraws(t, events[1..], chartExists);
    }
  }
}
