/** Hysteresis-based thermal protection (src/monitoring/thermal_monitor.py).
    The sensor reading and the wall-clock time are parameters; the sampling
    thread itself is reduced to whether a monitor handle is present. */
module Thermal {
  import opened Wrappers

  /** The sensor's "no information" reading. */
  const Unavailable: real := -1.0

  /** The protection flag after one reading: Normal -> Protected when the
      reading reaches the trigger; Protected -> Normal when it falls below
      the resume threshold; otherwise the flag stays. */
  function NextProtection(active: bool, temp: real, trigger: real, resume: real): bool
  {
    if !active then temp >= trigger else !(temp < resume)
  }

  /** Readings inside the hysteresis gap never change the flag. */
  lemma GapReadingKeepsState(active: bool, temp: real, trigger: real, resume: real)
    requires resume <= temp < trigger
    ensures NextProtection(active, temp, trigger, resume) == active
  {
  }

  /** What one monitoring check does to the flag: an unavailable reading is no information. */
  function Observe(active: bool, temp: real, trigger: real, resume: real): bool
  {
    if temp == Unavailable then active else NextProtection(active, temp, trigger, resume)
  }

  /** The flag after a sequence of checks. */
  function Run(active: bool, temps: seq<real>, trigger: real, resume: real): bool
    decreases |temps|
  {
    if temps == [] then active
    else Observe(Run(active, temps[..|temps| - 1], trigger, resume), temps[|temps| - 1], trigger, resume)
  }

  /** How many times the flag flips over a sequence of checks. */
  function Flips(active: bool, temps: seq<real>, trigger: real, resume: real): nat
    decreases |temps|
  {
    if temps == [] then 0
    else
      var before := Run(active, temps[..|temps| - 1], trigger, resume);
      Flips(active, temps[..|temps| - 1], trigger, resume)
        + (if Observe(before, temps[|temps| - 1], trigger, resume) != before then 1 else 0)
  }

  /** One more check on top of a run. */
  lemma RunStep(active: bool, temps: seq<real>, t: real, trigger: real, resume: real)
    ensures Run(active, temps + [t], trigger, resume) == Observe(Run(active, temps, trigger, resume), t, trigger, resume)
    ensures Flips(active, temps + [t], trigger, resume) == Flips(active, temps, trigger, resume)
      + (if Observe(Run(active, temps, trigger, resume), t, trigger, resume) != Run(active, temps, trigger, resume) then 1 else 0)
  {
    assert (temps + [t])[..|temps|] == temps;
  }

  /** Once protected, readings at or above the resume threshold (or unavailable)
      keep protection on and cause no flip. */
  lemma {:induction false} StaysProtected(temps: seq<real>, trigger: real, resume: real)
    requires forall k :: 0 <= k < |temps| ==> temps[k] == Unavailable || temps[k] >= resume
    ensures Run(true, temps, trigger, resume)
    ensures Flips(true, temps, trigger, resume) == 0
    decreases |temps|
  {
    if temps != [] {
      StaysProtected(temps[..|temps| - 1], trigger, resume);
    }
  }

  /** Running two sequences back to back. */
  lemma {:induction false} RunAppend(active: bool, a: seq<real>, b: seq<real>, trigger: real, resume: real)
    ensures Run(active, a + b, trigger, resume) == Run(Run(active, a, trigger, resume), b, trigger, resume)
    ensures Flips(active, a + b, trigger, resume)
         == Flips(active, a, trigger, resume) + Flips(Run(active, a, trigger, resume), b, trigger, resume)
    decreases |b|
  {
    if b == [] {
      assert a + b == a;
    } else {
      var b' := b[..|b| - 1];
      assert (a + b)[..|a + b| - 1] == a + b';
      assert (a + b)[|a + b| - 1] == b[|b| - 1];
      RunAppend(active, a, b', trigger, resume);
    }
  }

  /** The oscillating readings 82, 85, 83, 86, 84, 87, 83 against 85/80 give
      exactly one transition, at 85; a following 79 gives exactly one resume. */
  lemma OscillationFlipsOnce()
    ensures Flips(false, [82.0, 85.0, 83.0, 86.0, 84.0, 87.0, 83.0], 85.0, 80.0) == 1
    ensures Run(false, [82.0, 85.0, 83.0, 86.0, 84.0, 87.0, 83.0], 85.0, 80.0)
    ensures Flips(false, [82.0, 85.0, 83.0, 86.0, 84.0, 87.0, 83.0, 79.0], 85.0, 80.0) == 2
  {
    var head: seq<real> := [82.0, 85.0];
    var tail: seq<real> := [83.0, 86.0, 84.0, 87.0, 83.0];
    RunStep(false, [], 82.0, 85.0, 80.0);
    assert [] + [82.0] == [82.0];
    RunStep(false, [82.0], 85.0, 85.0, 80.0);
    assert [82.0] + [85.0] == head;
    StaysProtected(tail, 85.0, 80.0);
    RunAppend(false, head, tail, 85.0, 80.0);
    assert head + tail == [82.0, 85.0, 83.0, 86.0, 84.0, 87.0, 83.0];
    RunStep(true, [], 79.0, 85.0, 80.0);
    assert [] + [79.0] == [79.0];
    RunAppend(false, head + tail, [79.0], 85.0, 80.0);
    assert (head + tail) + [79.0] == [82.0, 85.0, 83.0, 86.0, 84.0, 87.0, 83.0, 79.0];
  }

  /** The hysteresis state updated by each reading. */
  class ThermalState {
    var currentTemp: real
    var protectionActive: bool
    var lastTriggerTime: Option<real>
    var lastResumeTime: Option<real>
    var triggerThreshold: real
    var resumeThreshold: real

    constructor (trigger: real, resume: real)
      ensures currentTemp == Unavailable && !protectionActive
      ensures lastTriggerTime == None && lastResumeTime == None
      ensures triggerThreshold == trigger && resumeThreshold == resume
    {
      currentTemp := Unavailable;
      protectionActive := false;
      lastTriggerTime := None;
      lastResumeTime := None;
      triggerThreshold := trigger;
      resumeThreshold := resume;
    }

    /** Protection is due to switch on: the hysteresis step would turn it on. */
    predicate ShouldTriggerProtection(): (b: bool)
      reads this
      ensures b <==> !protectionActive && NextProtection(protectionActive, currentTemp, triggerThreshold, resumeThreshold)
    {
      !protectionActive && currentTemp >= triggerThreshold
    }

    /** Protection is due to switch off: the hysteresis step would turn it off. */
    predicate ShouldResumeNormal(): (b: bool)
      reads this
      ensures b <==> protectionActive && !NextProtection(protectionActive, currentTemp, triggerThreshold, resumeThreshold)
    {
      protectionActive && currentTemp < resumeThreshold
    }

    /** Stores the reading and applies the hysteresis rule, stamping the
        time of a trigger or a resume. */
    method UpdateTemperature(temp: real, now: real)
      modifies this`currentTemp, this`protectionActive, this`lastTriggerTime, this`lastResumeTime
      ensures currentTemp == temp
      ensures protectionActive == NextProtection(old(protectionActive), temp, triggerThreshold, resumeThreshold)
      ensures lastTriggerTime == if !old(protectionActive) && protectionActive then Some(now) else old(lastTriggerTime)
      ensures lastResumeTime == if old(protectionActive) && !protectionActive then Some(now) else old(lastResumeTime)
    {
      currentTemp := temp;
      if ShouldTriggerProtection() {
        protectionActive := true;
        lastTriggerTime := Some(now);
      } else if ShouldResumeNormal() {
        protectionActive := false;
        lastResumeTime := Some(now);
      }
    }
  }

  /** An observer; `raises` says whether calling it throws. Two registrations
      of the same callback are equal values. */
  datatype Callback = Callback(name: string, raises: bool)

  /** One call of an observer, with the arguments it received. */
  datatype Invocation = Invocation(callback: Callback, protectionActive: bool, temperature: real)

  /** A rejected threshold pair (resume not below trigger). */
  datatype ConfigError = ConfigError(trigger: real, resume: real)

  /** One sampling step of the monitoring loop: the platform reading and the time. */
  datatype Sample = Sample(reading: real, time: real)

  predicate NoDuplicates<T(==)>(xs: seq<T>)
  {
    forall i, j :: 0 <= i < j < |xs| ==> xs[i] != xs[j]
  }

  /** The calls made when notifying `cbs`, in registration order. */
  function Invocations(cbs: seq<Callback>, active: bool, temp: real): (r: seq<Invocation>)
    ensures |r| == |cbs|
    ensures forall k :: 0 <= k < |cbs| ==> r[k] == Invocation(cbs[k], active, temp)
  {
    seq(|cbs|, k requires 0 <= k < |cbs| => Invocation(cbs[k], active, temp))
  }

  /** The observer calls over a sequence of checks: at every flip each
      observer is called once, in registration order, with the new flag and
      the reading that flipped it. */
  function RunCalls(cbs: seq<Callback>, active: bool, temps: seq<real>, trigger: real, resume: real): seq<Invocation>
    decreases |temps|
  {
    if temps == [] then []
    else
      var before := Run(active, temps[..|temps| - 1], trigger, resume);
      var t := temps[|temps| - 1];
      var after := Observe(before, t, trigger, resume);
      RunCalls(cbs, active, temps[..|temps| - 1], trigger, resume)
        + (if after != before then Invocations(cbs, after, t) else [])
  }

  /** Every flip calls each observer exactly once. */
  lemma {:induction false} RunCallsCount(cbs: seq<Callback>, active: bool, temps: seq<real>, trigger: real, resume: real)
    ensures |RunCalls(cbs, active, temps, trigger, resume)| == Flips(active, temps, trigger, resume) * |cbs|
    decreases |temps|
  {
    if temps != [] {
      var init := temps[..|temps| - 1];
      RunCallsCount(cbs, active, init, trigger, resume);
      MulSucc(Flips(active, init, trigger, resume), |cbs|);
    }
  }

  /** No flip, no call: a run that stays protected notifies nobody. */
  lemma StaysProtectedSilently(cbs: seq<Callback>, temps: seq<real>, trigger: real, resume: real)
    requires forall k :: 0 <= k < |temps| ==> temps[k] == Unavailable || temps[k] >= resume
    ensures RunCalls(cbs, true, temps, trigger, resume) == []
  {
    StaysProtected(temps, trigger, resume);
    RunCallsCount(cbs, true, temps, trigger, resume);
  }

  /** One more check on top of a run adds that check's calls. */
  lemma RunCallsSnoc(cbs: seq<Callback>, active: bool, temps: seq<real>, t: real, trigger: real, resume: real)
    ensures RunCalls(cbs, active, temps + [t], trigger, resume)
         == RunCalls(cbs, active, temps, trigger, resume)
            + (if Observe(Run(active, temps, trigger, resume), t, trigger, resume) != Run(active, temps, trigger, resume)
               then Invocations(cbs, Observe(Run(active, temps, trigger, resume), t, trigger, resume), t) else [])
  {
    assert (temps + [t])[..|temps|] == temps;
  }

  lemma MulSucc(f: nat, n: nat)
    ensures (f + 1) * n == f * n + n
  {
  }

  /** The observer calls after check `i` of a monitoring run over `seen`. */
  lemma CallsStep(cbs: seq<Callback>, start: bool, seen: seq<real>, i: nat, trigger: real, resume: real,
                  base: seq<Invocation>, callsBefore: seq<Invocation>, callsAfter: seq<Invocation>)
    requires i < |seen|
    requires callsBefore == base + RunCalls(cbs, start, seen[..i], trigger, resume)
    requires callsAfter == callsBefore
      + (if Observe(Run(start, seen[..i], trigger, resume), seen[i], trigger, resume) != Run(start, seen[..i], trigger, resume)
         then Invocations(cbs, Observe(Run(start, seen[..i], trigger, resume), seen[i], trigger, resume), seen[i]) else [])
    ensures callsAfter == base + RunCalls(cbs, start, seen[..i + 1], trigger, resume)
  {
    var prefix := seen[..i];
    assert seen[..i + 1] == prefix + [seen[i]];
    RunCallsSnoc(cbs, start, prefix, seen[i], trigger, resume);
  }

  /** The flag and the failure count after check `i` of a monitoring run over `seen`. */
  lemma FlagStep(cbs: seq<Callback>, start: bool, seen: seq<real>, i: nat, trigger: real, resume: real,
                 base: nat, failuresBefore: nat, failuresAfter: nat)
    requires i < |seen|
    requires failuresBefore == base + Flips(start, seen[..i], trigger, resume) * RaisingCount(cbs)
    requires failuresAfter == failuresBefore
      + (if Observe(Run(start, seen[..i], trigger, resume), seen[i], trigger, resume) != Run(start, seen[..i], trigger, resume)
         then RaisingCount(cbs) else 0)
    ensures Observe(Run(start, seen[..i], trigger, resume), seen[i], trigger, resume) == Run(start, seen[..i + 1], trigger, resume)
    ensures failuresAfter == base + Flips(start, seen[..i + 1], trigger, resume) * RaisingCount(cbs)
  {
    var prefix := seen[..i];
    assert seen[..i + 1] == prefix + [seen[i]];
    RunStep(start, prefix, seen[i], trigger, resume);
    MulSucc(Flips(start, prefix, trigger, resume), RaisingCount(cbs));
  }

  /** How many of `cbs` throw when called. */
  function RaisingCount(cbs: seq<Callback>): nat
    decreases |cbs|
  {
    if cbs == [] then 0
    else RaisingCount(cbs[..|cbs| - 1]) + (if cbs[|cbs| - 1].raises then 1 else 0)
  }

  /** The temperatures a run of the monitoring loop sees: every platform
      reading, or the simulated value throughout in simulate mode. */
  function Seen(simulate: bool, simulated: real, samples: seq<Sample>): (r: seq<real>)
    ensures |r| == |samples|
    ensures forall k :: 0 <= k < |samples| ==> r[k] == if simulate then simulated else samples[k].reading
  {
    seq(|samples|, k requires 0 <= k < |samples| => if simulate then simulated else samples[k].reading)
  }

  class ThermalMonitor {
    const state: ThermalState
    var callbacks: seq<Callback>
    const checkInterval: real
    var simulateMode: bool
    var simulatedTemp: real
    /** Whether a monitoring thread handle is present. */
    var monitoring: bool
    /** Every observer call made so far, in order. */
    var invocations: seq<Invocation>
    /** How many observer calls threw (each is caught and logged). */
    var callbackFailures: nat

    ghost predicate Valid()
      reads this, state
    {
      state.resumeThreshold < state.triggerThreshold && NoDuplicates(callbacks)
    }

    constructor Init(trigger: real := 85.0, resume: real := 80.0, interval: real := 5.0)
      requires resume < trigger
      ensures Valid() && fresh(state)
      ensures state.triggerThreshold == trigger && state.resumeThreshold == resume
      ensures state.currentTemp == Unavailable && !state.protectionActive
      ensures callbacks == [] && checkInterval == interval && !simulateMode && simulatedTemp == 25.0
      ensures !monitoring && invocations == [] && callbackFailures == 0
    {
      state := new ThermalState(trigger, resume);
      callbacks := [];
      checkInterval := interval;
      simulateMode := false;
      simulatedTemp := 25.0;
      monitoring := false;
      invocations := [];
      callbackFailures := 0;
    }

    /** Construction fails exactly when there is no hysteresis gap. */
    static method Create(trigger: real := 85.0, resume: real := 80.0, interval: real := 5.0) returns (r: Result<ThermalMonitor, ConfigError>)
      ensures r.Err? <==> resume >= trigger
      ensures r.Err? ==> r.error == ConfigError(trigger, resume)
      ensures r.Ok? ==> fresh(r.value) && fresh(r.value.state) && r.value.Valid()
      ensures r.Ok? ==> r.value.state.triggerThreshold == trigger && r.value.state.resumeThreshold == resume
      ensures r.Ok? ==> !r.value.state.protectionActive && r.value.callbacks == [] && !r.value.monitoring
    {
      if resume >= trigger {
        return Err(ConfigError(trigger, resume));
      }
      var m := new ThermalMonitor.Init(trigger, resume, interval);
      return Ok(m);
    }

    /** The temperature a check sees: the simulated value in simulate mode,
        otherwise the platform reading (Unavailable off a Raspberry Pi). */
    function GetTemperature(platformReading: real): (t: real)
      reads this
      ensures simulateMode ==> t == simulatedTemp
      ensures !simulateMode ==> t == platformReading
    {
      if simulateMode then simulatedTemp else platformReading
    }

    /** Reads the temperature once, applies the hysteresis rule and notifies
        every observer iff the flag flipped.  An unavailable reading returns
        before any state change. */
    method CheckThermalProtection(platformReading: real, now: real)
      requires Valid()
      modifies this`invocations, this`callbackFailures, state`currentTemp, state`protectionActive,
               state`lastTriggerTime, state`lastResumeTime
      ensures Valid()
      ensures old(GetTemperature(platformReading)) == Unavailable ==> state.currentTemp == old(state.currentTemp)
      ensures old(GetTemperature(platformReading)) != Unavailable ==> state.currentTemp == old(GetTemperature(platformReading))
      ensures state.protectionActive
        == Observe(old(state.protectionActive), old(GetTemperature(platformReading)), state.triggerThreshold, state.resumeThreshold)
      ensures invocations == old(invocations)
        + (if state.protectionActive != old(state.protectionActive)
           then Invocations(callbacks, state.protectionActive, old(GetTemperature(platformReading))) else [])
      ensures callbackFailures == old(callbackFailures)
        + (if state.protectionActive != old(state.protectionActive) then RaisingCount(callbacks) else 0)
      ensures state.lastTriggerTime
        == if !old(state.protectionActive) && state.protectionActive then Some(now) else old(state.lastTriggerTime)
      ensures state.lastResumeTime
        == if old(state.protectionActive) && !state.protectionActive then Some(now) else old(state.lastResumeTime)
    {
      var previous := state.protectionActive;
      var temp := GetTemperature(platformReading);
      if temp == Unavailable {
        return;
      }
      state.UpdateTemperature(temp, now);
      if state.protectionActive != previous {
        NotifyCallbacks();
      }
    }

    /** Adds `cb` unless it is already registered. */
    method RegisterCallback(cb: Callback)
      requires Valid()
      modifies this`callbacks
      ensures Valid()
      ensures callbacks == if cb in old(callbacks) then old(callbacks) else old(callbacks) + [cb]
    {
      if cb !in callbacks {
        callbacks := callbacks + [cb];
      }
    }

    /** Calls every observer once, in registration order, with the current
        flag and temperature; a throwing observer is logged and the rest
        still run. */
    method NotifyCallbacks()
      modifies this`invocations, this`callbackFailures
      ensures invocations == old(invocations) + Invocations(callbacks, state.protectionActive, state.currentTemp)
      ensures callbackFailures == old(callbackFailures) + RaisingCount(callbacks)
    {
      for i := 0 to |callbacks|
        invariant invocations == old(invocations) + Invocations(callbacks[..i], state.protectionActive, state.currentTemp)
        invariant callbackFailures == old(callbackFailures) + RaisingCount(callbacks[..i])
      {
        var cb := callbacks[i];
        invocations := invocations + [Invocation(cb, state.protectionActive, state.currentTemp)];
        if cb.raises {
          callbackFailures := callbackFailures + 1;
        }
        assert callbacks[..i + 1][..i] == callbacks[..i];
      }
      assert callbacks[..|callbacks|] == callbacks;
    }

    /** Starting with a handle present does nothing. */
    method StartMonitoring()
      modifies this`monitoring
      ensures monitoring
    {
      if monitoring {
        return;
      }
      monitoring := true;
    }

    /** Stopping with no handle present does nothing. */
    method StopMonitoring()
      modifies this`monitoring
      ensures !monitoring
    {
      if !monitoring {
        return;
      }
      monitoring := false;
    }

    /** Reconfigures the thresholds; an omitted value keeps its current one.
        A resulting pair without a gap is rejected and nothing changes.  The
        flag is not re-evaluated: the next reading decides. */
    method SetThresholds(trigger: Option<real>, resume: Option<real>) returns (r: Outcome<ConfigError>)
      requires Valid()
      modifies state`triggerThreshold, state`resumeThreshold
      ensures Valid()
      ensures
        var newTrigger := trigger.GetOr(old(state.triggerThreshold));
        var newResume := resume.GetOr(old(state.resumeThreshold));
        && (r.Fail? <==> newResume >= newTrigger)
        && (r.Fail? ==>
              r.error == ConfigError(newTrigger, newResume)
              && state.triggerThreshold == old(state.triggerThreshold)
              && state.resumeThreshold == old(state.resumeThreshold))
        && (r.Pass? ==> state.triggerThreshold == newTrigger && state.resumeThreshold == newResume)
    {
      var newTrigger := if trigger.Some? then trigger.value else state.triggerThreshold;
      var newResume := if resume.Some? then resume.value else state.resumeThreshold;
      if newResume >= newTrigger {
        return Fail(ConfigError(newTrigger, newResume));
      }
      state.triggerThreshold := newTrigger;
      state.resumeThreshold := newResume;
      return Pass;
    }

    /** Switches to simulate mode: every later check sees `temp`. */
    method SimulateTemperature(temp: real)
      modifies this`simulateMode, this`simulatedTemp
      ensures simulateMode && simulatedTemp == temp
      ensures forall reading :: GetTemperature(reading) == temp
    {
      simulateMode := true;
      simulatedTemp := temp;
    }

    /** The monitoring loop over a finite run of samples: one check per
        sample.  At every flip of the flag each observer is called once. */
    method MonitoringLoop(samples: seq<Sample>)
      requires Valid()
      modifies this`invocations, this`callbackFailures, state`currentTemp, state`protectionActive,
               state`lastTriggerTime, state`lastResumeTime
      ensures Valid()
      ensures state.protectionActive
        == Run(old(state.protectionActive), Seen(simulateMode, simulatedTemp, samples), state.triggerThreshold, state.resumeThreshold)
      ensures invocations == old(invocations)
        + RunCalls(callbacks, old(state.protectionActive), Seen(simulateMode, simulatedTemp, samples),
                   state.triggerThreshold, state.resumeThreshold)
      ensures callbackFailures == old(callbackFailures)
        + Flips(old(state.protectionActive), Seen(simulateMode, simulatedTemp, samples), state.triggerThreshold, state.resumeThreshold)
          * RaisingCount(callbacks)
    {
      ghost var seen := Seen(simulateMode, simulatedTemp, samples);
      ghost var start := state.protectionActive;
      ghost var cbs, trigger, resume := callbacks, state.triggerThreshold, state.resumeThreshold;
      for i := 0 to |samples|
        invariant Valid()
        invariant state.protectionActive == Run(start, seen[..i], trigger, resume)
        invariant invocations == old(invocations) + RunCalls(cbs, start, seen[..i], trigger, resume)
        invariant callbackFailures == old(callbackFailures) + Flips(start, seen[..i], trigger, resume) * RaisingCount(cbs)
      {
        assert seen[i] == GetTemperature(samples[i].reading);
        ghost var callsBefore, failuresBefore := invocations, callbackFailures;
        CheckThermalProtection(samples[i].reading, samples[i].time);
        CallsStep(cbs, start, seen, i, trigger, resume, old(invocations), callsBefore, invocations);
        FlagStep(cbs, start, seen, i, trigger, resume, old(callbackFailures), failuresBefore, callbackFailures);
      }
      assert seen[..|samples|] == seen;
    }
  }
}
