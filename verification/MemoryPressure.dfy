/** The memory-pressure monitor in place. */
module MemoryPressure {
  import opened Lists
  import opened MemoryPressureModel

  class PressureMonitor {
    var stopped: bool
    var admissionBlocked: bool
    var admissionRecovering: bool
    var stableSamples: nat
    var pressureSamples: nat
    var pressureCgroup: Option<Group>
    var previous: Option<Snapshot>

    ghost function View(): Monitor
      reads this
    {
      Monitor(admissionBlocked, admissionRecovering, stableSamples, pressureSamples, pressureCgroup, previous, stopped)
    }

    constructor ()
      ensures View() == CALM
    {
      stopped, admissionBlocked, admissionRecovering := false, false, false;
      stableSamples, pressureSamples := 0, 0;
      pressureCgroup, previous := None, None;
    }

    // True when the listeners must be told of a new admission state.
    method UpdateAdmissionState(snapshot: Option<Snapshot>, throttling: bool) returns (changed: bool)
      requires snapshot.Some? ==> throttling == Throttling(previous, snapshot.value)
      modifies `admissionBlocked, `admissionRecovering, `stableSamples
      ensures View() == if snapshot.Some? then Admit(old(View()), snapshot.value) else old(View()).(stable := 0)
      ensures changed == (admissionBlocked != old(admissionBlocked) || admissionRecovering != old(admissionRecovering))
    {
      var previousBlocked, previousRecovering := admissionBlocked, admissionRecovering;
      if snapshot.Some? {
        var s := snapshot.value;
        var comparable := previous.Some? && previous.value.group == s.group && previous.value.high == s.high;
        var stable := comparable && !throttling && s.events == previous.value.events && s.current <= previous.value.current;
        if AtLimit(s) || (s.hard && NearLimit(s))
          || (NearLimit(s) && (throttling || (admissionRecovering && comparable && !stable)))
        {
          admissionBlocked := true;
          admissionRecovering := false;
          stableSamples := 0;
        } else if (admissionBlocked || admissionRecovering) && (Relaxed(s) || (!NearLimit(s) && !throttling)) {
          admissionBlocked := false;
          admissionRecovering := false;
          stableSamples := 0;
        } else if admissionBlocked || admissionRecovering {
          stableSamples := if stable then stableSamples + 1 else 0;
          if stableSamples >= STABLE_SAMPLES {
            admissionRecovering := admissionBlocked;
            admissionBlocked := false;
            stableSamples := 0;
          }
        }
      } else {
        stableSamples := 0;
      }
      changed := admissionBlocked != previousBlocked || admissionRecovering != previousRecovering;
    }

    method Poll(x: Sample) returns (changed: bool, pressure: bool)
      modifies this
      ensures View() == MemoryPressureModel.Poll(old(View()), x)
      ensures changed == (admissionBlocked != old(admissionBlocked) || admissionRecovering != old(admissionRecovering))
      ensures pressure == (stopped && !old(stopped))
    {
      hide Admit, Count;
      changed, pressure := false, false;
      if stopped { return; }
      if x.Broken? {
        previous := None;
        stableSamples, pressureSamples, pressureCgroup := 0, 0, None;
        return;
      }
      var snapshot := if x.Seen? then Some(x.snapshot) else None;
      var newHighEvents := snapshot.Some? && previous.Some? && previous.value.group == snapshot.value.group
        && previous.value.high == snapshot.value.high && snapshot.value.events > previous.value.events;
      changed := UpdateAdmissionState(snapshot, newHighEvents);
      previous := snapshot;
      if snapshot.None? {
        pressureSamples, pressureCgroup := 0, None;
        return;
      }
      pressure := CountPressure(snapshot.value, newHighEvents);
    }

    // Counts samples that press; the third of one group in a row stops the monitor.
    method CountPressure(s: Snapshot, newHighEvents: bool) returns (pressure: bool)
      requires !stopped
      modifies `pressureSamples, `pressureCgroup, `stopped
      ensures View() == Count(old(View()), s, s.current * 10 >= s.high * 9 && (s.current >= s.high || newHighEvents))
      ensures pressure == stopped
    {
      pressure := false;
      if s.current * 10 < s.high * 9 || (s.current < s.high && !newHighEvents) {
        pressureSamples, pressureCgroup := 0, None;
        return;
      }
      pressureSamples := if pressureCgroup == Some(s.group) then pressureSamples + 1 else 1;
      pressureCgroup := Some(s.group);
      if pressureSamples < PRESSURE_SAMPLES { return; }
      stopped := true;
      pressure := true;
    }
  }
}
