/**
 * VacuumBackend: the engine object whose methods update its fields in place. The two
 * moving-average buffers are arrays of MAXAVG slots owned by the engine; the count
 * pointers of VacuumBackend (stcntPtr, spcntPtr) alias the count fields, so each buffer
 * has one count.
 * Connection state and measurement outcomes are inputs: `connected` stands for
 * isConnected(), and a reading is Some(pressure) or None for a failed measurement.
 */
module Backend {
  import opened Wrappers
  import opened MovingAverage
  import opened Decision

  class Engine {
    var ports: seq<string>
    var pressureSet: int
    var configuredDuration: int
    var elapsedSteps: int
    var lastPressure: real
    var lastPass: bool

    var startpress: real
    const stAvg: array<real>
    const spAvg: array<real>
    var stcnt: nat
    var spcnt: nat
    var stoppress: real
    var offsetpress: real

    /** Two distinct buffers of MAXAVG slots; neither count ever exceeds MAXAVG. */
    ghost predicate Valid()
      reads this
    {
      stAvg.Length == MAXAVG && spAvg.Length == MAXAVG && stAvg != spAvg
      && stcnt <= MAXAVG && spcnt <= MAXAVG
    }

    /** The session state measureAndDecide works on, as a value. */
    ghost function Snapshot(): (s: Session)
      reads this, stAvg, spAvg
      requires Valid()
      ensures WellFormed(s)
    {
      Session(stAvg[..], spAvg[..], stcnt, spcnt, startpress, stoppress, offsetpress)
    }

    /** The engine's initial state; `available` is the port list found at construction. */
    constructor (available: seq<string>)
      ensures Valid() && fresh(stAvg) && fresh(spAvg)
      ensures ports == available
      ensures pressureSet == 0 && configuredDuration == 0 && elapsedSteps == 0
      ensures lastPressure == 0.0 && lastPass
      ensures Snapshot() == Session(Zeros, Zeros, 0, 0, 0.0, 0.0, 0.0)
    {
      ports := available;
      pressureSet := 0;
      configuredDuration := 0;
      elapsedSteps := 0;
      lastPressure := 0.0;
      lastPass := true;
      startpress := 0.0;
      stAvg := new real[MAXAVG](_ => 0.0);
      spAvg := new real[MAXAVG](_ => 0.0);
      stcnt := 0;
      spcnt := 0;
      stoppress := 0.0;
      offsetpress := 0.0;
      new;
      assert stAvg[..] == Zeros && spAvg[..] == Zeros;
    }

    /** setTimeMode: the duration from the mode table, and the step count reset. */
    method SetTimeMode(mode: int)
      modifies this`configuredDuration, this`elapsedSteps
      ensures configuredDuration == Duration(mode) && elapsedSteps == 0
    {
      match mode {
        case 2 => configuredDuration := 300;
        case 3 => configuredDuration := 180;
        case 4 => configuredDuration := 120;
        case 5 => configuredDuration := 30;
        case _ => configuredDuration := 0;
      }
      elapsedSteps := 0;
    }

    /** setPressureMode: the quick-check target, in kPa. */
    method SetPressureMode(kpa: int)
      modifies this`pressureSet
      ensures pressureSet == kpa
    {
      pressureSet := kpa;
    }

    /** start: a new quick-check session. */
    method Start()
      modifies this`elapsedSteps, this`lastPressure, this`lastPass
      ensures elapsedSteps == 0 && lastPressure == 0.0 && lastPass
    {
      elapsedSteps := 0;
      lastPressure := 0.0;
      lastPass := true;
    }

    /**
     * step: the unfiltered quick check. Without a connection or a reading nothing changes;
     * otherwise the reading is recorded, one more step has elapsed and the verdict is
     * reading >= target - 3.
     */
    method Step(connected: bool, reading: Option<real>)
      modifies this`elapsedSteps, this`lastPressure, this`lastPass
      ensures !(connected && reading.Some?) ==>
        elapsedSteps == old(elapsedSteps) && lastPressure == old(lastPressure) && lastPass == old(lastPass)
      ensures connected && reading.Some? ==>
        && lastPressure == reading.value
        && elapsedSteps == old(elapsedSteps) + 1
        && lastPass == QuickPass(reading.value, pressureSet)
    {
      if !connected {
        return;
      }
      if reading.None? {
        return;
      }
      var p := reading.value;
      lastPressure := p;
      elapsedSteps := elapsedSteps + 1;
      lastPass := p >= pressureSet as real - 3.0;
    }

    /** refreshPorts: the port list, as enumerated by the serial layer. */
    method RefreshPorts(available: seq<string>)
      modifies this`ports
      ensures ports == available
    {
      ports := available;
    }

    function PortCount(): (n: nat)
      reads this
      ensures n == |ports|
    {
      |ports|
    }

    /** portName: the name at an index, or None (nullptr) outside [0, portCount()). */
    function PortName(index: int): (r: Option<string>)
      reads this
      ensures r.Some? <==> 0 <= index < |ports|
      ensures r.Some? ==> r.value == ports[index]
    {
      if index < 0 || index >= |ports| then None else Some(ports[index])
    }

    /**
     * Every index below portCount() has a name, so the null check in the port-list loop
     * never skips a port.
     */
    lemma EveryPortNamed()
      ensures forall i :: 0 <= i < PortCount() ==> PortName(i).Some? && PortName(i).value == ports[i]
    {
    }

    /**
     * averaging: one insertion into a buffer whose count the caller holds. The new
     * slots, the new count and the returned mean are those of MovingAverage.Insert.
     */
    method Averaging(vacarr: array<real>, val: real, idx: nat) returns (mean: real, newIdx: nat)
      requires vacarr.Length == MAXAVG
      modifies vacarr
      ensures Insertion(vacarr[..], newIdx, mean) == Insert(old(vacarr[..]), idx, val)
    {
      var total := 0.0;
      if idx < MAXAVG {
        vacarr[idx] := val;
        for i := 0 to idx + 1
          invariant total == Sum(vacarr[..i])
        {
          assert vacarr[..i + 1][..i] == vacarr[..i];
          total := total + vacarr[i];
        }
        newIdx := idx + 1;
        mean := total / newIdx as real;
      } else {
        for i := 0 to MAXAVG - 1
          invariant forall k :: 0 <= k < i ==> vacarr[k] == old(vacarr[k + 1])
          invariant forall k :: i <= k < MAXAVG ==> vacarr[k] == old(vacarr[k])
          invariant total == Sum(vacarr[..i])
        {
          vacarr[i] := vacarr[i + 1];
          assert vacarr[..i + 1][..i] == vacarr[..i];
          total := total + vacarr[i];
        }
        vacarr[MAXAVG - 1] := val;
        assert vacarr[..][..MAXAVG - 1] == vacarr[..MAXAVG - 1];
        total := total + vacarr[MAXAVG - 1];
        assert vacarr[..] == old(vacarr[..])[1..] + [val];
        newIdx := idx;
        mean := total / MAXAVG as real;
      }
    }

    /** clearAveraging: zero-fill both buffers; returns the reset count. */
    method ClearAveraging(vacarr1: array<real>, vacarr2: array<real>) returns (idx: nat)
      requires vacarr1.Length == MAXAVG && vacarr2.Length == MAXAVG
      modifies vacarr1, vacarr2
      ensures vacarr1[..] == Zeros && vacarr2[..] == Zeros
      ensures idx == 0
    {
      for i := 0 to MAXAVG
        invariant forall k :: 0 <= k < i ==> vacarr1[k] == 0.0 && vacarr2[k] == 0.0
      {
        vacarr1[i] := 0.0;
        vacarr2[i] := 0.0;
      }
      idx := 0;
    }

    /**
     * measureAndDecide. `prior` holds the values of the caller's out-parameters. The new
     * session state, ok and the outputs are exactly those of Decision.Evaluate on the old
     * state; the frame says that nothing outside the session state changes.
     */
    method MeasureAndDecide(connected: bool, reading: Option<real>, counter: int, prior: Outputs)
      returns (ok: bool, out: Outputs)
      requires Valid()
      modifies this`startpress, this`stoppress, this`offsetpress, this`stcnt, this`spcnt, stAvg, spAvg
      ensures Valid()
      ensures var r := Evaluate(old(Snapshot()), configuredDuration, connected, reading, counter, prior);
        Snapshot() == r.session && ok == r.ok && out == r.out
    {
      if !connected {
        return false, prior;
      }
      ok := reading.Some?;
      var p := if reading.Some? then reading.value else prior.pressure;
      out := prior.(pressure := p);
      if counter <= STARTOFFSET * DIV {
        out := out.(pass := true, stop := false, diffPressure := 0.0);
        offsetpress := 0.0;
        startpress := 0.0;
        stoppress := 0.0;
        spcnt := 0;
        stcnt := 0;
        if counter == 1 {
          stcnt := ClearAveraging(stAvg, spAvg);
        }
      } else if counter <= STARTOFFSET * DIV + MAXAVG {
        var pSt, pSp;
        pSt, stcnt := Averaging(stAvg, p, stcnt);
        startpress := pSt;
        pSp, spcnt := Averaging(spAvg, p, spcnt);
        stoppress := pSp;
        if startpress > OFFSET_CEILING {
          offsetpress := startpress - OFFSET_CEILING;
        } else {
          offsetpress := 0.0;
        }
        startpress := startpress - offsetpress;
        out := Outputs(p, pSt, pSp, 0.0, true, false);
      } else if counter <= (configuredDuration + STARTOFFSET) * DIV + MAXAVG {
        var pSp;
        pSp, spcnt := Averaging(spAvg, p, spcnt);
        pSp := pSp - offsetpress;
        var diff := pSp - startpress;
        var pass, stop;
        if pSp >= MINPRESS as real && diff <= MINDIFF && diff >= -MINDIFF {
          pass, stop := true, false;
        } else {
          pass, stop := false, true;
        }
        out := Outputs(p, startpress, pSp, diff, pass, stop);
      } else {
        var pSp;
        pSp, spcnt := Averaging(spAvg, p, spcnt);
        pSp := pSp - offsetpress;
        var diff := pSp - startpress;
        var pass, stop;
        if pSp >= MINPRESS as real && diff <= MINDIFF && diff >= -MINDIFF {
          pass, stop := true, true;
        } else {
          pass, stop := false, true;
        }
        out := Outputs(p, startpress, pSp, diff, pass, stop);
      }
    }
  }
}
