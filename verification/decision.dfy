/**
 * The leak-test decision logic of VacuumBackend::measureAndDecide as a pure transition
 * over a value snapshot of the engine's session state. The class Backend.Engine runs the
 * same logic in place and is proved to follow Evaluate exactly.
 */
module Decision {
  import opened Wrappers
  import opened MovingAverage

  /** Sub-steps per configured duration unit. */
  const DIV: int := 2
  /** Warm-up length in duration units. */
  const STARTOFFSET: int := 7
  /** Declared with the other limits; no decision reads it. */
  const MAXTIME: int := 65535
  /** Declared upper pressure reference; no decision reads it. */
  const MAXPRESS: int := 67
  /** Lowest acceptable stop pressure, kPa. */
  const MINPRESS: int := 62
  /** Largest acceptable leak differential either way, kPa. */
  const MINDIFF: real := 1.0
  /** Declared rate constant; no decision reads it. */
  const HRATE: real := 0.5
  /** Start pressures above this are corrected down to it by the offset. */
  const OFFSET_CEILING: real := 65.0

  /** Last counter of the warm-up phase. */
  const WARMUP_END: int := STARTOFFSET * DIV
  /** Last counter of the calibration phase. */
  const CALIB_END: int := STARTOFFSET * DIV + MAXAVG

  /** Last counter of the active test for a configured duration. */
  function TestEnd(duration: int): int
  {
    (duration + STARTOFFSET) * DIV + MAXAVG
  }

  /**
   * VacuumBackend::setTimeMode's table: the configured duration of a time mode.
   * Modes 2 to 5 have a positive duration; mode 1 and every unknown mode have none.
   */
  function Duration(mode: int): (d: int)
    ensures d in {0, 30, 120, 180, 300}
    ensures d > 0 <==> 2 <= mode <= 5
  {
    match mode
    case 2 => 300
    case 3 => 180
    case 4 => 120
    case 5 => 30
    case _ => 0
  }

  lemma DurationTable()
    ensures Duration(1) == 0 && Duration(2) == 300 && Duration(3) == 180
    ensures Duration(4) == 120 && Duration(5) == 30
    ensures forall m :: m < 1 || m > 5 ==> Duration(m) == 0
  {
  }

  datatype Phase = Warmup | Calibration | ActiveTest | Timeout

  /**
   * The phase a counter falls in. Each boundary belongs to the lower phase: warm-up
   * ends at 14, calibration at 19, the active test at TestEnd(duration).
   */
  function PhaseOf(counter: int, duration: int): (ph: Phase)
    ensures ph == Warmup <==> counter <= 14
    ensures ph == Calibration <==> 14 < counter <= 19
    ensures ph == ActiveTest <==> 19 < counter <= 2 * duration + 19
    ensures ph == Timeout <==> 19 < counter && 2 * duration + 19 < counter
  {
    if counter <= WARMUP_END then Warmup
    else if counter <= CALIB_END then Calibration
    else if counter <= TestEnd(duration) then ActiveTest
    else Timeout
  }

  lemma PhaseBoundaries(duration: int)
    requires duration >= 0
    ensures PhaseOf(WARMUP_END, duration) == Warmup
    ensures PhaseOf(WARMUP_END + 1, duration) == Calibration
    ensures PhaseOf(CALIB_END, duration) == Calibration
    ensures duration > 0 ==> PhaseOf(CALIB_END + 1, duration) == ActiveTest
    ensures duration > 0 ==> PhaseOf(TestEnd(duration), duration) == ActiveTest
    ensures PhaseOf(TestEnd(duration) + 1, duration) == Timeout
    ensures duration == 0 ==> PhaseOf(CALIB_END + 1, duration) == Timeout
  {
  }

  /** Offset correction: max(0, startMean - 65). */
  function Offset(startMean: real): (off: real)
    ensures off >= 0.0 && off >= startMean - OFFSET_CEILING
    ensures off == 0.0 || off == startMean - OFFSET_CEILING
  {
    if startMean > OFFSET_CEILING then startMean - OFFSET_CEILING else 0.0
  }

  /**
   * The phased verdict: stop pressure at least MINPRESS and |diff| at most MINDIFF. As
   * diff is stop minus start, a pass also means the start pressure is at least 61 kPa.
   */
  predicate InTolerance(stopPressure: real, diff: real): (ok: bool)
    ensures ok <==> MINPRESS as real <= stopPressure && (if diff < 0.0 then -diff else diff) <= MINDIFF
    ensures ok ==> stopPressure - diff >= MINPRESS as real - MINDIFF
  {
    stopPressure >= MINPRESS as real && diff <= MINDIFF && diff >= -MINDIFF
  }

  /** The quick-check verdict of step(): the reading is at least target - 3 kPa. */
  predicate QuickPass(pressure: real, target: int): (ok: bool)
    ensures ok <==> target as real - pressure <= 3.0
  {
    pressure >= target as real - 3.0
  }

  /** A higher reading never turns a passing quick check into a failing one. */
  lemma QuickPassMonotone(p: real, q: real, target: int)
    requires QuickPass(p, target) && p <= q
    ensures QuickPass(q, target)
  {
  }

  /** The session state measureAndDecide reads and writes: both buffers, counts, pressures. */
  datatype Session = Session(
    stAvg: seq<real>, spAvg: seq<real>,
    stcnt: nat, spcnt: nat,
    startpress: real, stoppress: real, offsetpress: real)

  /** Both buffers have MAXAVG slots and no count exceeds MAXAVG. */
  predicate WellFormed(s: Session)
  {
    |s.stAvg| == MAXAVG && |s.spAvg| == MAXAVG && s.stcnt <= MAXAVG && s.spcnt <= MAXAVG
  }

  /** The reference out-parameters: outPressure, pSt, pSp, diffPressure, pass, stop. */
  datatype Outputs = Outputs(
    pressure: real, startPressure: real, stopPressure: real, diffPressure: real,
    pass: bool, stop: bool)

  /** The values the C API's callers initialise the out-parameters with. */
  const NoOutputs: Outputs := Outputs(0.0, 0.0, 0.0, 0.0, false, false)

  const Zeros: seq<real> := [0.0, 0.0, 0.0, 0.0, 0.0]

  /** The result of one pass of the phase logic: the new session state and the outputs. */
  datatype Transition = Transition(session: Session, out: Outputs)

  /**
   * One pass of the phase logic with sample p: `prior` holds the caller's out-parameters,
   * which keep their values where the code does not write them.
   */
  function Decide(s: Session, duration: int, counter: int, p: real, prior: Outputs): (d: Transition)
    requires WellFormed(s)
    ensures WellFormed(d.session)
    ensures d.out.pressure == p
  {
    match PhaseOf(counter, duration)
    case Warmup =>
      var st := if counter == 1 then Zeros else s.stAvg;
      var sp := if counter == 1 then Zeros else s.spAvg;
      Transition(Session(st, sp, 0, 0, 0.0, 0.0, 0.0),
                 prior.(pressure := p, diffPressure := 0.0, pass := true, stop := false))
    case Calibration =>
      var a := Insert(s.stAvg, s.stcnt, p);
      var b := Insert(s.spAvg, s.spcnt, p);
      var off := Offset(a.mean);
      Transition(Session(a.slots, b.slots, a.count, b.count, a.mean - off, b.mean, off),
                 Outputs(p, a.mean, b.mean, 0.0, true, false))
    case ActiveTest =>
      var b := Insert(s.spAvg, s.spcnt, p);
      var pSp := b.mean - s.offsetpress;
      var diff := pSp - s.startpress;
      var pass := InTolerance(pSp, diff);
      Transition(s.(spAvg := b.slots, spcnt := b.count),
                 Outputs(p, s.startpress, pSp, diff, pass, !pass))
    case Timeout =>
      var b := Insert(s.spAvg, s.spcnt, p);
      var pSp := b.mean - s.offsetpress;
      var diff := pSp - s.startpress;
      Transition(s.(spAvg := b.slots, spcnt := b.count),
                 Outputs(p, s.startpress, pSp, diff, InTolerance(pSp, diff), true))
  }

  /** The sample the phase logic uses: the reading, or the caller's stale value on failure. */
  function SampleOf(reading: Option<real>, stale: real): (x: real)
    ensures reading.Some? ==> x == reading.value
    ensures reading.None? ==> x == stale
  {
    if reading.Some? then reading.value else stale
  }

  datatype Reply = Reply(ok: bool, session: Session, out: Outputs)

  /**
   * measureAndDecide as a whole: not connected returns false and changes nothing; otherwise
   * the phase logic runs whether or not the measurement succeeded, and ok reports it.
   */
  function Evaluate(s: Session, duration: int, connected: bool, reading: Option<real>,
                    counter: int, prior: Outputs): (r: Reply)
    requires WellFormed(s)
    ensures WellFormed(r.session)
    ensures r.ok <==> connected && reading.Some?
    ensures !connected ==> r.session == s && r.out == prior
    ensures r.ok ==> r.out.pressure == reading.value
  {
    if !connected then Reply(false, s, prior)
    else
      var d := Decide(s, duration, counter, SampleOf(reading, prior.pressure), prior);
      Reply(reading.Some?, d.session, d.out)
  }

  // ---------------------------------------------------------------------------
  // Phase properties

  /**
   * Warm-up (counter <= 14): pass, no stop, zero differential; offset, start and stop
   * pressures and both counts reset to 0; pSt and pSp are left as the caller had them;
   * at counter 1 both buffers are also zero-filled, otherwise their slots are kept.
   */
  lemma WarmupResets(s: Session, duration: int, counter: int, p: real, prior: Outputs)
    requires WellFormed(s) && counter <= WARMUP_END
    ensures var d := Decide(s, duration, counter, p, prior);
      && d.out.pass && !d.out.stop && d.out.diffPressure == 0.0
      && d.out.startPressure == prior.startPressure && d.out.stopPressure == prior.stopPressure
      && d.session.startpress == 0.0 && d.session.stoppress == 0.0 && d.session.offsetpress == 0.0
      && d.session.stcnt == 0 && d.session.spcnt == 0
      && Window(d.session.stAvg, 0) == [] && Window(d.session.spAvg, 0) == []
      && (counter == 1 ==> forall k :: 0 <= k < MAXAVG ==> d.session.stAvg[k] == 0.0 && d.session.spAvg[k] == 0.0)
      && (counter != 1 ==> d.session.stAvg == s.stAvg && d.session.spAvg == s.spAvg)
  {
  }

  /**
   * Calibration (14 < counter <= 19): the sample enters both windows; pSt and pSp are the
   * unadjusted means; offset = max(0, startMean - 65) and the stored start pressure is
   * startMean - offset, so never above 65; diff 0, pass, no stop.
   */
  lemma CalibrationPhase(s: Session, duration: int, counter: int, p: real, prior: Outputs)
    requires WellFormed(s) && WARMUP_END < counter <= CALIB_END
    ensures var d := Decide(s, duration, counter, p, prior);
      var startMean := Mean(LastFive(Window(s.stAvg, s.stcnt) + [p]));
      && Window(d.session.stAvg, d.session.stcnt) == LastFive(Window(s.stAvg, s.stcnt) + [p])
      && Window(d.session.spAvg, d.session.spcnt) == LastFive(Window(s.spAvg, s.spcnt) + [p])
      && d.out.startPressure == startMean
      && d.out.stopPressure == Mean(LastFive(Window(s.spAvg, s.spcnt) + [p]))
      && d.session.stoppress == d.out.stopPressure
      && d.session.offsetpress == Offset(startMean)
      && d.session.offsetpress >= 0.0 && d.session.offsetpress >= startMean - OFFSET_CEILING
      && d.session.startpress + d.session.offsetpress == startMean
      && d.session.startpress <= OFFSET_CEILING
      && (startMean <= OFFSET_CEILING ==> d.session.startpress == startMean)
      && d.out.diffPressure == 0.0 && d.out.pass && !d.out.stop
  {
    InsertKeepsLastFive(s.stAvg, s.stcnt, p);
    InsertKeepsLastFive(s.spAvg, s.spcnt, p);
  }

  /**
   * Active test and timeout (counter > 19): only the stop window is fed; the start window,
   * start, stop and offset pressures are left alone; pSt is the frozen start pressure,
   * pSp the stop mean less the offset and diff their difference; pass exactly when
   * pSp >= 62 and -1 <= diff <= 1; stop on failure, and always after TestEnd(duration).
   */
  lemma TestPhases(s: Session, duration: int, counter: int, p: real, prior: Outputs)
    requires WellFormed(s) && counter > CALIB_END
    ensures var d := Decide(s, duration, counter, p, prior);
      var stopMean := Mean(LastFive(Window(s.spAvg, s.spcnt) + [p]));
      && Window(d.session.spAvg, d.session.spcnt) == LastFive(Window(s.spAvg, s.spcnt) + [p])
      && d.session.stAvg == s.stAvg && d.session.stcnt == s.stcnt
      && d.session.startpress == s.startpress && d.session.offsetpress == s.offsetpress
      && d.session.stoppress == s.stoppress
      && d.out.startPressure == s.startpress
      && d.out.stopPressure == stopMean - s.offsetpress
      && d.out.diffPressure == d.out.stopPressure - s.startpress
      && (d.out.pass <==> d.out.stopPressure >= 62.0 && -1.0 <= d.out.diffPressure <= 1.0)
      && (counter <= TestEnd(duration) ==> d.out.stop == !d.out.pass)
      && (counter > TestEnd(duration) ==> d.out.stop)
  {
    InsertKeepsLastFive(s.spAvg, s.spcnt, p);
  }

  /** A start mean of 70 gives an offset of 5 and a corrected start pressure of 65. */
  lemma OffsetExample(s: Session, duration: int, counter: int, p: real, prior: Outputs)
    requires WellFormed(s) && WARMUP_END < counter <= CALIB_END
    requires Insert(s.stAvg, s.stcnt, p).mean == 70.0
    ensures Decide(s, duration, counter, p, prior).session.offsetpress == 5.0
    ensures Decide(s, duration, counter, p, prior).session.startpress == 65.0
  {
  }

  /**
   * Start pressure 65, no offset and a stop mean of 63 in the active test: diff is -2,
   * outside the 1 kPa tolerance, so the test fails and stops.
   */
  lemma LeakExample(s: Session, duration: int, counter: int, p: real, prior: Outputs)
    requires WellFormed(s) && CALIB_END < counter <= TestEnd(duration)
    requires s.startpress == 65.0 && s.offsetpress == 0.0
    requires Insert(s.spAvg, s.spcnt, p).mean == 63.0
    ensures var d := Decide(s, duration, counter, p, prior);
      d.out.diffPressure == -2.0 && !d.out.pass && d.out.stop
  {
  }

  /** In tolerance after TestEnd: the verdict is pass, and the test stops anyway. */
  lemma TimeoutExample(s: Session, duration: int, counter: int, p: real, prior: Outputs)
    requires WellFormed(s) && counter > CALIB_END && counter > TestEnd(duration)
    requires s.startpress == 65.0 && s.offsetpress == 0.0
    requires Insert(s.spAvg, s.spcnt, p).mean == 65.5
    ensures var d := Decide(s, duration, counter, p, prior);
      d.out.pass && d.out.stop && d.out.diffPressure == 0.5
  {
  }

  /**
   * A failed measurement on a connected engine still advances the session: the caller's
   * stale outPressure is fed to the windows as if it had been read, and ok is false.
   */
  lemma FailedReadingStillFeeds(s: Session, duration: int, counter: int, prior: Outputs)
    requires WellFormed(s) && WARMUP_END < counter <= CALIB_END && s.stcnt < MAXAVG
    ensures var r := Evaluate(s, duration, true, None, counter, prior);
      && !r.ok
      && r.session.stcnt == s.stcnt + 1
      && r.session.stAvg[s.stcnt] == prior.pressure
  {
  }

  // ---------------------------------------------------------------------------
  // Whole runs

  /** The session after consecutive counters start, start+1, ... with samples xs. */
  function Run(s: Session, duration: int, start: int, xs: seq<real>): (r: Session)
    requires WellFormed(s)
    ensures WellFormed(r)
    decreases |xs|
  {
    if xs == [] then s
    else
      var prev := Run(s, duration, start, xs[..|xs| - 1]);
      Decide(prev, duration, start + |xs| - 1, xs[|xs| - 1], NoOutputs).session
  }

  /** Calibration counters feed both buffers exactly as Feed does and nothing else moves. */
  lemma {:induction false} RunCalibrationFeeds(s: Session, duration: int, xs: seq<real>)
    requires WellFormed(s) && |xs| <= MAXAVG
    ensures var r := Run(s, duration, WARMUP_END + 1, xs);
      && r.stAvg == Feed(s.stAvg, s.stcnt, xs).slots && r.stcnt == Feed(s.stAvg, s.stcnt, xs).count
      && r.spAvg == Feed(s.spAvg, s.spcnt, xs).slots && r.spcnt == Feed(s.spAvg, s.spcnt, xs).count
      && (xs != [] ==>
            var m := Feed(s.stAvg, s.stcnt, xs).mean;
            r.offsetpress == Offset(m) && r.startpress == m - Offset(m)
            && r.stoppress == Feed(s.spAvg, s.spcnt, xs).mean)
    decreases |xs|
  {
    if xs != [] {
      RunCalibrationFeeds(s, duration, xs[..|xs| - 1]);
    }
  }

  /**
   * Warm-up at counter 14 followed by the five calibration samples xs: both windows
   * hold exactly xs, and the frozen start pressure is min(mean(xs), 65) with the
   * offset making up the rest.
   */
  lemma CalibrationFreezesStart(s: Session, duration: int, p: real, xs: seq<real>)
    requires WellFormed(s) && |xs| == MAXAVG
    ensures var r := Run(Decide(s, duration, WARMUP_END, p, NoOutputs).session, duration, WARMUP_END + 1, xs);
      && r.stcnt == MAXAVG && r.spcnt == MAXAVG
      && r.stAvg == xs && r.spAvg == xs
      && r.offsetpress == Offset(Mean(xs))
      && r.startpress == Mean(xs) - Offset(Mean(xs))
      && r.stoppress == Mean(xs)
  {
    var w := Decide(s, duration, WARMUP_END, p, NoOutputs).session;
    RunCalibrationFeeds(w, duration, xs);
    FeedKeepsLastFive(w.stAvg, xs);
    FeedKeepsLastFive(w.spAvg, xs);
    FeedMean(w.stAvg, xs);
    FeedMean(w.spAvg, xs);
  }

  /** Five calibration samples of 70 kPa: offset 5, frozen start pressure 65. */
  lemma CalibrationScenario(s: Session, duration: int, p: real)
    requires WellFormed(s)
    ensures var r := Run(Decide(s, duration, WARMUP_END, p, NoOutputs).session, duration, WARMUP_END + 1,
                         [70.0, 70.0, 70.0, 70.0, 70.0]);
      r.offsetpress == 5.0 && r.startpress == 65.0 && r.stoppress == 70.0
  {
    var xs := [70.0, 70.0, 70.0, 70.0, 70.0];
    CalibrationFreezesStart(s, duration, p, xs);
    MeanOfConstant(xs, 70.0);
  }
}
