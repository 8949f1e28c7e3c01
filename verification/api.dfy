/**
 * The C binding layer of the backend (vacuum_backend_api.cpp): the ';'-joined port
 * list handed out through a caller buffer, the packing of a decision into the flat
 * VacuumMeasureResult record, and the two debug measurements.
 */
module Api {
  import opened Wrappers
  import opened Decision
  import opened Device
  import opened Backend

  // ---------------------------------------------------------------------------
  // Port list

  /**
   * The string vacuum_list_ports builds: names appended in order, with ';' before a
   * name whenever the string built so far is not empty. It is empty exactly when every
   * name is, so a list of empty names writes just the NUL although its count is not 0.
   */
  function Joined(names: seq<string>): (j: string)
    ensures j == "" <==> forall k :: 0 <= k < |names| ==> names[k] == ""
  {
    if names == [] then ""
    else
      var prev := Joined(names[..|names| - 1]);
      if prev == "" then names[|names| - 1] else prev + ";" + names[|names| - 1]
  }

  /** Reference join: the names separated by ';', no leading or trailing separator. */
  function Join(names: seq<string>): string
  {
    if names == [] then ""
    else if |names| == 1 then names[0]
    else names[0] + ";" + Join(names[1..])
  }

  /** The names with their leading empty names removed. */
  function DropLeadingEmpty(names: seq<string>): (r: seq<string>)
    ensures r == [] || r[0] != ""
  {
    if names != [] && names[0] == "" then DropLeadingEmpty(names[1..]) else names
  }

  /** The caller's inverse: a ';'-separated string cut at every separator. */
  function Split(s: string): (parts: seq<string>)
    ensures |parts| > 0
    decreases |s|
  {
    if s == [] then [""]
    else if s[0] == ';' then [""] + Split(s[1..])
    else
      var rest := Split(s[1..]);
      [[s[0]] + rest[0]] + rest[1..]
  }

  lemma {:induction false} JoinAppend(names: seq<string>, n: string)
    ensures Join(names + [n]) == if names == [] then n else Join(names) + ";" + n
    decreases |names|
  {
    if |names| > 1 {
      JoinAppend(names[1..], n);
      assert (names + [n])[1..] == names[1..] + [n];
    } else if |names| == 1 {
      assert names + [n] == [names[0], n];
    }
  }

  lemma {:induction false} JoinStartsWithFirst(names: seq<string>)
    requires names != []
    ensures |Join(names)| >= |names[0]| && Join(names)[..|names[0]|] == names[0]
  {
  }

  lemma {:induction false} DropLeadingEmptyAppend(names: seq<string>, n: string)
    ensures DropLeadingEmpty(names + [n]) ==
      if DropLeadingEmpty(names) == [] then DropLeadingEmpty([n]) else DropLeadingEmpty(names) + [n]
    decreases |names|
  {
    if names != [] {
      assert (names + [n])[1..] == names[1..] + [n];
      if names[0] == "" {
        DropLeadingEmptyAppend(names[1..], n);
      }
    }
  }

  /**
   * The built string is the reference join of the names once leading empty names are
   * dropped: an empty first name contributes no separator, later empty names do.
   */
  lemma {:induction false} JoinedIsJoin(names: seq<string>)
    ensures Joined(names) == Join(DropLeadingEmpty(names))
    decreases |names|
  {
    if names != [] {
      var init, n := names[..|names| - 1], names[|names| - 1];
      assert names == init + [n];
      JoinedIsJoin(init);
      DropLeadingEmptyAppend(init, n);
      var d := DropLeadingEmpty(init);
      if d == [] {
        assert Joined(init) == "";
      } else {
        JoinStartsWithFirst(d);
        assert Joined(init) != "";
        JoinAppend(d, n);
      }
    }
  }

  /** With non-empty names (as port names are) the built string is the plain join. */
  lemma JoinedNonEmptyNames(names: seq<string>)
    requires forall k :: 0 <= k < |names| ==> names[k] != ""
    ensures Joined(names) == Join(names)
  {
    JoinedIsJoin(names);
  }

  lemma {:induction false} SplitName(a: string, rest: string)
    requires forall k :: 0 <= k < |a| ==> a[k] != ';'
    ensures Split(a + rest) == [a + Split(rest)[0]] + Split(rest)[1..]
    decreases |a|
  {
    if a != [] {
      assert (a + rest)[1..] == a[1..] + rest;
      SplitName(a[1..], rest);
      var r := Split(a[1..] + rest);
      assert a[0] != ';';
      assert Split(a + rest) == [[a[0]] + r[0]] + r[1..];
      assert r[0] == a[1..] + Split(rest)[0] && r[1..] == Split(rest)[1..];
      assert [a[0]] + (a[1..] + Split(rest)[0]) == a + Split(rest)[0];
    } else {
      var sr := Split(rest);
      assert a + rest == rest && a + sr[0] == sr[0];
      assert [sr[0]] + sr[1..] == sr;
    }
  }

  /** Cutting a name, a ';' and the rest gives the name followed by the rest's parts. */
  lemma SplitSeparated(a: string, b: string)
    requires ';' !in a
    ensures Split(a + (";" + b)) == [a] + Split(b)
  {
    SplitName(a, ";" + b);
    assert (";" + b)[1..] == b;
    assert a + "" == a;
  }

  /** Cutting the reference join at every ';' gives the names back. */
  lemma {:induction false} SplitJoin(names: seq<string>)
    requires names != []
    requires forall k :: 0 <= k < |names| ==> ';' !in names[k]
    ensures Split(Join(names)) == names
    decreases |names|
  {
    if |names| == 1 {
      SplitName(names[0], "");
      assert names[0] + "" == names[0];
    } else {
      SplitJoin(names[1..]);
      assert Join(names) == names[0] + (";" + Join(names[1..]));
      SplitSeparated(names[0], Join(names[1..]));
      assert names == [names[0]] + names[1..];
    }
  }

  /**
   * Round trip: a caller that cuts the string at every ';' gets back exactly the port
   * names, provided there is at least one and no name is empty or holds a ';'.
   */
  lemma SplitJoined(names: seq<string>)
    requires names != []
    requires forall k :: 0 <= k < |names| ==> names[k] != "" && ';' !in names[k]
    ensures Split(Joined(names)) == names
  {
    JoinedNonEmptyNames(names);
    SplitJoin(names);
  }

  /**
   * vacuum_list_ports: refresh the port list, join it, then follow the buffer protocol.
   * A non-positive size asks for the size needed (with the NUL); a buffer too small gets
   * -1 and is left alone; otherwise the string and its NUL are copied to the front of
   * the buffer and the number of ports is returned.
   */
  method ListPorts(engine: Engine, available: seq<string>, buffer: array<char>, bufferSize: int)
    returns (r: int)
    requires bufferSize <= buffer.Length
    modifies engine`ports, buffer
    ensures engine.ports == available
    ensures var j := Joined(available);
      && (bufferSize <= 0 ==> r == |j| + 1 && buffer[..] == old(buffer[..]))
      && (0 < bufferSize < |j| + 1 ==> r == -1 && buffer[..] == old(buffer[..]))
      && (0 < bufferSize && |j| + 1 <= bufferSize ==>
            && r == |available|
            && buffer[..|j| + 1] == j + ['\0']
            && buffer[|j| + 1..] == old(buffer[|j| + 1..]))
  {
    engine.RefreshPorts(available);
    var count := engine.PortCount();
    var joined := "";
    for i := 0 to count
      invariant engine.ports == available
      invariant joined == Joined(available[..i])
    {
      assert available[..i + 1][..i] == available[..i];
      var name := engine.PortName(i);
      if name.None? {
        continue;
      }
      if joined != "" {
        joined := joined + ";";
      }
      joined := joined + name.value;
    }
    assert available[..count] == available;

    if bufferSize <= 0 {
      return |joined| + 1;
    }
    if |joined| + 1 > bufferSize {
      return -1;
    }
    var cstr := joined + ['\0'];
    for k := 0 to |cstr|
      invariant engine.ports == available
      invariant forall m :: 0 <= m < k ==> buffer[m] == cstr[m]
      invariant forall m :: k <= m < buffer.Length ==> buffer[m] == old(buffer[m])
    {
      buffer[k] := cstr[k];
    }
    assert buffer[..|cstr|] == cstr;
    assert buffer[|cstr|..] == old(buffer[|cstr|..]);
    r := count;
  }

  // ---------------------------------------------------------------------------
  // Decision results

  /** The flat record vacuum_measure_decide returns; flags are 1 or 0. */
  datatype MeasureResult = MeasureResult(
    pressure: real, startPressure: real, stopPressure: real, diffPressure: real,
    pass: int, stop: int, ok: int)

  /** A C flag: 1 for true, 0 for false. */
  function Flag(b: bool): (i: int)
    ensures i == 0 || i == 1
    ensures i == 1 <==> b
  {
    if b then 1 else 0
  }

  /** Every output copied into the record, each flag as 1 or 0. */
  function Pack(ok: bool, out: Outputs): (r: MeasureResult)
    ensures r.pressure == out.pressure && r.startPressure == out.startPressure
    ensures r.stopPressure == out.stopPressure && r.diffPressure == out.diffPressure
    ensures r.pass == Flag(out.pass) && r.stop == Flag(out.stop) && r.ok == Flag(ok)
  {
    MeasureResult(out.pressure, out.startPressure, out.stopPressure, out.diffPressure,
                  Flag(out.pass), Flag(out.stop), Flag(ok))
  }

  /** Packing loses nothing: the record determines ok and all six outputs. */
  lemma PackLossless(ok1: bool, o1: Outputs, ok2: bool, o2: Outputs)
    requires Pack(ok1, o1) == Pack(ok2, o2)
    ensures ok1 == ok2 && o1 == o2
  {
    assert Flag(o1.pass) == Flag(o2.pass);
    assert Flag(o1.stop) == Flag(o2.stop);
    assert Flag(ok1) == Flag(ok2);
  }

  /**
   * vacuum_measure_decide: one call of measureAndDecide with zero-initialised locals,
   * packed. The reading stands for the device's answer on the requested channel.
   */
  method MeasureDecide(engine: Engine, connected: bool, reading: Option<real>, counter: int)
    returns (res: MeasureResult)
    requires engine.Valid()
    modifies engine`startpress, engine`stoppress, engine`offsetpress, engine`stcnt, engine`spcnt
    modifies engine.stAvg, engine.spAvg
    ensures engine.Valid()
    ensures var r := Evaluate(old(engine.Snapshot()), engine.configuredDuration, connected, reading, counter, NoOutputs);
      engine.Snapshot() == r.session && res == Pack(r.ok, r.out)
  {
    var ok, out := engine.MeasureAndDecide(connected, reading, counter, NoOutputs);
    res := Pack(ok, out);
  }

  /** vacuum_debug_measure_once2: the measured pressure after a decision step, or -1. */
  method DebugMeasureOnce2(engine: Engine, connected: bool, reading: Option<real>, cnt: int)
    returns (p: real)
    requires engine.Valid()
    modifies engine`startpress, engine`stoppress, engine`offsetpress, engine`stcnt, engine`spcnt
    modifies engine.stAvg, engine.spAvg
    ensures engine.Valid()
    ensures var r := Evaluate(old(engine.Snapshot()), engine.configuredDuration, connected, reading, cnt, NoOutputs);
      engine.Snapshot() == r.session
    ensures p == if connected && reading.Some? then reading.value else -1.0
  {
    var ok, out := engine.MeasureAndDecide(connected, reading, cnt, NoOutputs);
    if !ok {
      return -1.0;
    }
    p := out.pressure;
  }

  /**
   * vacuum_debug_measure_once: measureOnceInternal fails when not connected or when the
   * device gives no reading; failure is reported as -1.
   */
  function DebugMeasureOnce(connected: bool, reading: Option<real>): (p: real)
    ensures connected && reading.Some? ==> p == reading.value
    ensures !(connected && reading.Some?) ==> p == -1.0
    ensures reading.Some? && reading.value >= 0.0 ==> (p < 0.0 <==> !connected)
  {
    if connected && reading.Some? then reading.value else -1.0
  }

  /**
   * For readings decoded from a device reply the sentinel is unambiguous: the result is
   * -1 exactly when the measurement failed, and otherwise a pressure in [0, 100].
   */
  lemma DebugSentinelUnambiguous(connected: bool, rx: seq<bv8>)
    ensures var p := DebugMeasureOnce(connected, DecodeReply(rx));
      && (p == -1.0 <==> !connected || |rx| == 0)
      && (connected && |rx| > 0 ==> 0.0 <= p <= 100.0)
  {
  }

  /** vacuum_get_last_pass: the quick-check verdict as 1 (pass) or 0 (fail). */
  function LastPassFlag(engine: Engine): (i: int)
    reads engine
    ensures i == 1 <==> engine.lastPass
    ensures i == 0 <==> !engine.lastPass
  {
    Flag(engine.lastPass)
  }
}
