/**
 * The serial vacuum device as far as the decision logic sees it: the five-byte
 * request frame, the decoding of a reply, and measureOnce, which remembers the
 * last pressure it read. Port handling and byte transport are inputs here.
 */
module Device {
  import opened Wrappers
  import opened Calibration

  /** The ASCII bytes of a four-letter tag. */
  function Tag(s: string): (b: seq<bv8>)
    requires |s| == 4 && forall k :: 0 <= k < 4 ==> s[k] < 128 as char
    ensures |b| == 4
  {
    [s[0] as bv8, s[1] as bv8, s[2] as bv8, s[3] as bv8]
  }

  /**
   * VacuumDevice::buildCommand: always five bytes, a four-letter tag and a NUL tail;
   * channel 1 asks for VAC1, channel 2 for VAC2, any other channel sends STP3.
   */
  function BuildCommand(channel: int): (cmd: seq<bv8>)
    ensures |cmd| == 5 && cmd[4] == 0
    ensures forall k :: 0 <= k < 4 ==> cmd[k] != 0
    ensures cmd[..4] == Tag("VAC1") <==> channel == 1
    ensures cmd[..4] == Tag("VAC2") <==> channel == 2
    ensures cmd[..4] == Tag("STP3") <==> channel != 1 && channel != 2
  {
    var tag := if channel == 1 then "VAC1" else if channel == 2 then "VAC2" else "STP3";
    Tag(tag) + [0]
  }

  /** Two channels get the same frame exactly when they are equal or both mean "stop". */
  lemma BuildCommandInjective(a: int, b: int)
    ensures BuildCommand(a) == BuildCommand(b) <==> a == b || (a != 1 && a != 2 && b != 1 && b != 2)
  {
    if BuildCommand(a) == BuildCommand(b) {
      assert BuildCommand(a)[..4] == BuildCommand(b)[..4];
    }
  }

  /**
   * The decode step of measureOnce: an empty reply is a failure; otherwise the first
   * received byte, read as an unsigned code, is converted to kPa.
   */
  function DecodeReply(rx: seq<bv8>): (r: Option<real>)
    ensures r.None? <==> |rx| == 0
    ensures r.Some? ==> 0.0 <= r.value <= 100.0
  {
    if |rx| == 0 then None else Some(Convert(rx[0] as int))
  }

  /** Only the first byte of a reply matters; trailing bytes are ignored. */
  lemma DecodeFirstByteOnly(rx: seq<bv8>, more: seq<bv8>)
    requires |rx| > 0
    ensures DecodeReply(rx + more) == DecodeReply(rx) == DecodeReply(rx[..1])
  {
    assert (rx + more)[0] == rx[0];
  }

  class Device {
    /** The device's own record of the last pressure it read. */
    var lastPressure: real

    constructor ()
      ensures lastPressure == 0.0
    {
      lastPressure := 0.0;
    }

    /**
     * VacuumDevice::measureOnce. `open` is whether the port is open, `sendOk` whether
     * writing the frame succeeded and `rx` the bytes received within the timeout.
     * Returns the frame that was sent (nothing when the port is closed); on success the
     * decoded pressure is stored and returned, on failure the caller's value is kept.
     */
    method MeasureOnce(channel: int, open: bool, sendOk: bool, rx: seq<bv8>, pressureIn: real)
      returns (ok: bool, sent: seq<bv8>, pressureOut: real)
      modifies this
      ensures sent == if open then BuildCommand(channel) else []
      ensures ok <==> open && sendOk && |rx| > 0
      ensures ok ==> Some(pressureOut) == DecodeReply(rx) && lastPressure == pressureOut
      ensures !ok ==> pressureOut == pressureIn && lastPressure == old(lastPressure)
    {
      pressureOut := pressureIn;
      sent := [];
      if !open {
        return false, sent, pressureOut;
      }
      sent := BuildCommand(channel);
      if !sendOk {
        return false, sent, pressureOut;
      }
      var reply := DecodeReply(rx);
      if reply.None? {
        return false, sent, pressureOut;
      }
      lastPressure := reply.value;
      pressureOut := reply.value;
      ok := true;
    }
  }
}
