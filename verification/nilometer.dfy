/**
 * The SCW8916B driver: class DFRobot_Nilometer with its two front-ends
 * DFRobot_SCW8916B_UART and DFRobot_SCW8916B_IO (src/DFRobot_SCW8916B.cpp).
 *
 * Pin writes, pinMode and delay() have no effect the driver can observe and
 * are left out; the 100 ms poll delays survive as the tick counter t. The
 * OUT pin is a Signal or a Sample trace passed in, and the bytes the sensor
 * sends while the driver waits after a command are passed in as `reply`.
 */
module SCW8916B {
  import opened Layout
  import opened Transport
  import opened Protocol
  import opened LevelTiming

  /** buf[0] != 0 || buf[0] != 0xff, the extra test of ioSelfCheck's scan,
      holds of every byte. */
  lemma IoScanGuardAlwaysHolds(b: Byte)
    ensures b != 0 || b != 0xFF
  {
  }

  class Nilometer {
    const stream: Stream?
    const out: int
    const test: int
    const en: int
    const mode: DetectMode
    /** The cached self-check result `_rslt`. */
    var rslt: RawRslt

    /** DFRobot_SCW8916B_UART(s, en). */
    constructor Uart(s: Stream?, enPin: int)
      ensures mode == UartDetect && stream == s && en == enPin && out == -1 && test == -1
      ensures rslt == RawRslt(0, 0)
      ensures GetCalibrationMode() == Invalid && GetSensitivity() == Invalid
    {
      stream := s;
      out := -1;
      test := -1;
      en := enPin;
      mode := UartDetect;
      rslt := RawRslt(0, 0);
    }

    /** DFRobot_SCW8916B_IO(out, en, test, s). */
    constructor Level(outPin: int, enPin: int, testPin: int, s: Stream?)
      ensures mode == LevelDetect && stream == s && en == enPin && out == outPin && test == testPin
      ensures rslt == RawRslt(0, 0)
      ensures GetCalibrationMode() == Invalid && GetSensitivity() == Invalid
    {
      stream := s;
      out := outPin;
      test := testPin;
      en := enPin;
      mode := LevelDetect;
      rslt := RawRslt(0, 0);
    }

    // -------------------------------------------------------------------
    // The cached self-check result
    // -------------------------------------------------------------------

    /** getCalibrationMode: the calibration flag of a trusted cache, else 0xFF. */
    function GetCalibrationMode(): (m: Byte)
      reads this
      ensures m == Invalid <==> !rslt.ChecksumOk()
      ensures m != Invalid ==> m == DecodeSelfCheck(rslt.value).topt
      ensures m == CalibrationModeLowerLevel || m == CalibrationModeLowerAndUpperLevel || m == Invalid
    {
      if rslt.pad as int + rslt.value == 0xFF then DecodeSelfCheck(rslt.value).topt else Invalid
    }

    /** getSensitivity: the sensitivity field of a trusted cache, else 0xFF. */
    function GetSensitivity(): (level: Byte)
      reads this
      ensures level == Invalid <==> !rslt.ChecksumOk()
      ensures level != Invalid ==> level <= 7 && level == DecodeSelfCheck(rslt.value).sen
    {
      if rslt.pad as int + rslt.value == 0xFF then DecodeSelfCheck(rslt.value).sen else Invalid
    }

    // -------------------------------------------------------------------
    // Stream helpers
    // -------------------------------------------------------------------

    /** flush: reads until nothing is pending. */
    method Flush()
      modifies stream
      ensures stream != null ==> stream.rx == [] && stream.tx == old(stream.tx)
    {
      if stream != null {
        while stream.Available() > 0
          invariant stream.tx == old(stream.tx)
          decreases |stream.rx|
        {
          var c := stream.Read();
        }
      }
    }

    /** enableSensor: of the EN-pin power cycle only the drain of the stream
        between its two delays is observable. */
    method EnableSensor(enPin: int)
      modifies stream
      ensures stream != null ==> stream.tx == old(stream.tx)
      ensures stream != null ==> stream.rx == if enPin > -1 then [] else old(stream.rx)
    {
      if enPin > -1 {
        Flush();
      }
    }

    /** writeData. */
    method WriteData(data: seq<Byte>)
      requires stream != null
      modifies stream
      ensures stream.tx == old(stream.tx) + data && stream.rx == old(stream.rx)
    {
      stream.Write(data);
    }

    /** One `_s->read()` stored into a uint8_t: the k-th read of a call that
        found q pending. */
    method ReadByte(ghost q: seq<Byte>, ghost k: nat) returns (b: Byte)
      requires stream != null && stream.rx == Drop(q, k)
      modifies stream
      ensures b == ReadAt(q, k) && stream.rx == Drop(q, k + 1) && stream.tx == old(stream.tx)
    {
      var c := stream.Read();
      b := ToUint8(c);
    }

    /** readData: drops the oldest bytes until len remain (counting from
        `available()` truncated to 8 bits), then reads len bytes. */
    method ReadData(len: Byte) returns (buf: seq<Byte>, size: Byte)
      requires stream != null
      modifies stream
      ensures size == len && buf == ReadDataResult(old(stream.rx), len)
      ensures stream.rx == Drop(old(stream.rx), Discarded(|old(stream.rx)|, len) + len)
      ensures stream.tx == old(stream.tx)
    {
      ghost var q := stream.rx;
      var remain: Byte := stream.Available() % 256;
      ghost var d := 0;
      while remain > len
        invariant d == |q| % 256 - remain
        invariant d > 0 ==> remain >= len
        invariant stream.rx == Drop(q, d) && stream.tx == old(stream.tx)
        decreases remain
      {
        var val := ReadByte(q, d);
        remain := remain - 1;
        d := d + 1;
      }
      assert d == Discarded(|q|, len);
      buf := [];
      size := 0;
      var i := 0;
      while i < len
        invariant i <= len && size == i
        invariant buf == ReadDataResult(q, len)[..i]
        invariant stream.rx == Drop(q, d + i) && stream.tx == old(stream.tx)
      {
        var b := ReadByte(q, d + i);
        buf := buf + [b];
        size := size + 1;
        i := i + 1;
      }
    }

    // -------------------------------------------------------------------
    // begin, detectWater, checkCalibrationState
    // -------------------------------------------------------------------

    /** The UART loop shared by begin and checkCalibrationState: read a byte
        every 100 ms until 0xAA (true), a trusted status frame (false), or
        t > timeoutMs (false). */
    method PollForSentinel(timeoutMs: nat) returns (sentinel: bool)
      requires stream != null
      modifies stream
      ensures sentinel <==> SentinelFirst(old(stream.rx), PollLimit(timeoutMs))
      ensures stream.rx == Drop(old(stream.rx), PollReads(old(stream.rx), 0, PollLimit(timeoutMs)))
      ensures stream.tx == old(stream.tx)
    {
      ghost var q := stream.rx;
      ghost var n := PollLimit(timeoutMs);
      var t := 0;
      var k := 1;
      var val1 := ReadByte(q, 0);
      while val1 != ErrCalibrationCode
        invariant 1 <= k <= n && t == 100 * (k - 1)
        invariant val1 == ReadAt(q, k - 1)
        invariant stream.rx == Drop(q, k) && stream.tx == old(stream.tx)
        invariant forall j :: 0 <= j < k - 1 ==> !PollStop(ReadAt(q, j))
        decreases n - k
      {
        t := t + 100;
        if WaterFrameValid(val1) {
          NoSentinelAfterStop(q, n, k - 1);
          return false;
        }
        if t > timeoutMs {
          NoSentinelAfterStop(q, n, k - 1);
          return false;
        }
        val1 := ReadByte(q, k);
        k := k + 1;
      }
      SentinelStop(q, n, k - 1);
      return true;
    }

    /** begin. */
    method Begin(outLevels: Signal) returns (r: int)
      modifies stream
      ensures r == -1 || r == 0 || r == ErrCalibrationCode
      ensures r == -1 <==> (mode == UartDetect && stream == null) || (mode == LevelDetect && out == -1)
      ensures mode == UartDetect && stream != null ==>
                && (r == ErrCalibrationCode <==> SentinelFirst(old(stream.rx), PollLimit(8000)))
                && stream.rx == Drop(old(stream.rx), PollReads(old(stream.rx), 0, PollLimit(8000)))
                && stream.tx == old(stream.tx)
      ensures mode == LevelDetect ==> r != ErrCalibrationCode
      ensures mode == LevelDetect && stream != null ==> stream.rx == old(stream.rx) && stream.tx == old(stream.tx)
    {
      if mode == UartDetect {
        if stream == null {
          return -1;
        }
        var sentinel := PollForSentinel(8000);
        r := if sentinel then ErrCalibrationCode else 0;
      } else {
        r := BeginLevel(outLevels);
      }
    }

    /** begin in level mode: wait up to 8 s for the level to change, then up
        to five reads for another change. Every path returns 0. */
    method BeginLevel(outLevels: Signal) returns (r: int)
      ensures r == if out == -1 then -1 else 0
    {
      if out == -1 {
        return -1;
      }
      var count := 0;
      var t := 0;
      var val := outLevels(0);
      var k := 1;
      var val1 := outLevels(k);
      while val1 == val
        invariant 1 <= k <= PollLimit(8000) && t == 100 * (k - 1)
        decreases PollLimit(8000) - k
      {
        t := t + 100;
        if t > 8000 {
          return 0;
        }
        k := k + 1;
        val1 := outLevels(k);
      }
      val := val1;
      var i := 0;
      while i < 5
        invariant 0 <= i <= 5 && count == 0
      {
        k := k + 1;
        val1 := outLevels(k);
        if val != val1 {  // val + val1 == 1 for levels 0 and 1
          count := count + 1;
          return 0;
        }
        i := i + 1;
      }
      // count is only incremented right before a return, so the test
      // `count < 2` always passes and `return ERR_CALIBRATION_CODE` is dead
      assert count < 2;
      r := 0;
    }

    /** detectWater (the trailing 100 ms delay is not modelled). */
    method DetectWater(outLevels: Signal) returns (flag: bool)
      requires mode == UartDetect ==> stream != null
      modifies stream
      ensures mode == UartDetect ==>
                flag == UartWaterSeen(old(stream.rx)) && stream.rx == [] && stream.tx == old(stream.tx)
      ensures mode == LevelDetect ==> flag == outLevels(0)
      ensures mode == LevelDetect && stream != null ==> stream.rx == old(stream.rx) && stream.tx == old(stream.tx)
    {
      flag := false;
      if mode == UartDetect {
        var buf, size := ReadData(1);
        if WaterFrameValid(buf[0]) {
          flag := DecodeWaterStatus(buf[0]).ch1;
        }
        Flush();
      } else {
        if outLevels(0) {
          flag := true;
        }
      }
    }

    /** checkCalibrationState. */
    method CheckCalibrationState(outLevels: Signal) returns (done: bool)
      requires mode == UartDetect ==> stream != null
      modifies stream
      ensures mode == UartDetect ==>
                && (!done <==> SentinelFirst(old(stream.rx), PollLimit(1000)))
                && stream.rx == Drop(old(stream.rx), PollReads(old(stream.rx), 0, PollLimit(1000)))
                && stream.tx == old(stream.tx)
      ensures mode == LevelDetect ==> (!done <==> ToggleConfirmed(outLevels, PollLimit(1000)))
      ensures mode == LevelDetect && stream != null ==> stream.rx == old(stream.rx) && stream.tx == old(stream.tx)
    {
      if mode == UartDetect {
        var sentinel := PollForSentinel(1000);
        done := !sentinel;
      } else {
        done := CheckCalibrationStateLevel(outLevels);
      }
    }

    /** checkCalibrationState in level mode: false only when the level changes
        within 1 s and then toggles on each of the next five reads. */
    method CheckCalibrationStateLevel(outLevels: Signal) returns (done: bool)
      ensures !done <==> ToggleConfirmed(outLevels, PollLimit(1000))
    {
      var t := 0;
      var val := outLevels(0);
      var k := 1;
      var val1 := outLevels(k);
      while val1 == val
        invariant 1 <= k <= PollLimit(1000) && t == 100 * (k - 1)
        invariant val == outLevels(0) && val1 == outLevels(k)
        invariant forall i :: 1 <= i < k ==> outLevels(i) == outLevels(0)
        decreases PollLimit(1000) - k
      {
        t := t + 100;
        if t > 1000 {
          assert forall k' :: 1 <= k' <= PollLimit(1000) ==> !FirstChangeAt(outLevels, k');
          return true;
        }
        k := k + 1;
        val1 := outLevels(k);
      }
      assert FirstChangeAt(outLevels, k);
      val := val1;
      var i := 0;
      while i < 5
        invariant 0 <= i <= 5
        invariant val == outLevels(k + i)
        invariant AlternatesAfter(outLevels, k, i)
      {
        val1 := outLevels(k + i + 1);
        if val == val1 {  // val + val1 != 1 for levels 0 and 1
          return true;
        }
        val := val1;
        i := i + 1;
      }
      return false;
    }

    // -------------------------------------------------------------------
    // selfCheck
    // -------------------------------------------------------------------

    /** The scan shared by uartSelfCheck and ioSelfCheck: read what is
        available pairwise and cache the first pair that sums to 0xFF. */
    method ScanSelfCheckReply() returns (ok: bool)
      requires stream != null
      modifies this, stream
      ensures PairScan(old(stream.rx), ok, old(rslt), rslt, stream.rx)
      ensures stream.tx == old(stream.tx)
    {
      ghost var q := stream.rx;
      var remain := stream.Available();
      if remain >= 2 {
        var b0 := ReadByte(q, 0);
        var i := 0;
        while i < remain - 1
          invariant 0 <= i <= remain - 1
          invariant b0 == q[i]
          invariant stream.rx == Drop(q, i + 1) && stream.tx == old(stream.tx)
          invariant rslt == old(rslt)
          invariant forall j: nat :: j < i ==> !PairAt(q, j)
        {
          var b1 := ReadByte(q, i + 1);
          if b0 as int + b1 == 0xFF {
            rslt := RawRslt(b0, b1);
            assert FirstPairAt(q, i);
            return true;
          }
          b0 := b1;
          i := i + 1;
        }
      }
      return false;
    }

    /** uartSelfCheck: power-cycle the sensor, send 0x34, scan what arrives
        during the one-second wait (`reply`). */
    method UartSelfCheck(enPin: int, reply: seq<Byte>) returns (ok: bool)
      modifies this, stream
      ensures enPin < 0 || stream == null ==> !ok && rslt == old(rslt)
      ensures enPin < 0 && stream != null ==> stream.rx == old(stream.rx) && stream.tx == old(stream.tx)
      ensures enPin >= 0 && stream != null ==>
                && stream.tx == old(stream.tx) + [SelfCheckCmd]
                && PairScan(reply, ok, old(rslt), rslt, stream.rx)
      ensures ok ==> GetSensitivity() != Invalid && GetCalibrationMode() != Invalid
    {
      if enPin < 0 || stream == null {
        return false;
      }
      EnableSensor(enPin);
      WriteData([SelfCheckCmd]);
      stream.Receive(reply);
      assert stream.rx == reply;
      ok := ScanSelfCheckReply();
      PairScanCachesValidResult(reply, ok, old(rslt), rslt, stream.rx);
    }

    /** ioSelfCheck: the TEST-pin pulse makes the sensor report on its TX
        line; scan what arrives (`reply`). Its stream argument is always
        `_s`, the driver's own stream. */
    method IoSelfCheck(enPin: int, testPin: int, reply: seq<Byte>) returns (ok: bool)
      modifies this, stream
      ensures enPin < 0 || testPin < 0 || out < 0 || stream == null ==> !ok && rslt == old(rslt)
      ensures (enPin < 0 || testPin < 0 || out < 0) && stream != null ==>
                stream.rx == old(stream.rx) && stream.tx == old(stream.tx)
      ensures enPin >= 0 && testPin >= 0 && out >= 0 && stream != null ==>
                && stream.tx == old(stream.tx)
                && PairScan(reply, ok, old(rslt), rslt, stream.rx)
      ensures ok ==> GetSensitivity() != Invalid && GetCalibrationMode() != Invalid
    {
      if enPin < 0 || testPin < 0 || out < 0 || stream == null {
        return false;
      }
      ghost var before := rslt;
      EnableSensor(enPin);
      stream.Receive(reply);
      assert stream.rx == reply && stream.tx == old(stream.tx);
      // the scan's extra test on buf[0] is vacuous (IoScanGuardAlwaysHolds)
      ok := ScanSelfCheckReply();
      assert PairScan(reply, ok, before, rslt, stream.rx);
      PairScanCachesValidResult(reply, ok, before, rslt, stream.rx);
    }

    /** selfCheck. */
    method SelfCheck(reply: seq<Byte>) returns (ok: bool)
      modifies this, stream
      ensures mode == UartDetect && (en < 0 || stream == null) ==> !ok && rslt == old(rslt)
      ensures mode == UartDetect && en < 0 && stream != null ==>
                stream.rx == old(stream.rx) && stream.tx == old(stream.tx)
      ensures mode == UartDetect && en >= 0 && stream != null ==>
                && stream.tx == old(stream.tx) + [SelfCheckCmd]
                && PairScan(reply, ok, old(rslt), rslt, stream.rx)
      ensures mode == LevelDetect && (en < 0 || test < 0 || out < 0 || stream == null) ==> !ok && rslt == old(rslt)
      ensures mode == LevelDetect && (en < 0 || test < 0 || out < 0) && stream != null ==>
                stream.rx == old(stream.rx) && stream.tx == old(stream.tx)
      ensures mode == LevelDetect && en >= 0 && test >= 0 && out >= 0 && stream != null ==>
                && stream.tx == old(stream.tx)
                && PairScan(reply, ok, old(rslt), rslt, stream.rx)
      ensures ok ==> GetSensitivity() != Invalid && GetCalibrationMode() != Invalid
    {
      if mode == UartDetect {
        ok := UartSelfCheck(en, reply);
      } else {
        ok := IoSelfCheck(en, test, reply);
      }
    }

    // -------------------------------------------------------------------
    // calibration
    // -------------------------------------------------------------------

    /** uartWaterLevelCalibration: send cmd, then look among the bytes that
        arrived during the wait for cmd with its nibbles swapped. */
    method UartWaterLevelCalibration(enPin: int, cmd: Byte, reply: seq<Byte>) returns (ok: bool)
      requires enPin >= 0 ==> stream != null
      modifies stream
      ensures enPin < 0 ==> !ok
      ensures enPin < 0 && stream != null ==> stream.rx == old(stream.rx) && stream.tx == old(stream.tx)
      ensures enPin >= 0 ==>
                && stream.tx == old(stream.tx) + [cmd]
                && (ok <==> NibbleSwap(cmd) in reply)
                && (ok ==> exists k :: 0 <= k < |reply| && reply[k] == NibbleSwap(cmd)
                                       && NibbleSwap(cmd) !in reply[..k] && stream.rx == reply[k + 1..])
                && (!ok ==> stream.rx == [])
    {
      if enPin < 0 {
        return false;
      }
      EnableSensor(enPin);
      WriteData([cmd]);
      var ack := NibbleSwap(cmd);
      stream.Receive(reply);
      var remain := stream.Available();
      var i := 0;
      while i < remain
        invariant 0 <= i <= remain == |reply|
        invariant stream.rx == Drop(reply, i) && stream.tx == old(stream.tx) + [cmd]
        invariant ack !in reply[..i]
      {
        var val := ReadByte(reply, i);
        if val == ack {
          assert reply[i + 1..] == Drop(reply, i + 1);
          return true;
        }
        assert reply[..i + 1] == reply[..i] + [reply[i]];
        i := i + 1;
      }
      assert reply[..i] == reply;
      return false;
    }

    /** ioWaterLevelCalibration: after the TEST-pin pulse of t ms, watch the
        OUT pin for one second for the calibration pulse. */
    method IoWaterLevelCalibration(enPin: int, testPin: int, t: Byte, trace: seq<Sample>) returns (ok: bool)
      requires enPin >= 0 && testPin >= 0 && out >= 0 ==> WindowCovered(trace)
      modifies stream
      ensures ok <==> enPin >= 0 && testPin >= 0 && out >= 0 && CalibrationPulseSeen(trace, t)
      ensures stream != null ==> stream.tx == old(stream.tx)
      ensures stream != null ==>
                stream.rx == if enPin >= 0 && testPin >= 0 && out >= 0 then [] else old(stream.rx)
    {
      if enPin < 0 || testPin < 0 || out < 0 {
        return false;
      }
      EnableSensor(enPin);
      ok := CalibrationPulseWindow(t, trace);
    }

    /** The sampling loop of ioWaterLevelCalibration. interT1 holds the
        length of the last low interval, interT2 that of the high interval a
        falling edge ends; every millis() of one pass reads that sample's time. */
    method CalibrationPulseWindow(t: Byte, trace: seq<Sample>) returns (ok: bool)
      requires WindowCovered(trace)
      ensures ok <==> CalibrationPulseSeen(trace, t)
    {
      var t1: int := trace[0].at;
      var val1 := trace[0].high;
      var curT: int := t1;
      var interT1: int := 0;
      var interT2: int := 0;
      var i := 1;
      var stop := false;
      while !stop
        invariant 1 <= i < |trace| && curT == trace[0].at
        invariant !stop ==> Tracking(trace, i - 1, val1, t1, interT1)
        invariant forall m :: 1 <= m < i ==> trace[m].at - curT <= 1000
        invariant forall k :: 1 <= k < i ==> !PulseAt(trace, t, k)
        invariant stop ==> trace[i].at - curT > 1000 && !PulseAt(trace, t, i)
        decreases |trace| - i, !stop
      {
        var val := trace[i].high;
        var now := trace[i].at;
        TrackStep(trace, t, i, val1, t1, interT1);
        if val1 != val {
          if val1 {
            if interT1 >= t - 10 {
              interT2 := now - t1;
              if interT2 > 500 {
                assert Processed(trace, i);
                return true;
              } else {
                interT1 := 0;
                interT2 := 0;
              }
            }
          } else {
            interT1 := now - t1;
          }
          t1 := now;
          val1 := val;
        }
        if now - curT > 1000 {
          stop := true;
        } else {
          i := i + 1;
        }
      }
      NoPulseInWindow(trace, t, i);
      return false;
    }

    /** calibration: lower-level calibration in the driver's mode; UART mode
        empties the stream afterwards. */
    method Calibration(reply: seq<Byte>, trace: seq<Sample>) returns (ok: bool)
      requires mode == UartDetect && en >= 0 ==> stream != null
      requires mode == LevelDetect && en >= 0 && test >= 0 && out >= 0 ==> WindowCovered(trace)
      modifies stream
      ensures mode == UartDetect ==> (ok <==> en >= 0 && NibbleSwap(CalibUartCmdLwl) in reply)
      ensures mode == UartDetect && stream != null ==>
                stream.rx == [] && stream.tx == old(stream.tx) + (if en >= 0 then [CalibUartCmdLwl] else [])
      ensures mode == LevelDetect ==>
                (ok <==> en >= 0 && test >= 0 && out >= 0 && CalibrationPulseSeen(trace, CalibIoTimeLwl))
      ensures mode == LevelDetect && stream != null ==>
                && stream.tx == old(stream.tx)
                && stream.rx == if en >= 0 && test >= 0 && out >= 0 then [] else old(stream.rx)
    {
      if mode == UartDetect {
        ok := UartWaterLevelCalibration(en, CalibUartCmdLwl, reply);
        Flush();
      } else {
        ok := IoWaterLevelCalibration(en, test, CalibIoTimeLwl, trace);
      }
    }

    // -------------------------------------------------------------------
    // setSensitivityLevel (DFRobot_SCW8916B_UART only)
    // -------------------------------------------------------------------

    /** setSensitivityLevel: send the frame, then read every 100 ms for the
        ack 0x53 until t > 2000. */
    method SetSensitivityLevel(level: Byte, reply: seq<Byte>) returns (ok: bool)
      requires mode == UartDetect && stream != null
      modifies stream
      ensures stream.tx == old(stream.tx) + SensitivityFrame(level)
      ensures var q := (if en > -1 then [] else old(stream.rx)) + reply;
              && (ok <==> AckWithin(q, PollLimit(2000)))
              && (ok ==> stream.rx == [])
              && (!ok ==> stream.rx == Drop(q, PollLimit(2000)))
    {
      var buf := BuildSensitivityFrame(level);
      EnableSensor(en);
      WriteData(buf);
      stream.Receive(reply);
      ok := PollForAck();
    }

    /** The frame setSensitivityLevel builds, its checksum from getCs. */
    method BuildSensitivityFrame(level: Byte) returns (buf: seq<Byte>)
      ensures buf == SensitivityFrame(level)
    {
      buf := [SetSensitivityCmd, level % 8, SensitivityFiller, SensitivityFiller, SensitivityFiller, 0];
      assert buf[1..][..4] == [level % 8, SensitivityFiller, SensitivityFiller, SensitivityFiller];
      var cs := GetCs(buf[1..], 4);
      buf := buf[5 := cs];
    }

    /** The ack loop of setSensitivityLevel; on the ack the stream is flushed. */
    method PollForAck() returns (ok: bool)
      requires stream != null
      modifies stream
      ensures ok <==> AckWithin(old(stream.rx), PollLimit(2000))
      ensures ok ==> stream.rx == []
      ensures !ok ==> stream.rx == Drop(old(stream.rx), PollLimit(2000))
      ensures stream.tx == old(stream.tx)
    {
      ghost var q := stream.rx;
      var t := 0;
      var k := 1;
      var val := ReadByte(q, 0);
      while val != SensitivityAck
        invariant 1 <= k <= PollLimit(2000) && t == 100 * (k - 1)
        invariant val == ReadAt(q, k - 1)
        invariant stream.rx == Drop(q, k) && stream.tx == old(stream.tx)
        invariant forall j :: 0 <= j < k - 1 ==> ReadAt(q, j) != SensitivityAck
        decreases PollLimit(2000) - k
      {
        t := t + 100;
        if t > 2000 {
          return false;
        }
        val := ReadByte(q, k);
        k := k + 1;
      }
      Flush();
      return true;
    }
  }

  /** A poll that stopped at read s on the sentinel found it first, and
      made exactly that many reads. */
  lemma SentinelStop(q: seq<Byte>, n: nat, s: nat)
    requires s < n
    requires ReadAt(q, s) == ErrCalibrationCode
    requires forall j :: 0 <= j < s ==> !PollStop(ReadAt(q, j))
    ensures SentinelFirst(q, n)
    ensures PollReads(q, 0, n) == s + 1
  {
  }

  /** A poll that stopped at read s (a trusted frame, or the last read
      allowed) without having seen 0xAA did not find the sentinel first. */
  lemma NoSentinelAfterStop(q: seq<Byte>, n: nat, s: nat)
    requires s < n
    requires ReadAt(q, s) != ErrCalibrationCode
    requires forall j :: 0 <= j < s ==> !PollStop(ReadAt(q, j))
    requires WaterFrameValid(ReadAt(q, s)) || s == n - 1
    ensures !SentinelFirst(q, n)
    ensures PollReads(q, 0, n) == s + 1
  {
  }
}
