/**
 * The UART protocol of the SCW8916B driver as pure definitions: the additive
 * checksum, the set-sensitivity frame, and what the driver's scans and polls
 * over the received bytes decide (src/DFRobot_SCW8916B.cpp).
 */
module Protocol {
  import opened Layout
  import opened Transport

  // ---------------------------------------------------------------------
  // getCs: additive 8-bit checksum
  // ---------------------------------------------------------------------

  /** The unbounded sum of the bytes. */
  function Sum(s: seq<Byte>): nat
  {
    if s == [] then 0 else Sum(s[..|s| - 1]) + s[|s| - 1]
  }

  /** `getCs(data, len)`: the byte-wise sum of the first len bytes, kept in
      a uint8_t that wraps after every addition. */
  method GetCs(data: seq<Byte>, len: Byte) returns (cs: Byte)
    requires len <= |data|
    ensures cs == Sum(data[..len]) % 256
  {
    var sum: Byte := 0;
    var i: Byte := 0;
    while i < len
      invariant i <= len
      invariant sum == Sum(data[..i]) % 256
    {
      assert data[..i + 1][..i] == data[..i];
      WrapAdd(Sum(data[..i]), data[i]);
      sum := (sum + data[i]) % 256;
      i := i + 1;
    }
    cs := sum % 256;  // `sum & 0xff`
  }

  /** Adding to a wrapped uint8_t wraps the unbounded sum. */
  lemma WrapAdd(a: nat, x: Byte)
    ensures (a % 256 + x) % 256 == (a + x) % 256
  {
    assert a == 256 * (a / 256) + a % 256;
  }

  lemma {:induction false} SumAppend(a: seq<Byte>, b: seq<Byte>)
    ensures Sum(a + b) == Sum(a) + Sum(b)
    decreases |b|
  {
    if b == [] {
      assert a + b == a;
    } else {
      assert (a + b)[..|a + b| - 1] == a + b[..|b| - 1];
      SumAppend(a, b[..|b| - 1]);
    }
  }

  /** Replacing one byte changes the sum by exactly the difference. */
  lemma SumUpdate(s: seq<Byte>, i: nat, x: Byte)
    requires i < |s|
    ensures Sum(s[i := x]) == Sum(s) - s[i] + x
  {
    assert s == s[..i] + [s[i]] + s[i + 1..];
    assert s[i := x] == s[..i] + [x] + s[i + 1..];
    SumAppend(s[..i] + [s[i]], s[i + 1..]);
    SumAppend(s[..i], [s[i]]);
    SumAppend(s[..i] + [x], s[i + 1..]);
    SumAppend(s[..i], [x]);
    assert Sum([s[i]]) == s[i] by { assert [s[i]][..0] == []; }
    assert Sum([x]) == x by { assert [x][..0] == []; }
  }

  /** The checksum catches every corruption of a single byte. */
  lemma ChecksumDetectsSingleByteError(s: seq<Byte>, i: nat, x: Byte)
    requires i < |s| && x != s[i]
    ensures Sum(s[i := x]) % 256 != Sum(s) % 256
  {
    SumUpdate(s, i, x);
    var a, b := Sum(s[i := x]), Sum(s);
    // a and b differ by less than 256 and are not equal, so their residues differ
    assert a == 256 * (a / 256) + a % 256;
    assert b == 256 * (b / 256) + b % 256;
  }

  // ---------------------------------------------------------------------
  // The set-sensitivity command frame
  // ---------------------------------------------------------------------

  const SetSensitivityCmd: Byte := 0x43
  const SensitivityFiller: Byte := 7
  const SensitivityAck: Byte := 0x53

  /** `[0x43, level&7, 7, 7, 7, cs]`, cs the checksum of bytes 1 to 4. */
  function SensitivityFrame(level: Byte): (f: seq<Byte>)
    ensures |f| == 6 && f[0] == SetSensitivityCmd && f[1] == level % 8
    ensures f[5] == level % 8 + 21
    ensures WellFormedSensitivityFrame(f)
  {
    var body := [level % 8, SensitivityFiller, SensitivityFiller, SensitivityFiller];
    SumOfFour(body);
    [SetSensitivityCmd] + body + [Sum(body) % 256]
  }

  lemma SumOfFour(s: seq<Byte>)
    requires |s| == 4
    ensures Sum(s) == s[0] as int + s[1] + s[2] + s[3]
  {
    assert s[..3][..2] == s[..2] && s[..2][..1] == s[..1] && s[..1][..0] == [];
    assert Sum(s) == Sum(s[..3]) + s[3];
    assert Sum(s[..3]) == Sum(s[..2]) + s[2];
    assert Sum(s[..2]) == Sum(s[..1]) + s[1];
    assert Sum(s[..1]) == s[0];
  }

  /** A frame the sensor accepts: header, a level 0..7, three fillers and
      the checksum of bytes 1 to 4. */
  predicate WellFormedSensitivityFrame(f: seq<Byte>)
  {
    && |f| == 6
    && f[0] == SetSensitivityCmd
    && f[1] < 8
    && f[2] == SensitivityFiller && f[3] == SensitivityFiller && f[4] == SensitivityFiller
    && f[5] == Sum(f[1..5]) % 256
  }

  /** Well-formed frames are exactly the frames the driver builds, one per level. */
  lemma WellFormedFrameIsBuilt(f: seq<Byte>)
    ensures WellFormedSensitivityFrame(f) <==> |f| == 6 && f[1] < 8 && f == SensitivityFrame(f[1])
  {
    if |f| == 6 {
      SumOfFour(f[1..5]);
    }
  }

  lemma SensitivityFrameLevel3()
    ensures SensitivityFrame(3) == [0x43, 0x03, 0x07, 0x07, 0x07, 0x18]
  {
  }

  /** The ack can arrive in the first n reads (an empty read gives 0xFF). */
  ghost predicate AckWithin(q: seq<Byte>, n: nat)
  {
    exists k :: 0 <= k < n && ReadAt(q, k) == SensitivityAck
  }

  // ---------------------------------------------------------------------
  // The self-check reply scan
  // ---------------------------------------------------------------------

  /** Bytes k and k+1 of q are a self-check result and its complement. */
  predicate PairAt(q: seq<Byte>, k: nat)
  {
    k + 1 < |q| && q[k] as int + q[k + 1] == 0xFF
  }

  predicate FirstPairAt(q: seq<Byte>, k: nat)
  {
    PairAt(q, k) && forall j: nat :: j < k ==> !PairAt(q, j)
  }

  /** The outcome of scanning the reply q pairwise: ok iff some adjacent pair
      sums to 0xFF; then the cache holds the first such pair and the bytes
      after it stay pending; otherwise the cache is untouched and the scan
      has read everything (nothing when fewer than two bytes were there). */
  ghost predicate PairScan(q: seq<Byte>, ok: bool, before: RawRslt, after: RawRslt, rest: seq<Byte>)
  {
    && (ok <==> exists k: nat :: PairAt(q, k))
    && (ok ==> exists k: nat :: FirstPairAt(q, k) && after == RawRslt(q[k], q[k + 1]) && rest == q[k + 2..])
    && (!ok ==> after == before && rest == (if |q| >= 2 then [] else q))
  }

  /** A successful scan leaves a cache that passes the complement check. */
  lemma PairScanCachesValidResult(q: seq<Byte>, ok: bool, before: RawRslt, after: RawRslt, rest: seq<Byte>)
    requires PairScan(q, ok, before, after, rest)
    ensures ok ==> after.ChecksumOk()
    ensures !ok ==> after == before
  {
  }

  lemma PairScanExamples(before: RawRslt, ok: bool, after: RawRslt, rest: seq<Byte>)
    ensures PairScan([0x10, 0xEF], ok, before, after, rest) ==> ok && after == RawRslt(0x10, 0xEF) && rest == []
    ensures PairScan([0x10, 0xEE], ok, before, after, rest) ==> !ok && after == before && rest == []
  {
    if PairScan([0x10, 0xEF], ok, before, after, rest) {
      assert PairAt([0x10, 0xEF], 0);
      assert forall k: nat :: PairAt([0x10, 0xEF], k) ==> k == 0;
    }
    if PairScan([0x10, 0xEE], ok, before, after, rest) {
      assert forall k: nat :: !PairAt([0x10, 0xEE], k);
    }
  }

  // ---------------------------------------------------------------------
  // The sentinel poll of begin and checkCalibrationState (UART mode)
  // ---------------------------------------------------------------------

  /** A byte that ends the poll: the sentinel or a trusted status frame. */
  predicate PollStop(b: Byte)
  {
    b == ErrCalibrationCode || WaterFrameValid(b)
  }

  /** Reads a poll with a t += 100 ms tick makes before `t > timeoutMs`. */
  function PollLimit(timeoutMs: nat): nat
  {
    timeoutMs / 100 + 1
  }

  /** 0xAA is read within the first n reads, before any trusted frame. */
  ghost predicate SentinelFirst(q: seq<Byte>, n: nat)
  {
    exists k :: 0 <= k < n && ReadAt(q, k) == ErrCalibrationCode
                && forall j :: 0 <= j < k ==> !WaterFrameValid(ReadAt(q, j))
  }

  /** The number of reads a poll of at most n reads makes, k already made. */
  function PollReads(q: seq<Byte>, k: nat, n: nat): (m: nat)
    requires k < n
    ensures k < m <= n
    ensures forall j :: k <= j < m - 1 ==> !PollStop(ReadAt(q, j))
    ensures m < n ==> PollStop(ReadAt(q, m - 1))
    decreases n - k
  {
    if k + 1 == n || PollStop(ReadAt(q, k)) then k + 1 else PollReads(q, k + 1, n)
  }

  /** On an empty stream every read gives 0xFF: the poll runs to its limit. */
  lemma EmptyStreamPollTimesOut(n: nat)
    requires n >= 1
    ensures PollReads([], 0, n) == n
    ensures !SentinelFirst([], n)
  {
    FillerBytesAreNotFrames();
  }

  /** A sentinel already pending is the first read: the poll ends at once. */
  lemma SentinelAtFront(q: seq<Byte>, n: nat)
    requires n >= 1 && |q| >= 1 && q[0] == ErrCalibrationCode
    ensures SentinelFirst(q, n) && PollReads(q, 0, n) == 1
  {
    assert ReadAt(q, 0) == ErrCalibrationCode;
  }

  lemma PollLimits()
    ensures PollLimit(8000) == 81 && PollLimit(1000) == 11 && PollLimit(2000) == 21
  {
  }

  // ---------------------------------------------------------------------
  // readData and detectWater (UART mode)
  // ---------------------------------------------------------------------

  /** How many bytes readData discards: `available()` is stored into a
      uint8_t, then bytes are dropped while more than len remain. */
  function Discarded(pending: nat, len: Byte): nat
  {
    var remain := pending % 256;
    if remain > len then remain - len else 0
  }

  /** The len bytes readData returns when q is pending. */
  function ReadDataResult(q: seq<Byte>, len: Byte): seq<Byte>
  {
    seq<Byte>(len, i requires 0 <= i < len => ReadAt(q, Discarded(|q|, len) + i))
  }

  /** With fewer than 256 bytes pending readData keeps the newest len of
      them, padded with 0xFF when fewer than len are there. */
  lemma ReadDataKeepsNewest(q: seq<Byte>, len: Byte)
    requires |q| < 256
    ensures len <= |q| ==> ReadDataResult(q, len) == q[|q| - len..]
    ensures len > |q| ==> ReadDataResult(q, len) == q + seq(len - |q|, _ => 0xFF)
  {
    var r := ReadDataResult(q, len);
    if len <= |q| {
      assert Discarded(|q|, len) == |q| - len;
      forall i | 0 <= i < len
        ensures r[i] == q[|q| - len..][i]
      {
        assert r[i] == ReadAt(q, |q| - len + i);
      }
    } else {
      assert Discarded(|q|, len) == 0;
      var pad: seq<Byte> := seq(len - |q|, _ => 0xFF);
      forall i | 0 <= i < len
        ensures r[i] == (q + pad)[i]
      {
        assert r[i] == ReadAt(q, i);
      }
    }
  }

  /** With exactly 256 bytes pending the 8-bit count reads 0: nothing is
      discarded and readData returns the oldest byte, not the newest. */
  lemma ReadDataWrapsAt256(q: seq<Byte>)
    requires |q| == 256
    ensures ReadDataResult(q, 1) == [q[0]]
  {
    assert Discarded(|q|, 1) == 0;
    assert ReadDataResult(q, 1)[0] == ReadAt(q, 0);
  }

  /** detectWater's verdict on the byte it read: ch1, if the frame is trusted. */
  predicate WaterFlag(b: Byte)
  {
    WaterFrameValid(b) && DecodeWaterStatus(b).ch1
  }

  /** The UART detectWater result for the pending bytes q. */
  predicate UartWaterSeen(q: seq<Byte>)
  {
    WaterFlag(ReadDataResult(q, 1)[0])
  }

  lemma UartWaterSeenNewest(q: seq<Byte>)
    requires |q| < 256
    ensures q == [] ==> !UartWaterSeen(q)
    ensures q != [] ==> (UartWaterSeen(q) <==> WaterFrameValid(q[|q| - 1]) && q[|q| - 1] % 2 == 1)
  {
    ReadDataKeepsNewest(q, 1);
    FillerBytesAreNotFrames();
  }
}
