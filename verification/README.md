# SCW8916B non-contact liquid-level sensor driver, modelled in Dafny

This project models the DFRobot SCW8916B driver: the class `DFRobot_Nilometer` and
its two front-ends `DFRobot_SCW8916B_IO` (level one-to-one detection: the OUT pin
is high when there is water) and `DFRobot_SCW8916B_UART` (the sensor reports over
a serial stream). The driver powers the sensor up through its EN pin, asks it for a
self-check result, calibrates it, polls it for water and, in UART mode, sets its
sensitivity.

Files and modules:

- `layout.dfy`, module `Layout`: the protocol constants and the two packed result
  bytes of the header. `sSelfCheckRslt_t` is a byte of bit fields plus its
  complement. `uCheckRslt_t` is four channel flags plus their nibble complement.
  The module also holds the nibble swap that turns a calibration command into its
  acknowledgement, and the calibration-mode descriptions.
- `transport.dfy`, module `Transport`: the collaborators.
  - `Stream` is a class with the queue of received bytes `rx` and the log of written bytes `tx`.
  - `read()` on an empty stream returns -1, which the driver stores into a `uint8_t` as 0xFF.
  - The OUT pin is a `Signal` (the level of the k-th `digitalRead` of one call) or a trace of `Sample`s (level plus `millis()`).
- `protocol.dfy`, module `Protocol`: pure definitions of what the UART side decides.
  It covers the 8-bit additive checksum, the set-sensitivity frame, the pairwise
  self-check scan, the sentinel poll of `begin`/`checkCalibrationState`, and what
  `readData` returns.
- `timing.dfy`, module `LevelTiming`: what the level-mode loops look for on the
  OUT pin. That is the toggle confirmation of `begin`/`checkCalibrationState` and
  the calibration pulse of `ioWaterLevelCalibration`.
- `nilometer.dfy`, module `SCW8916B`: the driver as a class `Nilometer`.
  - Its `rslt` field is the cached self-check result, and its methods carry the source's loops.
  - Each method is proved against the definitions above.

The polling delays become the source's own tick counter `t += 100`. A poll that stops at `t > 8000`, `t > 1000` or `t > 2000` makes at most 81, 11 or 21 reads (`Protocol.PollLimits`).

Bytes the sensor sends while the driver waits after a command are a parameter `reply`. The method appends them to the stream where the source sleeps. These waits are the `delay(1000)` of the self-checks and of UART calibration, and the poll of `setSensitivityLevel`.

In `ioWaterLevelCalibration` (src/DFRobot_SCW8916B.cpp:163-177) a rising edge stores the low interval that just ended in `interT1`. A falling edge then tests `interT1 >= t - 10` and, if that passes, requires the high interval `interT2` to exceed 500 ms.

## Model

| member | source | states |
|---|---|---|
| Layout.DecodeSelfCheck | src/DFRobot_SCW8916B.h:71-82 | outs, topt, chan and sen are bits 0, 1, 2-4 and 5-7 of `value`, covering the byte exactly |
| Layout.SelfCheckFieldsRoundTrip | src/DFRobot_SCW8916B.h:71-82 | decoding an encoded set of fields gives the fields back |
| Layout.SelfCheckByteRoundTrip | src/DFRobot_SCW8916B.h:71-82 | encoding the decoded fields gives the byte back |
| Layout.RsltChecksumIsComplement | src/DFRobot_SCW8916B.h:71-82 | `value + pad == 0xFF` holds iff every field of `pad` is the complement of the matching field of `value` |
| Layout.DecodeWaterStatus | src/DFRobot_SCW8916B.h:84-93 | the 4-bit `value` overlays ch1..ch4 (the low nibble), `pad` is the high nibble, ch1 is bit 0 |
| Layout.WaterStatusRoundTrip | src/DFRobot_SCW8916B.h:84-93 | decoding an encoded status gives it back |
| Layout.WaterByteRoundTrip | src/DFRobot_SCW8916B.h:84-93 | encoding a decoded status byte gives the byte back |
| Layout.WaterFrame | src/DFRobot_SCW8916B.h:84-93 | for any four channel flags there is a trusted frame that decodes to them |
| Layout.WaterFrameValidIffBuilt | src/DFRobot_SCW8916B.cpp:52 | a status byte is trusted iff its high nibble is 15 minus its low nibble, iff it is the frame built from its own flags |
| Layout.FillerBytesAreNotFrames | src/DFRobot_SCW8916B.cpp:48-52 | neither the empty-read value 0xFF nor the sentinel 0xAA is a trusted frame; 0xA5 is, with ch1 set |
| Layout.NibbleSwap | src/DFRobot_SCW8916B.cpp:134 | the acknowledgement's low nibble is the command's high nibble and vice versa |
| Layout.NibbleSwapInvolutive | src/DFRobot_SCW8916B.cpp:134 | swapping twice gives the command back |
| Layout.CalibrationAcks | src/DFRobot_SCW8916B.h:49-50 | the lower-level command 0x25 is acknowledged by 0x52, the upper-level 0x8A by 0xA8 |
| Layout.GetCalibModeDescription | src/DFRobot_SCW8916B.cpp:257-271 | 0 and 1 map to their own descriptions and every value 2-255 to the error description, each as an iff |
| Transport.ToUint8 | src/DFRobot_SCW8916B.cpp:48 | a byte read is kept as is and the -1 of an empty stream becomes 0xFF |
| Protocol.GetCs | src/DFRobot_SCW8916B.cpp:294-302 | the wrapping 8-bit accumulator equals the sum of the first len bytes mod 256 |
| Protocol.ChecksumDetectsSingleByteError | src/DFRobot_SCW8916B.cpp:294-302 | changing any one byte changes the checksum |
| Protocol.SensitivityFrame | src/DFRobot_SCW8916B.cpp:383-390 | the frame has 6 bytes, starts with 0x43 and level&7, ends with (level&7)+21, and is well formed |
| Protocol.WellFormedFrameIsBuilt | src/DFRobot_SCW8916B.cpp:383-390 | the well-formed frames are exactly the frames built for the levels 0-7 |
| Protocol.SensitivityFrameLevel3 | src/DFRobot_SCW8916B.cpp:383-390 | level 3 is sent as 43 03 07 07 07 18 |
| Protocol.PairScanCachesValidResult | src/DFRobot_SCW8916B.cpp:207-221 | after a successful scan the cache passes the complement check; after a failed one it is unchanged |
| Protocol.PairScanExamples | src/DFRobot_SCW8916B.cpp:207-221 | 10 EF is accepted and cached, 10 EE is rejected and reads everything |
| Protocol.PollReads | src/DFRobot_SCW8916B.cpp:48-56 | the poll reads until the first sentinel or trusted frame, or up to its limit |
| Protocol.EmptyStreamPollTimesOut | src/DFRobot_SCW8916B.cpp:48-56 | on an empty stream the poll makes all its reads and never sees the sentinel |
| Protocol.SentinelAtFront | src/DFRobot_SCW8916B.cpp:48 | a pending 0xAA ends the poll with one read |
| Protocol.PollLimits | src/DFRobot_SCW8916B.cpp:37-38 | with a 100 ms tick, begin makes at most 81 reads, checkCalibrationState 11, setSensitivityLevel 21 |
| Protocol.ReadDataKeepsNewest | src/DFRobot_SCW8916B.cpp:278-292 | with fewer than 256 bytes pending readData returns the newest len, padded with 0xFF |
| Protocol.ReadDataWrapsAt256 | src/DFRobot_SCW8916B.cpp:281 | with 256 bytes pending the 8-bit count is 0 and the oldest byte is returned |
| Protocol.UartWaterSeenNewest | src/DFRobot_SCW8916B.cpp:89-94 | UART detectWater is ch1 of the newest pending byte if that byte is trusted, else false |
| LevelTiming.SteadyLevelNeverConfirms | src/DFRobot_SCW8916B.cpp:351-357 | a level that never changes is never confirmed |
| LevelTiming.SquareWaveConfirms | src/DFRobot_SCW8916B.cpp:351-366 | a level flipping on every read is confirmed |
| LevelTiming.FirstFallNeedsShortLowTime | src/DFRobot_SCW8916B.cpp:163-166 | if the trace starts high, the first falling edge passes the low-interval test only for t <= 10 |
| LevelTiming.TrackStep | src/DFRobot_SCW8916B.cpp:162-178 | one pass over a sample keeps val1, t1 and interT1 tracking the trace; a falling edge is a pulse iff both of the loop's tests pass |
| LevelTiming.NoPulseInWindow | src/DFRobot_SCW8916B.cpp:180-185 | once the loop breaks at the first sample past one second with no pulse so far, no pulse was seen |
| LevelTiming.CalibrationPulseExample | src/DFRobot_SCW8916B.cpp:161-184 | 100 ms low then 600 ms high is a lower-level calibration pulse |
| SCW8916B.IoScanGuardAlwaysHolds | src/DFRobot_SCW8916B.cpp:247 | the test `buf[0] != 0 \|\| buf[0] != 0xff` holds of every byte |
| SCW8916B.SentinelStop | src/DFRobot_SCW8916B.cpp:48 | a poll that stops on 0xAA found the sentinel first, after exactly that many reads |
| SCW8916B.NoSentinelAfterStop | src/DFRobot_SCW8916B.cpp:48-56 | a poll that stops on a trusted frame or its last read did not see the sentinel first, and made exactly that many reads |
| SCW8916B.Nilometer.Uart | src/DFRobot_SCW8916B.cpp:18-23 | UART mode, no OUT or TEST pin, a zeroed cache whose accessors both return 0xFF |
| SCW8916B.Nilometer.Level | src/DFRobot_SCW8916B.cpp:25-30 | level mode with the given pins, a zeroed cache whose accessors both return 0xFF |
| SCW8916B.Nilometer.GetCalibrationMode | src/DFRobot_SCW8916B.cpp:188-193 | 0xFF iff the cache fails the complement check, else its topt bit; only 0, 1 or 0xFF |
| SCW8916B.Nilometer.GetSensitivity | src/DFRobot_SCW8916B.cpp:327-332 | 0xFF iff the cache fails the complement check, else its sen field in 0..7 |
| SCW8916B.Nilometer.Flush | src/DFRobot_SCW8916B.cpp:318-325 | the stream is left empty and nothing is written |
| SCW8916B.Nilometer.EnableSensor | src/DFRobot_SCW8916B.cpp:304-317 | for en > -1 the stream is drained, otherwise untouched |
| SCW8916B.Nilometer.WriteData | src/DFRobot_SCW8916B.cpp:273-276 | the bytes are appended to what was written |
| SCW8916B.Nilometer.ReadData | src/DFRobot_SCW8916B.cpp:278-292 | returns len and the bytes readData keeps, consuming exactly the discarded and returned ones |
| SCW8916B.Nilometer.PollForSentinel | src/DFRobot_SCW8916B.cpp:48-56 | true iff 0xAA is read before any trusted frame within the limit; exactly the poll's reads are consumed |
| SCW8916B.Nilometer.Begin | src/DFRobot_SCW8916B.cpp:35-84 | only -1, 0 or 0xAA; -1 iff no stream (UART) or no OUT pin (level); 0xAA iff the sentinel comes first within 8 s; never 0xAA in level mode |
| SCW8916B.Nilometer.BeginLevel | src/DFRobot_SCW8916B.cpp:57-82 | -1 without an OUT pin, otherwise 0 on every path |
| SCW8916B.Nilometer.DetectWater | src/DFRobot_SCW8916B.cpp:86-103 | UART: ch1 of the kept byte if trusted, and the stream is left empty; level: the OUT level |
| SCW8916B.Nilometer.CheckCalibrationState | src/DFRobot_SCW8916B.cpp:334-370 | UART: false iff 0xAA is read before any trusted frame within 1 s; level: false iff the level changes within 1 s and then toggles five times |
| SCW8916B.Nilometer.CheckCalibrationStateLevel | src/DFRobot_SCW8916B.cpp:350-369 | false iff the first change comes within 11 reads and each of the next five reads alternates |
| SCW8916B.Nilometer.ScanSelfCheckReply | src/DFRobot_SCW8916B.cpp:207-221 | true iff some adjacent pair sums to 0xFF; then the first such pair is cached and the rest stays pending; else the cache is untouched |
| SCW8916B.Nilometer.UartSelfCheck | src/DFRobot_SCW8916B.cpp:195-222 | false and cache untouched without en or stream; otherwise 0x34 is sent and the reply is scanned; success leaves both accessors valid |
| SCW8916B.Nilometer.IoSelfCheck | src/DFRobot_SCW8916B.cpp:224-255 | false and cache untouched without en, test, out or stream; otherwise nothing is sent and the reply is scanned |
| SCW8916B.Nilometer.SelfCheck | src/DFRobot_SCW8916B.cpp:105-111 | dispatches on the mode with the driver's own pins and stream; a failed guard leaves result, cache and stream untouched |
| SCW8916B.Nilometer.UartWaterLevelCalibration | src/DFRobot_SCW8916B.cpp:125-145 | false without en; otherwise cmd is sent and the result is true iff its nibble swap arrives, bytes after it staying pending |
| SCW8916B.Nilometer.IoWaterLevelCalibration | src/DFRobot_SCW8916B.cpp:147-186 | true iff en, test and out are set and the calibration pulse shows within one second |
| SCW8916B.Nilometer.CalibrationPulseWindow | src/DFRobot_SCW8916B.cpp:158-185 | true iff, before the one-second check ends the loop, a falling edge ends a high interval over 500 ms that follows a low interval of at least t-10 ms |
| SCW8916B.Nilometer.Calibration | src/DFRobot_SCW8916B.cpp:113-122 | lower-level calibration in the driver's mode; UART mode leaves the stream empty |
| SCW8916B.Nilometer.SetSensitivityLevel | src/DFRobot_SCW8916B.cpp:382-403 | writes exactly the level's frame; true iff 0x53 is among the first 21 reads, then the stream is empty |
| SCW8916B.Nilometer.BuildSensitivityFrame | src/DFRobot_SCW8916B.cpp:383-390 | the buffer with getCs's checksum is the level's frame |
| SCW8916B.Nilometer.PollForAck | src/DFRobot_SCW8916B.cpp:394-403 | true iff 0x53 is read within 21 reads, then the stream is drained; else exactly 21 reads are consumed |

## Left out

- Pin I/O and time are not modelled. `pinMode`, `digitalWrite` and `delay` have no effect the driver can observe. `digitalRead` becomes a `Signal` or a `Sample` trace passed in. `millis()` is the time stamp of each sample.
- EnableSensor: only the drain of the stream is modelled. The EN-pin power cycle and its 200 ms and 1000 ms waits are left out.
- IoSelfCheck: the TEST-pin pulse sequence and the 6 ms delay between reads are left out. Its `Stream *s` argument is always the driver's own stream, so the model uses that stream.
- The `DBG` macro and the Arduino `String` type are left out. Descriptions are Dafny strings.
- The arrival time of sensor bytes is not modelled. Bytes that arrive during a wait are appended at once, as `reply`. A poll reads from the queue pending when it starts. An empty read there gives 0xFF, like a read past the end of that queue.
- CalibrationPulseWindow: the 32-bit wrap-around of `millis()` is not modelled. Time differences are signed integers, which agree with the source's unsigned ones whenever the clock runs forward. The trace must span more than 1000 ms, so that the loop ends within it. The source's break test calls `millis()` after the `delay(5)` that follows each read, while the model uses the sample's own time for it; near the 1000 ms edge the model can therefore process one sample more than the source does.
- SetSensitivityLevel: it requires UART mode, since only the UART front-end has it. The missing return after its loop is therefore never reached.
- The `eSensitivityLevel_t` overload of setSensitivityLevel is not modelled separately. It only casts to `uint8_t`.
- DetectWater, CheckCalibrationState, UartWaterLevelCalibration, Calibration, SetSensitivityLevel, WriteData, ReadData and PollForSentinel require a stream (in UART mode, or when en >= 0 for calibration): the source dereferences `_s` there without a NULL check (src/DFRobot_SCW8916B.cpp:90, 133, 275, 281, 341, 393), which is undefined behaviour the model does not describe.
- The destructor is empty and is not modelled.
- The Raspberry Pi Python demos are console scripts over a library that is not part of this model.
