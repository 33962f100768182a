/**
 * Byte layouts and protocol constants of the SCW8916B non-contact
 * liquid-level sensor (src/DFRobot_SCW8916B.h).
 *
 * The header packs its results with C bit-fields; GCC allocates them from
 * the least-significant bit up, so the layouts here are written out as
 * explicit divisions and remainders by powers of two.
 */
module Layout {

  /** An unsigned 8-bit value (`uint8_t`). */
  type Byte = x: int | 0 <= x < 256
  /** A one-bit field. */
  type Bit = x: int | 0 <= x < 2
  /** A three-bit field. */
  type Field3 = x: int | 0 <= x < 8
  /** A four-bit field. */
  type Nibble = x: int | 0 <= x < 16

  // Commands and timings of the wire protocol.
  const SelfCheckCmd: Byte := 0x34
  const CalibUartCmdLwl: Byte := 0x25
  const CalibUartCmdUwl: Byte := 0x8A
  const CalibIoTimeLwl: Byte := 100
  const CalibIoTimeUwl: Byte := 200
  /** Sent by a sensor that was never calibrated; also `begin`'s third result. */
  const ErrCalibrationCode: Byte := 0xAA

  const CalibrationModeLowerLevel: Byte := 0
  const CalibrationModeLowerAndUpperLevel: Byte := 1

  /** The sentinel the cache accessors return when the cached result is invalid. */
  const Invalid: Byte := 0xFF

  /** eDetecteMode_t: fixed when the driver is constructed. */
  datatype DetectMode = LevelDetect | UartDetect

  /** eSensitivityLevel_t: 0 is the most sensitive, 7 the least. */
  type SensitivityLevel = Field3

  // ---------------------------------------------------------------------
  // sSelfCheckRslt_t: a packed byte followed by its complement.
  // ---------------------------------------------------------------------

  /** The four bit-fields of the self-check result's first byte. */
  datatype SelfCheckFields = SelfCheckFields(outs: Bit, topt: Bit, chan: Field3, sen: Field3)

  /** Packs the fields: outs is bit 0, topt bit 1, chan bits 2-4, sen bits 5-7. */
  function EncodeSelfCheck(f: SelfCheckFields): Byte
  {
    f.outs + 2 * f.topt + 4 * f.chan + 32 * f.sen
  }

  /** Reads the fields out of the byte `value` of the union. */
  function DecodeSelfCheck(b: Byte): (f: SelfCheckFields)
    // the four fields cover the byte exactly, each at its own bit position
    ensures b == f.outs + 2 * f.topt + 4 * f.chan + 32 * f.sen
  {
    var b1 := b / 2;
    var b2 := b1 / 2;
    SelfCheckFields(b % 2, b1 % 2, b2 % 8, b2 / 8)
  }

  lemma SelfCheckFieldsRoundTrip(f: SelfCheckFields)
    ensures DecodeSelfCheck(EncodeSelfCheck(f)) == f
  {
    var rest := f.chan + 8 * f.sen;
    assert EncodeSelfCheck(f) == f.outs + 2 * (f.topt + 2 * rest);
    assert (f.outs + 2 * (f.topt + 2 * rest)) / 2 == f.topt + 2 * rest;
    assert (f.topt + 2 * rest) / 2 == rest;
  }

  lemma SelfCheckByteRoundTrip(b: Byte)
    ensures EncodeSelfCheck(DecodeSelfCheck(b)) == b
  {
  }

  /** The two bytes of sSelfCheckRslt_t, as received: `value`, then `pad`. */
  datatype RawRslt = RawRslt(value: Byte, pad: Byte) {
    /** A cached result is trusted only when pad complements value. */
    predicate ChecksumOk() {
      value + pad == 0xFF
    }
  }

  /** `pad` is the complement of `value`: each of its fields is the
      complement of the matching field of `value`. */
  lemma RsltChecksumIsComplement(r: RawRslt)
    ensures r.ChecksumOk() <==>
              var v, p := DecodeSelfCheck(r.value), DecodeSelfCheck(r.pad);
              p.outs == 1 - v.outs && p.topt == 1 - v.topt && p.chan == 7 - v.chan && p.sen == 7 - v.sen
  {
    var v, p := DecodeSelfCheck(r.value), DecodeSelfCheck(r.pad);
    if r.ChecksumOk() {
      var c := SelfCheckFields(1 - v.outs, 1 - v.topt, 7 - v.chan, 7 - v.sen);
      assert EncodeSelfCheck(c) == r.pad;
      SelfCheckFieldsRoundTrip(c);
    }
  }

  // ---------------------------------------------------------------------
  // uCheckRslt_t: four channel flags in the low nibble, complement above.
  // ---------------------------------------------------------------------

  datatype WaterStatus = WaterStatus(ch1: bool, ch2: bool, ch3: bool, ch4: bool, pad: Nibble)

  function BitOf(flag: bool): Bit { if flag then 1 else 0 }

  /** The four-bit field `value`, which overlays ch1..ch4. */
  function ValueOf(w: WaterStatus): Nibble
  {
    BitOf(w.ch1) + 2 * BitOf(w.ch2) + 4 * BitOf(w.ch3) + 8 * BitOf(w.ch4)
  }

  function EncodeWaterStatus(w: WaterStatus): Byte
  {
    ValueOf(w) + 16 * w.pad
  }

  /** Reads a received status byte through the union: the channel flags
      are the bits of the low nibble, `pad` is the high nibble. */
  function DecodeWaterStatus(b: Byte): (w: WaterStatus)
    ensures ValueOf(w) == b % 16 && w.pad == b / 16
    ensures w.ch1 <==> b % 2 == 1
  {
    var n := b % 16;
    NibbleBits(n);
    WaterStatus(n % 2 == 1, (n / 2) % 2 == 1, (n / 4) % 2 == 1, n / 8 == 1, b / 16)
  }

  /** A nibble is the sum of its four bits. */
  lemma NibbleBits(n: Nibble)
    ensures n == n % 2 + 2 * ((n / 2) % 2) + 4 * ((n / 4) % 2) + 8 * (n / 8)
  {
  }

  lemma WaterStatusRoundTrip(w: WaterStatus)
    ensures DecodeWaterStatus(EncodeWaterStatus(w)) == w
  {
  }

  lemma WaterByteRoundTrip(b: Byte)
    ensures EncodeWaterStatus(DecodeWaterStatus(b)) == b
  {
  }

  /** A status frame is trusted only when value + pad == 0x0F. */
  predicate WaterFrameValid(b: Byte)
  {
    var w := DecodeWaterStatus(b);
    ValueOf(w) + w.pad == 0x0F
  }

  /** The only trusted frame for the given channel flags. */
  function WaterFrame(ch1: bool, ch2: bool, ch3: bool, ch4: bool): (b: Byte)
    ensures WaterFrameValid(b)
    ensures var w := DecodeWaterStatus(b); w.ch1 == ch1 && w.ch2 == ch2 && w.ch3 == ch3 && w.ch4 == ch4
  {
    var v := ValueOf(WaterStatus(ch1, ch2, ch3, ch4, 0));
    var w := WaterStatus(ch1, ch2, ch3, ch4, 15 - v);
    WaterStatusRoundTrip(w);
    EncodeWaterStatus(w)
  }

  /** Valid frames are exactly the frames built from their own channel flags. */
  lemma WaterFrameValidIffBuilt(b: Byte)
    ensures WaterFrameValid(b) <==> b / 16 == 15 - b % 16
    ensures var w := DecodeWaterStatus(b);
            WaterFrameValid(b) <==> b == WaterFrame(w.ch1, w.ch2, w.ch3, w.ch4)
  {
  }

  /** A read of an empty stream (0xFF) and the sentinel 0xAA never pass. */
  lemma FillerBytesAreNotFrames()
    ensures !WaterFrameValid(0xFF) && !WaterFrameValid(ErrCalibrationCode)
    ensures WaterFrameValid(0xA5) && DecodeWaterStatus(0xA5).ch1
  {
  }

  // ---------------------------------------------------------------------
  // The calibration acknowledgement: the command with its nibbles swapped.
  // ---------------------------------------------------------------------

  /** `(cmd >> 4) | (cmd << 4)` stored back into a uint8_t. */
  function NibbleSwap(b: Byte): (r: Byte)
    ensures r % 16 == b / 16 && r / 16 == b % 16
  {
    (b % 16) * 16 + b / 16
  }

  lemma NibbleSwapInvolutive(b: Byte)
    ensures NibbleSwap(NibbleSwap(b)) == b
  {
  }

  lemma CalibrationAcks()
    ensures NibbleSwap(CalibUartCmdLwl) == 0x52
    ensures NibbleSwap(CalibUartCmdUwl) == 0xA8
  {
  }

  // ---------------------------------------------------------------------
  // getCalibModeDescription
  // ---------------------------------------------------------------------

  const LowerLevelDescription := "Only calibrate the lower water level mode"
  const LowerAndUpperDescription := "Up and down water level calibration mode"
  const ErrorModeDescription := "Error calibration mode"

  function GetCalibModeDescription(mode: Byte): (d: string)
    ensures d == ErrorModeDescription <==> mode >= 2
    ensures d == LowerLevelDescription <==> mode == CalibrationModeLowerLevel
    ensures d == LowerAndUpperDescription <==> mode == CalibrationModeLowerAndUpperLevel
  {
    if mode == CalibrationModeLowerLevel then LowerLevelDescription
    else if mode == CalibrationModeLowerAndUpperLevel then LowerAndUpperDescription
    else ErrorModeDescription
  }
}
