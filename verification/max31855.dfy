/**
 * The Adafruit MAX31855 driver (class AdafruitMAX31855).
 *
 * The chip answers every read with one 32-bit frame, most significant bit
 * first: bits 31-18 hold the thermocouple temperature (14-bit two's
 * complement, 0.25 °C steps), bits 15-4 the chip's internal temperature
 * (12-bit two's complement, 0.0625 °C steps) and bits 2-0 the three fault
 * flags.  The driver keeps a 4-sample integer moving average of the
 * thermocouple readings in a 32-bit unsigned field, and a calibration offset.
 *
 * As in the MAX31856 model the bus is abstract: each read takes as input the
 * four bytes the chip sends.  Doubles and floats are modelled as reals, with
 * NaN kept as its own value because the driver returns and stores it.
 */
module Max31855 {
  import opened Bits

  /** The offset added to every sample to keep the moving average positive (the source calls it Kelvin). */
  const KELVIN_OFFSET: int := 8741

  type uint32 = x: int | 0 <= x < TWO_POW_32

  /** A double as the driver uses it: a number, or NaN. */
  datatype Double = NaN | Num(value: real)

  /** Addition of doubles: NaN in, NaN out. */
  function Plus(a: Double, b: Double): (r: Double)
    ensures r.Num? <==> a.Num? && b.Num?
    ensures r.Num? ==> r.value - b.value == a.value
  {
    if a.Num? && b.Num? then Num(a.value + b.value) else NaN
  }

  /** Subtraction of doubles: NaN in, NaN out. */
  function Minus(a: Double, b: Double): (r: Double)
    ensures r.Num? <==> a.Num? && b.Num?
    ensures r.Num? ==> r.value + b.value == a.value
  {
    if a.Num? && b.Num? then Num(a.value - b.value) else NaN
  }

  /** `v & 0x7`: one of the fault flags (open circuit, short to GND, short to VCC) is set. */
  function Faulted(frame: bv32): (f: bool)
    ensures f <==> WordByte(frame, 3) & 0x7 != 0
  {
    frame & 0x7 != 0
  }

  /**
   * The thermocouple field as readCelsius and init extract it: bits 18-31
   * shifted down, with the sign bits filled in explicitly when bit 31 is set
   * (`0xFFFFC000 | ((v >> 18) & 0x3FFFF)`; the mask keeps four bits too many,
   * but they are sign bits and the or sets them anyway) and a plain shift
   * otherwise.  Counts 0.25 °C.
   */
  function Field14(frame: bv32): (f: int)
    ensures -0x2000 <= f < 0x2000
    ensures f < 0 <==> frame & 0x8000_0000 != 0
  {
    var bits := WordByte(frame, 0) as int * 0x40 + WordByte(frame, 1) as int / 4;
    if frame & 0x8000_0000 != 0 then bits - 0x4000 else bits
  }

  /** The two branches together are the arithmetic shift `v >> 18` of the signed frame. */
  lemma {:induction false} Field14IsArithmeticShift(frame: bv32)
    ensures Field14(frame) == Signed(frame) / 0x4_0000
  {
    var b0 := WordByte(frame, 0);
    assert frame & 0x8000_0000 != 0 <==> b0 & 0x80 != 0;
    ShiftBy18(SignedByte(b0), WordByte(frame, 1) as int, WordByte(frame, 2) as int * 0x100 + WordByte(frame, 3) as int);
  }

  lemma ShiftBy18(hi: int, mid: int, rest: int)
    requires 0 <= mid < 0x100 && 0 <= rest < 0x1_0000
    ensures (hi * 0x100_0000 + mid * 0x1_0000 + rest) / 0x4_0000 == hi * 0x40 + mid / 4
  {
    assert hi * 0x100_0000 + mid * 0x1_0000 + rest == (hi * 0x40 + mid / 4) * 0x4_0000 + (mid % 4) * 0x1_0000 + rest;
  }

  /**
   * The sample a frame contributes: the field shifted left by two (1/16 °C
   * steps) plus the offset, in 32-bit signed arithmetic, where it cannot
   * overflow.
   */
  function Sample(frame: bv32): (s: int)
    ensures KELVIN_OFFSET - 0x8000 <= s < KELVIN_OFFSET + 0x8000
    ensures (s - KELVIN_OFFSET) as real / 16.0 == Field14(frame) as real / 4.0
  {
    Field14(frame) * 4 + KELVIN_OFFSET
  }

  /** `(_movingRawTemp * 3 + (uint32_t) v) >> 2`, every step in 32-bit unsigned arithmetic. */
  function Average(moving: uint32, sample: int): (a: uint32)
    ensures a < 0x4000_0000
  {
    (moving * 3 + sample % TWO_POW_32) % TWO_POW_32 / 4
  }

  /** Within the range where nothing wraps, the average is plain integer arithmetic. */
  lemma AverageNoWrap(moving: uint32, sample: int)
    requires 0 <= sample < 0x4000_0000 && moving < 0x4000_0000
    ensures Average(moving, sample) == (moving * 3 + sample) / 4
  {
  }

  /**
   * A negative sample (a frame below -546 °C) is cast to a value near 2^32,
   * so the sum wraps; the wrap cancels out while 3·average + sample is not
   * negative, and otherwise leaves the average near 2^30.
   */
  lemma AverageNegativeSample(moving: uint32, sample: int)
    requires -0x8000_0000 <= sample < 0 && moving < 0x4000_0000
    ensures moving * 3 + sample >= 0 ==> Average(moving, sample) == (moving * 3 + sample) / 4
    ensures moving * 3 + sample < 0 ==> Average(moving, sample) == (moving * 3 + sample + TWO_POW_32) / 4
  {
    assert sample % TWO_POW_32 == sample + TWO_POW_32;
  }

  /** The new average lies between the old average and the sample. */
  lemma {:induction false} AverageStaysBetween(moving: uint32, sample: int)
    requires 0 <= sample < 0x4000_0000 && moving < 0x4000_0000
    ensures moving <= sample ==> moving <= Average(moving, sample) <= sample
    ensures sample <= moving ==> sample <= Average(moving, sample) <= moving
  {
    AverageNoWrap(moving, sample);
  }

  /**
   * Under a constant sample s the average stands still exactly when it is
   * between s - 3 and s: the floor in `>> 2` leaves a rising reading up to
   * three steps (3/16 °C) low.
   */
  lemma {:induction false} AverageFixedPoints(moving: uint32, sample: int)
    requires 0 <= sample < 0x4000_0000 && moving < 0x4000_0000
    ensures Average(moving, sample) == moving <==> sample - 3 <= moving <= sample
  {
    AverageNoWrap(moving, sample);
  }

  /** Outside its fixed points the average strictly approaches a constant sample. */
  lemma {:induction false} AverageApproaches(moving: uint32, sample: int)
    requires 0 <= sample < 0x4000_0000 && moving < 0x4000_0000
    requires moving > sample || moving < sample - 3
    ensures moving > sample ==> sample <= Average(moving, sample) < moving
    ensures moving < sample - 3 ==> moving < Average(moving, sample) <= sample
  {
    AverageNoWrap(moving, sample);
  }

  /**
   * `(double)(_movingRawTemp - 8741) / 16.0` as written: the subtraction is
   * done in 32-bit unsigned arithmetic, so it wraps whenever the average is
   * below the offset, that is for every temperature below 0 °C; it never
   * reports a negative temperature.
   */
  function CelsiusAsWritten(moving: uint32): (t: real)
    ensures 0.0 <= t < 268435456.0
  {
    ((moving - KELVIN_OFFSET) % TWO_POW_32) as real / 16.0
  }

  /** The average in °C, with the difference taken as a signed number. */
  function Celsius(moving: int): real
  {
    (moving - KELVIN_OFFSET) as real / 16.0
  }

  /** Both conversions agree exactly when the average is not below the offset. */
  lemma AsWrittenAgreesOnlyFromZero(moving: uint32)
    ensures CelsiusAsWritten(moving) == Celsius(moving) <==> moving >= KELVIN_OFFSET
  {
  }

  /** A frame the chip sends for -10 °C: field -40 in bits 18-31, no fault. */
  const MINUS_TEN_FRAME: bv32 := 0xFF60_0000

  /**
   * The unsigned subtraction at work: once the average has settled on a
   * -10 °C frame, the conversion as written reports about 268 million °C.
   */
  lemma NegativeReadingWraps()
    ensures !Faulted(MINUS_TEN_FRAME) && Field14(MINUS_TEN_FRAME) == -40
    ensures Sample(MINUS_TEN_FRAME) == 8581 && Average(8581, 8581) == 8581
    ensures CelsiusAsWritten(8581) == 268435446.0
    ensures Celsius(8581) == -10.0
  {
  }

  /**
   * With the signed difference, an average settled on a frame reads back as
   * the frame's temperature, below zero as well as above (down to -546 °C,
   * past the chip's range, where samples would turn negative).
   */
  lemma {:induction false} SettledReadingIsFrameTemperature(frame: bv32)
    requires Sample(frame) >= 0
    ensures Average(Sample(frame), Sample(frame)) == Sample(frame)
    ensures Celsius(Average(Sample(frame), Sample(frame))) == Field14(frame) as real / 4.0
  {
    AverageFixedPoints(Sample(frame), Sample(frame));
  }

  /**
   * The conversion as written is right from 0 °C up: an average settled on a
   * frame at or above 0 °C reads back as the frame's temperature.
   */
  lemma {:induction false} SettledAsWrittenFromZero(frame: bv32)
    requires Field14(frame) >= 0
    ensures CelsiusAsWritten(Average(Sample(frame), Sample(frame))) == Field14(frame) as real / 4.0
  {
    SettledReadingIsFrameTemperature(frame);
    AsWrittenAgreesOnlyFromZero(Sample(frame));
  }

  /**
   * readInternal as written: bits 4-14 as a magnitude in 0.0625 °C steps,
   * negated when bit 15 is set (sign and magnitude).
   */
  function InternalAsWritten(frame: bv32): (t: real)
    ensures -127.9375 <= t <= 127.9375
    ensures t < 0.0 ==> frame & 0x8000 != 0
  {
    var magnitude := (WordByte(frame, 2) & 0x7F) as int * 0x10 + WordByte(frame, 3) as int / 0x10;
    if frame & 0x8000 != 0 then -(magnitude as real * 0.0625) else magnitude as real * 0.0625
  }

  /**
   * The internal temperature as the chip encodes it: bits 4-15 as a 12-bit
   * two's-complement number, read by moving them to the top of the word and
   * shifting back arithmetically; 0.0625 °C steps.
   */
  function Internal(frame: bv32): (t: real)
    ensures -128.0 <= t < 128.0
    ensures t < 0.0 <==> frame & 0x8000 != 0
  {
    assert (frame << 16) & 0x8000_0000 != 0 <==> frame & 0x8000 != 0;
    (Signed(frame << 16) / 0x10_0000) as real * 0.0625
  }

  /** The internal temperature from the bytes on the wire: the third byte signed, then the top half of the fourth. */
  lemma {:induction false} InternalLayout(b: seq<bv8>)
    requires |b| == 4
    ensures Internal(BigEndian(b)) == (SignedByte(b[2]) * 0x10 + b[3] as int / 0x10) as real * 0.0625
  {
    var frame := BigEndian(b);
    ShiftUp16(frame);
    ShiftBy20(SignedByte(b[2]), b[3] as int);
  }

  /** Shifting left by two bytes moves the low half up and clears it. */
  lemma ShiftUp16(w: bv32)
    ensures WordByte(w << 16, 0) == WordByte(w, 2) && WordByte(w << 16, 1) == WordByte(w, 3)
    ensures WordByte(w << 16, 2) == 0 && WordByte(w << 16, 3) == 0
  {
  }

  lemma ShiftBy20(hi: int, mid: int)
    requires 0 <= mid < 0x100
    ensures (hi * 0x100_0000 + mid * 0x1_0000) / 0x10_0000 == hi * 0x10 + mid / 0x10
  {
    assert hi * 0x100_0000 + mid * 0x1_0000 == (hi * 0x10 + mid / 0x10) * 0x10_0000 + (mid % 0x10) * 0x1_0000;
  }

  /** At or above 0 °C sign and magnitude and two's complement read the same. */
  lemma {:induction false} InternalAgreesWhenNonNegative(frame: bv32)
    requires frame & 0x8000 == 0
    ensures InternalAsWritten(frame) == Internal(frame)
  {
    InternalLayout(Bytes(frame));
    assert WordByte(frame, 2) & 0x80 == 0;
    assert (WordByte(frame, 2) & 0x7F) as int == WordByte(frame, 2) as int;
  }

  /** A frame whose internal field is -1 °C in two's complement (0xFF0): read as written it gives -127 °C. */
  lemma InternalSignMagnitudeMisreads()
    ensures InternalAsWritten(0x0000_FF00) == -127.0
    ensures Internal(0x0000_FF00) == -1.0
  {
    InternalLayout(Bytes(0x0000_FF00));
  }

  /** The float conversion readFarenheit applies, NaN staying NaN. */
  function Fahrenheit(c: Double): (f: Double)
    ensures f.Num? <==> c.Num?
    ensures f.Num? ==> (f.value - 32.0) * 5.0 / 9.0 == c.value
  {
    if c.Num? then Num(c.value * 9.0 / 5.0 + 32.0) else NaN
  }

  /** `(int)` of a 32-bit unsigned value: the same bits read as signed. */
  function ToInt32(x: uint32): (r: int)
    ensures -0x8000_0000 <= r < 0x8000_0000 && r % TWO_POW_32 == x
  {
    if x >= 0x8000_0000 then x - TWO_POW_32 else x
  }

  class AdafruitMAX31855 {
    /** The clock pin of software (bit-banged) mode. */
    const sclk: int
    /** The chip-select pin. */
    const cs: int
    /** The data pin of software mode. */
    const miso: int
    /** `_spimode`: true for hardware SPI. */
    const hardware: bool
    /** `_calibration`, added to every non-raw Celsius reading. */
    var calibration: Double
    /** `_movingRawTemp`: the 4-sample moving average, 1/16 °C steps above the offset. */
    var movingRawTemp: uint32

    /** Software mode without a calibration value. */
    constructor Software(sclk: int, cs: int, miso: int)
      ensures this.sclk == sclk && this.cs == cs && this.miso == miso
      ensures !hardware && calibration == Num(0.0)
    {
      this.sclk, this.cs, this.miso := sclk, cs, miso;
      calibration := Num(0.0);
      hardware := false;
    }

    /** Software mode with a calibration value. */
    constructor SoftwareCalibrated(sclk: int, cs: int, miso: int, calibration: real)
      ensures this.sclk == sclk && this.cs == cs && this.miso == miso
      ensures !hardware && this.calibration == Num(calibration)
    {
      this.sclk, this.cs, this.miso := sclk, cs, miso;
      this.calibration := Num(calibration);
      hardware := false;
    }

    /** Hardware mode without a calibration value. */
    constructor Hardware(cs: int)
      ensures this.cs == cs && hardware && calibration == Num(0.0)
    {
      this.cs := cs;
      calibration := Num(0.0);
      hardware := true;
    }

    /** Hardware mode with a calibration value; as in the source, the mode flag is left unset. */
    constructor HardwareCalibrated(cs: int, calibration: real)
      ensures this.cs == cs && this.calibration == Num(calibration)
    {
      this.cs := cs;
      this.calibration := Num(calibration);
    }

    /** spiread32 in hardware mode: four bytes shifted in, most significant first. */
    method SpiRead32(rx: seq<bv8>) returns (d: bv32)
      requires |rx| == 4
      ensures forall k :: 0 <= k < 4 ==> WordByte(d, k) == rx[k]
    {
      d := 0;
      for i := 0 to 4
        invariant forall k :: 0 <= k < 4 - i ==> WordByte(d, k) == 0
        invariant forall k :: 0 <= k < i ==> WordByte(d, 4 - i + k) == rx[k]
      {
        ShiftInByte(d, rx[i]);
        d := (d << 8) | rx[i] as bv32;
      }
    }

    /**
     * init's seeding: a faulted frame leaves the average alone (the source then
     * returns NaN through an int); otherwise the first sample becomes the
     * average outright and is returned.
     */
    method Init(rx: seq<bv8>) returns (r: Option<int>)
      requires |rx| == 4
      modifies this`movingRawTemp
      ensures Faulted(BigEndian(rx)) ==> r == None && movingRawTemp == old(movingRawTemp)
      ensures !Faulted(BigEndian(rx)) ==>
                movingRawTemp == Sample(BigEndian(rx)) % TWO_POW_32 && r == Some(Sample(BigEndian(rx)))
    {
      var v := SpiRead32(rx);
      BytesDetermineWord(v, BigEndian(rx));
      if v & 0x7 != 0 {
        return None;
      }
      movingRawTemp := Sample(v) % TWO_POW_32;
      r := Some(ToInt32(movingRawTemp));
    }

    /**
     * readCelsius: a faulted frame gives NaN and leaves the average alone;
     * otherwise the sample is folded into the average, which is converted to
     * °C with the unsigned subtraction of the source, plus the calibration
     * unless a raw reading is asked for.  From 0 °C up the conversion is the
     * signed one.
     */
    method ReadCelsius(raw: bool, rx: seq<bv8>) returns (c: Double)
      requires |rx| == 4
      modifies this`movingRawTemp
      ensures Faulted(BigEndian(rx)) ==> c == NaN && movingRawTemp == old(movingRawTemp)
      ensures !Faulted(BigEndian(rx)) ==>
                movingRawTemp == Average(old(movingRawTemp), Sample(BigEndian(rx)))
                && c == if raw then Num(CelsiusAsWritten(movingRawTemp))
                        else Plus(Num(CelsiusAsWritten(movingRawTemp)), calibration)
      ensures !Faulted(BigEndian(rx)) && movingRawTemp >= KELVIN_OFFSET ==>
                c == if raw then Num(Celsius(movingRawTemp)) else Plus(Num(Celsius(movingRawTemp)), calibration)
    {
      var v := SpiRead32(rx);
      BytesDetermineWord(v, BigEndian(rx));
      if v & 0x7 != 0 {
        return NaN;
      }
      movingRawTemp := Average(movingRawTemp, Sample(v));
      AsWrittenAgreesOnlyFromZero(movingRawTemp);
      c := Num(CelsiusAsWritten(movingRawTemp));
      if !raw {
        c := Plus(c, calibration);
      }
    }

    /**
     * readInternal: the chip's own temperature from bits 4-15, read as sign
     * and magnitude: the low seven bits of the third byte and the top half of
     * the fourth, negated when the third byte's top bit is set.  With that bit
     * clear it is the chip's two's-complement value.
     */
    method ReadInternal(rx: seq<bv8>) returns (t: real)
      requires |rx| == 4
      ensures var magnitude := ((rx[2] & 0x7F) as int * 0x10 + rx[3] as int / 0x10) as real * 0.0625;
              t == if rx[2] & 0x80 != 0 then -magnitude else magnitude
      ensures rx[2] & 0x80 == 0 ==> t == Internal(BigEndian(rx))
    {
      var v := SpiRead32(rx);
      BytesDetermineWord(v, BigEndian(rx));
      assert v & 0x8000 != 0 <==> rx[2] & 0x80 != 0;
      if v & 0x8000 == 0 {
        InternalAgreesWhenNonNegative(v);
      }
      t := InternalAsWritten(v);
    }

    /** readError: the three fault flags, `v & 0x7`. */
    method ReadError(rx: seq<bv8>) returns (e: bv8)
      requires |rx| == 4
      ensures e < 8 && e == rx[3] & 0x7
      ensures e != 0 <==> Faulted(BigEndian(rx))
    {
      var v := SpiRead32(rx);
      e := (v & 0x7) as bv8;
    }

    /** readFarenheit: a calibrated Celsius reading converted, NaN staying NaN. */
    method ReadFahrenheit(rx: seq<bv8>) returns (f: Double)
      requires |rx| == 4
      modifies this`movingRawTemp
      ensures Faulted(BigEndian(rx)) ==> f == NaN && movingRawTemp == old(movingRawTemp)
      ensures !Faulted(BigEndian(rx)) ==>
                movingRawTemp == Average(old(movingRawTemp), Sample(BigEndian(rx)))
                && f == Fahrenheit(Plus(Num(CelsiusAsWritten(movingRawTemp)), calibration))
    {
      var c := ReadCelsius(false, rx);
      f := Fahrenheit(c);
    }

    /**
     * calibrate(): a raw Celsius reading (thermoRx), then the internal
     * temperature (internalRx); the calibration becomes their difference, NaN
     * when the thermocouple frame was faulted.
     */
    method Calibrate(thermoRx: seq<bv8>, internalRx: seq<bv8>)
      requires |thermoRx| == 4 && |internalRx| == 4
      modifies this`movingRawTemp, this`calibration
      ensures movingRawTemp == if Faulted(BigEndian(thermoRx)) then old(movingRawTemp)
                               else Average(old(movingRawTemp), Sample(BigEndian(thermoRx)))
      ensures Faulted(BigEndian(thermoRx)) ==> calibration == NaN
      ensures !Faulted(BigEndian(thermoRx)) ==>
                calibration == Num(InternalAsWritten(BigEndian(internalRx)) - CelsiusAsWritten(movingRawTemp))
    {
      var thermoTemp := ReadCelsius(true, thermoRx);
      var intTemp := ReadInternal(internalRx);
      calibration := Minus(Num(intTemp), thermoTemp);
    }

    /** calibrate(double): sets the calibration outright. */
    method CalibrateTo(c: real)
      modifies this`calibration
      ensures calibration == Num(c)
    {
      calibration := Num(c);
    }

    /** readCalibration. */
    method ReadCalibration() returns (c: Double)
      ensures c == calibration
    {
      c := calibration;
    }
  }

  /**
   * calibrate() as the class performs it: with the average settled on a
   * frame, the next calibrated reading of that frame equals the internal
   * reading taken at calibration, whatever the conversions do, because the
   * same conversion enters both.
   */
  lemma {:induction false} CalibrationAlignsAsWritten(frame: bv32, internalFrame: bv32)
    requires !Faulted(frame) && Sample(frame) >= 0
    ensures var settled := Average(Sample(frame), Sample(frame));
            var calibration := Minus(Num(InternalAsWritten(internalFrame)), Num(CelsiusAsWritten(settled)));
            Plus(Num(CelsiusAsWritten(Average(settled, Sample(frame)))), calibration) == Num(InternalAsWritten(internalFrame))
  {
    SettledReadingIsFrameTemperature(frame);
  }

  /**
   * What calibrate() is for, with the intended conversions: with the average settled on a frame, the next
   * calibrated reading of that frame equals the internal temperature measured
   * at calibration.
   */
  lemma {:induction false} CalibrationAlignsWithInternal(frame: bv32, internalFrame: bv32)
    requires !Faulted(frame) && Sample(frame) >= 0
    ensures var settled := Average(Sample(frame), Sample(frame));
            var calibration := Minus(Num(Internal(internalFrame)), Num(Celsius(settled)));
            Plus(Num(Celsius(Average(settled, Sample(frame)))), calibration) == Num(Internal(internalFrame))
  {
    SettledReadingIsFrameTemperature(frame);
  }
}
