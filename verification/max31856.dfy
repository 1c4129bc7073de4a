/**
 * The MAX31856 thermocouple driver (class MAX31856TC).
 *
 * The driver keeps a shadow copy of the chip's twelve configuration
 * registers, talks to the chip in SPI frames (one frame per chip-select
 * assertion, an opcode byte followed by data bytes, the register address
 * auto-incrementing after each byte), and decodes the 32-bit words it reads
 * into temperatures or one of three error conditions.
 *
 * The bus is abstract: every operation RETURNS the frames it drives on MOSI,
 * in order, and takes as inputs the bytes the chip drives on MISO during its
 * read frames.  A missing or unpowered chip leaves MISO pulled up, so it
 * answers 0xFF to every byte.
 */
module Max31856 {
  import opened Bits

  /** NUM_REGISTERS: the configuration registers 0x00-0x0B the driver shadows. */
  const NUM_REGISTERS: nat := 12

  /** The chip's power-on register values, with which the shadow bank starts. */
  const DEFAULT_REGISTERS: seq<bv8> :=
    [0x00, 0x03, 0xFF, 0x7F, 0xC0, 0x7F, 0xFF, 0x80, 0x00, 0x00, 0x00, 0x00]

  /** First register of the cold-junction block: LTLFTL, CJTO, CJTH, CJTL. */
  const CJ_BLOCK: bv8 := 0x08
  /** First register of the thermocouple block: LTCBH, LTCBM, LTCBL, SR. */
  const LTC_BLOCK: bv8 := 0x0C

  /** What a read of four registers returns when nothing drives MISO. */
  const NO_RESPONSE: seq<bv8> := [0xFF, 0xFF, 0xFF, 0xFF]

  /** The bytes driven on MOSI during one chip-select assertion. */
  type Frame = seq<bv8>

  /** WRITE_OPERATION: the register address with the write bit (bit 7) set. */
  function WriteOperation(r: bv8): (op: bv8)
    ensures op & 0x80 != 0 && op & 0x7F == r & 0x7F
  {
    r | 0x80
  }

  /** READ_OPERATION: the register address with the write bit clear. */
  function ReadOperation(r: bv8): (op: bv8)
    ensures op & 0x80 == 0 && op & 0x7F == r & 0x7F
  {
    r & 0x7F
  }

  /** A four-register read starting at r: the opcode, then four dummy zero bytes. */
  function ReadFrame(r: bv8): Frame
  {
    [ReadOperation(r), 0, 0, 0, 0]
  }

  /** writeRegister's frame: the write opcode, then the value. */
  function WriteFrame(r: bv8, d: bv8): Frame
  {
    [WriteOperation(r), d]
  }

  /** The recovery burst: the write opcode for register 0, then the whole bank in address order. */
  function RecoveryFrame(bank: seq<bv8>): Frame
  {
    [WriteOperation(0)] + bank
  }

  /** The unit byte passed to the read operations: FAHRENHEIT, or anything else for Celsius. */
  datatype Unit = Celsius | Fahrenheit

  /**
   * What readThermocouple, readJunction and verifyMAX31856 return: a temperature,
   * or one of the sentinels NO_MAX31856, FAULT_OPEN and FAULT_VOLTAGE.
   */
  datatype Reading = NoDevice | FaultOpen | FaultVoltage | Temp(degrees: real)

  /**
   * The fault status register masks SR_FAULT_OPEN and SR_FAULT_UNDER_OVER_VOLTAGE:
   * non-zero, disjoint, and inside the status register (the low byte of the word).
   */
  datatype FaultMasks = FaultMasks(open: bv32, voltage: bv32)
  {
    predicate Valid()
    {
      open != 0 && voltage != 0 && open & voltage == 0 && open < 0x100 && voltage < 0x100
    }
  }

  /** Celsius, or `C * 9 / 5 + 32` when Fahrenheit is asked for. */
  function ToUnit(celsius: real, unit: Unit): (t: real)
    ensures unit == Celsius ==> t == celsius
    ensures unit == Fahrenheit ==> (t - 32.0) * 5.0 / 9.0 == celsius
  {
    if unit == Fahrenheit then celsius * 9.0 / 5.0 + 32.0 else celsius
  }

  /** The conversion to the unit keeps the order of temperatures. */
  lemma ToUnitMonotonic(a: real, b: real, unit: Unit)
    ensures a < b <==> ToUnit(a, unit) < ToUnit(b, unit)
  {
  }

  // ---------------------------------------------------------------------------
  // Thermocouple channel: registers 0x0C-0x0F

  /**
   * `data >> 13` on the signed 32-bit word: drops the fault status register and
   * the five unused bits of LTCBL.  The arithmetic shift is a floor division, so
   * the sign is kept.  The result counts 1/128 °C.
   */
  function ThermocoupleCount(data: bv32): (t: int)
    ensures -0x4_0000 <= t < 0x4_0000
    ensures t < 0 <==> data & 0x8000_0000 != 0
  {
    Signed(data) / 0x2000
  }

  /**
   * The decoding of a thermocouple word once the no-device and all-zero cases
   * are settled: the open-circuit bit wins over the voltage bit, a fault is
   * reported as it is (never converted to Fahrenheit), and otherwise the
   * count is scaled by 2^-7.
   */
  function DecodeThermocouple(data: bv32, m: FaultMasks, unit: Unit): (r: Reading)
    requires m.Valid()
    ensures r != NoDevice
    ensures r == FaultOpen <==> data & m.open != 0
    ensures r == FaultVoltage <==> data & m.open == 0 && data & m.voltage != 0
    ensures r.Temp? <==> data & (m.open | m.voltage) == 0
    ensures r.Temp? ==> ToUnit(-2048.0, unit) <= r.degrees < ToUnit(2048.0, unit)
    ensures r.Temp? ==> (r.degrees < ToUnit(0.0, unit) <==> data & 0x8000_0000 != 0)
  {
    if data & m.open != 0 then FaultOpen
    else if data & m.voltage != 0 then FaultVoltage
    else
      var t := ThermocoupleCount(data);
      ToUnitMonotonic(t as real / 128.0, 0.0, unit);
      ToUnitMonotonic(-2048.0, t as real / 128.0, unit);
      ToUnitMonotonic(t as real / 128.0, 2048.0, unit);
      Temp(ToUnit(t as real / 128.0, unit))
  }

  /**
   * readThermocouple's policy for the word read from 0x0C, given what
   * verifyMAX31856 would return: all ones means no device; zero means no
   * device when the chip's configuration turns out lost, and a genuine 0 °C
   * (32 °F) otherwise; any other word is decoded.
   */
  function ThermocoupleReading(data: bv32, verdict: Reading, m: FaultMasks, unit: Unit): (r: Reading)
    requires m.Valid()
    ensures data == 0xFFFF_FFFF ==> r == NoDevice
    ensures data == 0 && verdict == NoDevice ==> r == NoDevice
    ensures data == 0 && verdict != NoDevice ==> r == Temp(ToUnit(0.0, unit))
    ensures data != 0xFFFF_FFFF && data != 0 ==> r == DecodeThermocouple(data, m, unit)
  {
    if data == 0xFFFF_FFFF then NoDevice
    else if data == 0 && verdict == NoDevice then NoDevice
    else DecodeThermocouple(data, m, unit)
  }

  /**
   * The driver's shift of the whole word agrees with the chip's register
   * layout: the linearized temperature is a 19-bit two's-complement number
   * made of LTCBH (signed), LTCBM and the top three bits of LTCBL, whatever
   * the five unused bits and the fault status register hold.
   */
  lemma {:induction false} ThermocoupleLayout(b: seq<bv8>)
    requires |b| == 4
    ensures ThermocoupleCount(BigEndian(b)) == SignedByte(b[0]) * 0x800 + b[1] as int * 8 + b[2] as int / 0x20
  {
    SignedOfBytes(b);
    ShiftArithmetic(SignedByte(b[0]), b[1] as int, b[2] as int, b[3] as int);
  }

  lemma ShiftArithmetic(hi: int, mid: int, lo: int, status: int)
    requires 0 <= mid < 0x100 && 0 <= lo < 0x100 && 0 <= status < 0x100
    ensures (hi * 0x100_0000 + mid * 0x1_0000 + lo * 0x100 + status) / 0x2000
            == hi * 0x800 + mid * 8 + lo / 0x20
  {
    var q := hi * 0x800 + mid * 8 + lo / 0x20;
    assert hi * 0x100_0000 + mid * 0x1_0000 + lo * 0x100 + status == q * 0x2000 + (lo % 0x20) * 0x100 + status;
  }

  /** Reading the linearized temperature with no fault bit set: exactly the datasheet value, scaled. */
  lemma ThermocoupleValue(b: seq<bv8>, m: FaultMasks, unit: Unit)
    requires |b| == 4 && m.Valid() && b[3] as bv32 & (m.open | m.voltage) == 0
    ensures DecodeThermocouple(BigEndian(b), m, unit)
            == Temp(ToUnit((SignedByte(b[0]) * 0x800 + b[1] as int * 8 + b[2] as int / 0x20) as real / 128.0, unit))
  {
    StatusBits(BigEndian(b), b[3], m);
    ThermocoupleLayout(b);
  }

  /** The fault masks only see the status byte, the last one of the word. */
  lemma StatusBits(data: bv32, status: bv8, m: FaultMasks)
    requires m.Valid() && WordByte(data, 3) == status
    ensures data & m.open == status as bv32 & m.open
    ensures data & m.voltage == status as bv32 & m.voltage
  {
    assert data & 0xFF == status as bv32;
  }

  /** The two's-complement value of a word, from its bytes. */
  lemma SignedOfBytes(b: seq<bv8>)
    requires |b| == 4
    ensures Signed(BigEndian(b)) == SignedByte(b[0]) * 0x100_0000 + b[1] as int * 0x1_0000
                                    + b[2] as int * 0x100 + b[3] as int
  {
  }

  // ---------------------------------------------------------------------------
  // Cold-junction channel: registers 0x08-0x0B

  /** Register 9 (CJTO), bits 16-23 of the word, sign-extended from bit 7. */
  function JunctionOffset(data: bv32): (o: int)
    ensures -0x80 <= o < 0x80
    ensures o < 0 <==> data & 0x80_0000 != 0
  {
    SignedByte(WordByte(data, 1))
  }

  /**
   * Registers 10-11 (CJTH, CJTL): the low 16 bits sign-extended from bit 15,
   * then `>> 2` to drop the two unused bits.  Counts 1/64 °C.
   */
  function JunctionRaw(data: bv32): (j: int)
    ensures -0x2000 <= j < 0x2000
    ensures j < 0 <==> data & 0x8000 != 0
  {
    var low := WordByte(data, 2) as int * 0x100 + WordByte(data, 3) as int;
    var extended := if data & 0x8000 != 0 then low - 0x1_0000 else low;
    extended / 4
  }

  /** The cold-junction word decoded: (raw + offset) * 2^-6 °C, in the unit asked for. */
  function DecodeJunction(data: bv32, unit: Unit): (r: Reading)
    ensures r.Temp?
    ensures ToUnit(-130.0, unit) <= r.degrees < ToUnit(130.0, unit)
  {
    var c := (JunctionRaw(data) + JunctionOffset(data)) as real / 64.0;
    ToUnitMonotonic(-130.0, c, unit);
    ToUnitMonotonic(c, 130.0, unit);
    Temp(ToUnit(c, unit))
  }

  /** readJunction's policy: the same no-device and all-zero handling as readThermocouple. */
  function JunctionReading(data: bv32, verdict: Reading, unit: Unit): (r: Reading)
    ensures data == 0xFFFF_FFFF ==> r == NoDevice
    ensures data == 0 && verdict == NoDevice ==> r == NoDevice
    ensures data == 0 && verdict != NoDevice ==> r == Temp(ToUnit(0.0, unit))
    ensures data != 0xFFFF_FFFF && data != 0 ==> r == DecodeJunction(data, unit)
  {
    if data == 0xFFFF_FFFF then NoDevice
    else if data == 0 && verdict == NoDevice then NoDevice
    else DecodeJunction(data, unit)
  }

  /**
   * readJunction's word decoding as a per-register formula, the one the driver
   * applies: register 8 is ignored, CJTO is read as a signed byte and added
   * as it is to the 1/64 °C count, and CJTH:CJTL hold a 14-bit
   * two's-complement number above two unused bits.  The weight the chip
   * gives CJTO is not part of this model.
   */
  lemma {:induction false} JunctionLayout(b: seq<bv8>, unit: Unit)
    requires |b| == 4
    ensures JunctionOffset(BigEndian(b)) == SignedByte(b[1])
    ensures JunctionRaw(BigEndian(b)) == SignedByte(b[2]) * 0x40 + b[3] as int / 4
    ensures DecodeJunction(BigEndian(b), unit)
            == Temp(ToUnit((SignedByte(b[2]) * 0x40 + b[3] as int / 4 + SignedByte(b[1])) as real / 64.0, unit))
  {
    var data := BigEndian(b);
    SignBit15(data);
    var hi, lo := SignedByte(b[2]), b[3] as int;
    assert JunctionRaw(data) == (hi * 0x100 + lo) / 4;
    DropTwoBits(hi, lo);
  }

  /** Bit 15 of a word is the top bit of its third byte. */
  lemma SignBit15(w: bv32)
    ensures w & 0x8000 != 0 <==> WordByte(w, 2) & 0x80 != 0
  {
  }

  lemma DropTwoBits(hi: int, lo: int)
    requires 0 <= lo < 0x100
    ensures (hi * 0x100 + lo) / 4 == hi * 0x40 + lo / 4
  {
    assert hi * 0x100 + lo == (hi * 0x40 + lo / 4) * 4 + lo % 4;
  }

  /** A thermocouple word of 200.9375 °C, no fault: count 25720 in 1/128 °C. */
  lemma ThermocoupleExample(m: FaultMasks)
    requires m.Valid()
    ensures DecodeThermocouple(0x0C8F_0000, m, Celsius) == Temp(200.9375)
    ensures DecodeThermocouple(0x0C8F_0000, m, Fahrenheit) == Temp(393.6875)
  {
    ThermocoupleValue([0x0C, 0x8F, 0x00, 0x00], m, Celsius);
    ThermocoupleValue([0x0C, 0x8F, 0x00, 0x00], m, Fahrenheit);
  }

  /** A cold-junction word of 25.03125 °C: CJTH:CJTL 0x1900 (1600/64 °C) plus an offset of 2/64 °C. */
  lemma JunctionExample()
    ensures DecodeJunction(0x0002_1900, Celsius) == Temp(25.03125)
  {
    JunctionLayout([0x00, 0x02, 0x19, 0x00], Celsius);
  }

  // ---------------------------------------------------------------------------
  // Configuration check and recovery (verifyMAX31856)

  /**
   * The word the shadow bank says registers 0-3 should read as, assembled the
   * way verifyMAX31856 does it.
   */
  function BankWord(bank: seq<bv8>): (w: bv32)
    requires |bank| >= 4
    ensures forall k :: 0 <= k < 4 ==> WordByte(w, k) == bank[k]
  {
    ((bank[0] as bv32) << 24) + ((bank[1] as bv32) << 16) + ((bank[2] as bv32) << 8) + (bank[3] as bv32)
  }

  /**
   * The source compares words where the model compares bytes: four received
   * bytes equal registers 0-3 of the bank exactly when their word equals the
   * bank's word, and they are the no-response pattern exactly when their word
   * is all ones.
   */
  lemma WordsMatchBytes(bank: seq<bv8>, rx: seq<bv8>)
    requires |bank| >= 4 && |rx| == 4
    ensures rx == bank[..4] <==> BigEndian(rx) == BankWord(bank)
    ensures rx == NO_RESPONSE <==> BigEndian(rx) == 0xFFFF_FFFF
  {
    if BigEndian(rx) == BankWord(bank) {
      assert forall k :: 0 <= k < 4 ==> rx[k] == WordByte(BigEndian(rx), k) == bank[k];
      assert rx == bank[..4];
    }
    if rx == bank[..4] {
      BytesDetermineWord(BigEndian(rx), BankWord(bank));
    }
    if BigEndian(rx) == 0xFFFF_FFFF {
      assert forall k :: 0 <= k < 4 ==> rx[k] == WordByte(0xFFFF_FFFF, k) == 0xFF;
      assert rx == NO_RESPONSE;
    }
  }

  /**
   * verifyMAX31856's verdict, given the bank and what registers 0-3 read back as:
   * 0 (a genuine reading) when the chip answers and holds the bank's values,
   * no device otherwise.
   */
  function VerifyVerdict(bank: seq<bv8>, rx: seq<bv8>): (r: Reading)
    requires |bank| >= 4 && |rx| == 4
    ensures r == Temp(0.0) || r == NoDevice
    ensures r == Temp(0.0) <==> BigEndian(rx) != 0xFFFF_FFFF && BigEndian(rx) == BankWord(bank)
  {
    WordsMatchBytes(bank, rx);
    if rx != NO_RESPONSE && rx == bank[..4] then Temp(0.0) else NoDevice
  }

  /**
   * The frames verifyMAX31856 drives: the read of registers 0-3, then the
   * recovery burst when the chip answers but has lost its configuration.
   */
  function VerifyFrames(bank: seq<bv8>, rx: seq<bv8>): (f: seq<Frame>)
    requires |bank| >= 4 && |rx| == 4
    ensures 1 <= |f| <= 2 && f[0] == ReadFrame(0)
    ensures |f| == 2 <==> BigEndian(rx) != 0xFFFF_FFFF && BigEndian(rx) != BankWord(bank)
    ensures |f| == 2 ==> f[1] == RecoveryFrame(bank)
  {
    WordsMatchBytes(bank, rx);
    [ReadFrame(0)] + if rx != NO_RESPONSE && rx != bank[..4] then [RecoveryFrame(bank)] else []
  }

  // ---------------------------------------------------------------------------
  // The driver object

  class MAX31856TC {
    /** The chip-select pin. */
    const cs: int
    /** The header's fault status masks. */
    const masks: FaultMasks
    /** The shadow register bank `_registers`. */
    const registers: array<bv8>

    ghost predicate Valid()
      reads this
    {
      registers.Length == NUM_REGISTERS && masks.Valid()
    }

    /** The shadow bank starts with the chip's power-on defaults; bus set-up is not modelled. */
    constructor (cs: int, masks: FaultMasks)
      requires masks.Valid()
      ensures Valid() && fresh(registers)
      ensures this.cs == cs && this.masks == masks
      ensures registers[..] == DEFAULT_REGISTERS
    {
      this.cs := cs;
      this.masks := masks;
      registers := new bv8[NUM_REGISTERS];
      new;
      var reg := DEFAULT_REGISTERS;
      for i := 0 to NUM_REGISTERS
        invariant registers[..i] == reg[..i]
      {
        registers[i] := reg[i];
      }
    }

    /**
     * writeRegister: an out-of-range register number is ignored; otherwise the
     * value goes to the chip in one frame and into the shadow bank, and no
     * other bank entry changes.
     */
    method WriteRegister(registerNum: bv8, data: bv8) returns (sent: seq<Frame>)
      requires Valid()
      modifies registers
      ensures registerNum as int >= NUM_REGISTERS ==> sent == [] && registers[..] == old(registers[..])
      ensures registerNum as int < NUM_REGISTERS ==>
                sent == [WriteFrame(registerNum, data)]
                && registers[..] == old(registers[..])[registerNum as int := data]
    {
      if registerNum as int >= NUM_REGISTERS {
        return [];
      }
      sent := [[WriteOperation(registerNum), data]];
      registers[registerNum] := data;
    }

    /** readData: the four bytes clocked in, most significant first, as one word. */
    method ReadData(rx: seq<bv8>) returns (data: bv32)
      requires |rx| == 4
      ensures forall k :: 0 <= k < 4 ==> WordByte(data, k) == rx[k]
    {
      data := 0;
      data := data | (((rx[0] as bv32) << 24) & 0xFF00_0000);
      data := data | (((rx[1] as bv32) << 16) & 0x00FF_0000);
      data := data | (((rx[2] as bv32) << 8) & 0x0000_FF00);
      data := data | ((rx[3] as bv32) & 0x0000_00FF);
    }

    /**
     * verifyMAX31856: reads registers 0-3 (rx is what the chip answers).  No
     * answer means no device; an answer matching the bank means the
     * configuration is intact (result 0); any other answer triggers one burst
     * rewriting the whole bank, and still reports no device for this poll.
     * The bank itself is never changed.
     */
    method VerifyMAX31856(rx: seq<bv8>) returns (r: Reading, sent: seq<Frame>)
      requires Valid() && |rx| == 4
      ensures r == VerifyVerdict(registers[..], rx)
      ensures sent == VerifyFrames(registers[..], rx)
    {
      sent := [ReadFrame(0)];
      var data := ReadData(rx);
      MinusOneIsAllOnes(data);
      if Signed(data) == -1 {
        assert rx == NO_RESPONSE;
        return NoDevice, sent;
      }
      if rx == NO_RESPONSE {
        BytesDetermineWord(data, 0xFFFF_FFFF);
      }
      var reg := BankWord(registers[..]);
      if reg == data {
        assert rx == registers[..4];
        return Temp(0.0), sent;
      }
      if rx == registers[..4] {
        BytesDetermineWord(reg, data);
      }
      var burst := [WriteOperation(0)];
      for i := 0 to NUM_REGISTERS
        invariant burst == [0x80] + registers[..i]
      {
        burst := burst + [registers[i]];
      }
      assert registers[..NUM_REGISTERS] == registers[..];
      assert rx != NO_RESPONSE && rx != registers[..4];
      sent := sent + [burst];
      r := NoDevice;
    }

    /**
     * readThermocouple: reads registers 0x0C-0x0F (rx), consulting
     * verifyMAX31856 (whose read would return verifyRx) only when the word is
     * zero.  Nothing in the shadow bank changes.
     */
    method ReadThermocouple(unit: Unit, rx: seq<bv8>, verifyRx: seq<bv8>) returns (r: Reading, sent: seq<Frame>)
      requires Valid() && |rx| == 4 && |verifyRx| == 4
      ensures r == ThermocoupleReading(BigEndian(rx), VerifyVerdict(registers[..], verifyRx), masks, unit)
      ensures sent == [ReadFrame(LTC_BLOCK)]
                      + if BigEndian(rx) == 0 then VerifyFrames(registers[..], verifyRx) else []
    {
      sent := [ReadFrame(LTC_BLOCK)];
      var data := ReadData(rx);
      BytesDetermineWord(data, BigEndian(rx));
      MinusOneIsAllOnes(data);
      ZeroIsAllZeros(data);
      if Signed(data) == -1 {
        return NoDevice, sent;
      }
      if Signed(data) == 0 {
        var verdict, more := VerifyMAX31856(verifyRx);
        sent := sent + more;
        if verdict == NoDevice {
          return NoDevice, sent;
        }
      }
      r := DecodeThermocouple(data, masks, unit);
    }

    /**
     * readJunction: reads registers 0x08-0x0B (rx), with the same no-device and
     * all-zero handling as readThermocouple.
     */
    method ReadJunction(unit: Unit, rx: seq<bv8>, verifyRx: seq<bv8>) returns (r: Reading, sent: seq<Frame>)
      requires Valid() && |rx| == 4 && |verifyRx| == 4
      ensures r == JunctionReading(BigEndian(rx), VerifyVerdict(registers[..], verifyRx), unit)
      ensures sent == [ReadFrame(CJ_BLOCK)]
                      + if BigEndian(rx) == 0 then VerifyFrames(registers[..], verifyRx) else []
    {
      sent := [ReadFrame(CJ_BLOCK)];
      var data := ReadData(rx);
      BytesDetermineWord(data, BigEndian(rx));
      MinusOneIsAllOnes(data);
      ZeroIsAllZeros(data);
      if Signed(data) == -1 {
        return NoDevice, sent;
      }
      if Signed(data) == 0 {
        var verdict, more := VerifyMAX31856(verifyRx);
        sent := sent + more;
        if verdict == NoDevice {
          return NoDevice, sent;
        }
      }
      r := DecodeJunction(data, unit);
    }
  }
}
