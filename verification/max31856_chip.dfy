/**
 * The chip's side of the register protocol, as far as the driver relies on
 * it: the configuration registers 0x00-0x0B as the chip holds them; a write
 * frame (opcode with bit 7 set) stores its data bytes at consecutive
 * addresses from the one in its opcode; a read frame changes nothing and
 * answers with the registers from its start address.  Bytes written past
 * the configuration registers reach read-only registers and are not kept.
 *
 * With it the lemmas below state what the driver's frames do: a register
 * write keeps chip and shadow bank in step, and the recovery burst of
 * verifyMAX31856 restores a chip that lost its configuration, one poll late.
 */
module Max31856Chip {
  import opened Bits
  import opened Max31856

  /** The chip's configuration after the bytes of data are written from address addr on. */
  function WriteBurst(chip: seq<bv8>, addr: nat, data: seq<bv8>): (c: seq<bv8>)
    ensures |c| == |chip|
    decreases |data|
  {
    if data == [] then chip
    else WriteBurst(if addr < |chip| then chip[addr := data[0]] else chip, addr + 1, data[1..])
  }

  /** Register k after a burst: the burst's byte for k if the burst covers k, else unchanged. */
  lemma {:induction false} WriteBurstAt(chip: seq<bv8>, addr: nat, data: seq<bv8>, k: nat)
    requires k < |chip|
    ensures WriteBurst(chip, addr, data)[k] == if addr <= k < addr + |data| then data[k - addr] else chip[k]
    decreases |data|
  {
    if data != [] {
      var next := if addr < |chip| then chip[addr := data[0]] else chip;
      WriteBurstAt(next, addr + 1, data[1..], k);
    }
  }

  /** The chip's configuration after one frame. */
  function ApplyFrame(chip: seq<bv8>, frame: Frame): (c: seq<bv8>)
    ensures |c| == |chip|
  {
    if |frame| == 0 || frame[0] & 0x80 == 0 then chip
    else WriteBurst(chip, (frame[0] & 0x7F) as int, frame[1..])
  }

  /** The chip's configuration after a sequence of frames, in order. */
  function ApplyFrames(chip: seq<bv8>, frames: seq<Frame>): (c: seq<bv8>)
    ensures |c| == |chip|
    decreases |frames|
  {
    if frames == [] then chip else ApplyFrames(ApplyFrame(chip, frames[0]), frames[1..])
  }

  /** What a read of four registers from address addr answers. */
  function ReadAnswer(chip: seq<bv8>, addr: nat): seq<bv8>
    requires addr + 4 <= |chip|
  {
    chip[addr..addr + 4]
  }

  /** A read frame leaves the chip's configuration alone. */
  lemma ReadFrameKeepsChip(chip: seq<bv8>, r: bv8)
    ensures ApplyFrame(chip, ReadFrame(r)) == chip
  {
  }

  /**
   * writeRegister's frame changes exactly the register written, just as
   * writeRegister changes exactly that shadow entry; so a chip that agreed
   * with the bank before the write agrees with it after.
   */
  lemma {:induction false} WriteFrameSetsRegister(chip: seq<bv8>, r: bv8, d: bv8)
    requires |chip| == NUM_REGISTERS && (r as int) < NUM_REGISTERS
    ensures ApplyFrame(chip, WriteFrame(r, d)) == chip[r as int := d]
  {
    var after := ApplyFrame(chip, WriteFrame(r, d));
    assert WriteOperation(r) & 0x7F == r;
    forall k | 0 <= k < |chip|
      ensures after[k] == chip[r as int := d][k]
    {
      WriteBurstAt(chip, r as int, [d], k);
    }
  }

  /** The recovery burst leaves the chip holding the whole bank, whatever it held before. */
  lemma {:induction false} RecoveryRestoresBank(chip: seq<bv8>, bank: seq<bv8>)
    requires |chip| == |bank| == NUM_REGISTERS
    ensures ApplyFrame(chip, RecoveryFrame(bank)) == bank
  {
    var after := ApplyFrame(chip, RecoveryFrame(bank));
    assert RecoveryFrame(bank)[1..] == bank;
    forall k | 0 <= k < |chip|
      ensures after[k] == bank[k]
    {
      WriteBurstAt(chip, 0, bank, k);
    }
  }

  /**
   * verifyMAX31856 against a chip that answers: when registers 0-3 disagree
   * with the bank it reports no device for this poll and its frames restore
   * the whole bank; the next verification then finds the configuration
   * intact and writes nothing.
   */
  lemma {:induction false} RecoveryTakesOnePoll(chip: seq<bv8>, bank: seq<bv8>)
    requires |chip| == |bank| == NUM_REGISTERS
    requires ReadAnswer(chip, 0) != NO_RESPONSE && ReadAnswer(chip, 0) != bank[..4]
    requires bank[..4] != NO_RESPONSE
    ensures VerifyVerdict(bank, ReadAnswer(chip, 0)) == NoDevice
    ensures ApplyFrames(chip, VerifyFrames(bank, ReadAnswer(chip, 0))) == bank
    ensures VerifyVerdict(bank, ReadAnswer(bank, 0)) == Temp(0.0)
    ensures VerifyFrames(bank, ReadAnswer(bank, 0)) == [ReadFrame(0)]
  {
    RecoveryFramesRestore(chip, bank);
  }

  /**
   * Whatever a responding chip holds, after verifyMAX31856's frames its
   * registers 0-3 agree with the bank: they either already did, or the burst
   * rewrote everything.
   */
  lemma {:induction false} VerifySyncsFirstFour(chip: seq<bv8>, bank: seq<bv8>)
    requires |chip| == |bank| == NUM_REGISTERS
    requires ReadAnswer(chip, 0) != NO_RESPONSE
    ensures ApplyFrames(chip, VerifyFrames(bank, ReadAnswer(chip, 0)))[..4] == bank[..4]
  {
    ReadFrameKeepsChip(chip, 0);
    if ReadAnswer(chip, 0) != bank[..4] {
      RecoveryFramesRestore(chip, bank);
    } else {
      assert VerifyFrames(bank, ReadAnswer(chip, 0)) == [ReadFrame(0)];
      assert ApplyFrames(chip, [ReadFrame(0)]) == ApplyFrames(chip, []);
    }
  }

  /** The read and the recovery burst together leave the chip holding the bank. */
  lemma RecoveryFramesRestore(chip: seq<bv8>, bank: seq<bv8>)
    requires |chip| == |bank| == NUM_REGISTERS
    requires ReadAnswer(chip, 0) != NO_RESPONSE && ReadAnswer(chip, 0) != bank[..4]
    ensures ApplyFrames(chip, VerifyFrames(bank, ReadAnswer(chip, 0))) == bank
  {
    var frames := VerifyFrames(bank, ReadAnswer(chip, 0));
    assert frames == [ReadFrame(0), RecoveryFrame(bank)];
    ReadFrameKeepsChip(chip, 0);
    RecoveryRestoresBank(chip, bank);
    calc {
      ApplyFrames(chip, frames);
      ApplyFrames(ApplyFrame(chip, ReadFrame(0)), frames[1..]);
      { assert frames[1..] == [RecoveryFrame(bank)]; }
      ApplyFrames(chip, [RecoveryFrame(bank)]);
      { assert [RecoveryFrame(bank)][1..] == []; }
      ApplyFrames(ApplyFrame(chip, RecoveryFrame(bank)), []);
      bank;
    }
  }

  /**
   * A bank whose registers 0-3 are all 0xFF can never be confirmed: the chip
   * holding it answers exactly like a missing chip, so every verification
   * reports no device, and once the chip holds the bank nothing is rewritten,
   * so the next verification reports no device again.
   */
  lemma AllOnesBankNeverVerifies(chip: seq<bv8>, bank: seq<bv8>)
    requires |chip| == |bank| == NUM_REGISTERS && bank[..4] == NO_RESPONSE
    ensures VerifyVerdict(bank, ReadAnswer(chip, 0)) == NoDevice
    ensures ReadAnswer(bank, 0) == NO_RESPONSE
    ensures VerifyFrames(bank, ReadAnswer(bank, 0)) == [ReadFrame(0)]
  {
    assert ReadAnswer(bank, 0) == bank[..4];
  }

  /**
   * The check covers registers 0-3 only: a chip that lost only some of
   * registers 4-11 passes verification and is not rewritten.
   */
  lemma OnlyFirstFourChecked(chip: seq<bv8>, bank: seq<bv8>)
    requires |chip| == |bank| == NUM_REGISTERS
    requires chip[..4] == bank[..4] && bank[..4] != NO_RESPONSE
    ensures VerifyVerdict(bank, ReadAnswer(chip, 0)) == Temp(0.0)
    ensures ApplyFrames(chip, VerifyFrames(bank, ReadAnswer(chip, 0))) == chip
  {
    assert VerifyFrames(bank, ReadAnswer(chip, 0)) == [ReadFrame(0)];
    ReadFrameKeepsChip(chip, 0);
    assert ApplyFrames(chip, [ReadFrame(0)]) == ApplyFrames(chip, []);
  }

  /**
   * The defaults round trip: after the burst of the power-on bank, registers
   * 0-3 read back as exactly the word the driver compares against.
   */
  lemma DefaultsReadBack(chip: seq<bv8>)
    requires |chip| == NUM_REGISTERS
    ensures BigEndian(ReadAnswer(ApplyFrame(chip, RecoveryFrame(DEFAULT_REGISTERS)), 0)) == BankWord(DEFAULT_REGISTERS)
  {
    RecoveryRestoresBank(chip, DEFAULT_REGISTERS);
    var answer := ReadAnswer(DEFAULT_REGISTERS, 0);
    BytesDetermineWord(BigEndian(answer), BankWord(DEFAULT_REGISTERS));
  }
}
