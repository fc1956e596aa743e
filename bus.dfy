/**
 * The two-wire bus seen from the driver, replaced by a scripted device: a
 * register file with fixed contents, except that successive reads of the
 * status register return the bytes of a script, one per read, and then
 * the register file's own status byte once the script is used up.  Every
 * transfer is appended to a trace, so the order of the driver's bus
 * operations can be stated.
 */
module Bus {
  import opened Registers

  /** The 256 registers of the device. */
  type RegisterFile = s: seq<byte> | |s| == 0x100 witness seq(0x100, _ => 0)

  /**
   * One transfer: a `[reg, value]` frame written, or `count` bytes read from
   * consecutive registers after the start address has been written.
   */
  datatype Transfer = RegWrite(reg: byte, value: byte) | RegRead(start: byte, count: nat)

  /** The bytes of `count` consecutive registers from `start`; the address pointer wraps. */
  function Block(regs: RegisterFile, start: byte, count: nat): (s: seq<byte>)
    ensures |s| == count
  {
    seq(count, i requires 0 <= i < count => regs[(start + i) % 0x100])
  }

  /**
   * The first three calibration blocks are one stretch of registers: reading
   * them one after another gives the same bytes as one read of 0x88..0xA1.
   */
  lemma CalibrationBlocksContiguous(regs: RegisterFile)
    ensures Block(regs, CalibP1, CalibSize1) + Block(regs, CalibP2, CalibSize2) + Block(regs, CalibP3, CalibSize3)
            == Block(regs, CalibP1, 26)
  {
    var whole := Block(regs, CalibP1, 26);
    assert Block(regs, CalibP1, CalibSize1) == whole[..10];
    assert Block(regs, CalibP2, CalibSize2) == whole[10..20];
    assert Block(regs, CalibP3, CalibSize3) == whole[20..];
  }

  /** The script left after `n` status reads. */
  function Consume(script: seq<byte>, n: nat): (rest: seq<byte>)
    ensures n <= |script| ==> script == script[..n] + rest
    ensures n >= |script| ==> rest == []
  {
    if n <= |script| then script[n..] else []
  }

  /** The next status byte of a device whose script is `script`. */
  function StatusHead(script: seq<byte>, regs: RegisterFile): byte {
    if |script| > 0 then script[0] else regs[Status]
  }

  class ScriptedBus {
    const regs: RegisterFile
    var statusScript: seq<byte>
    var trace: seq<Transfer>

    constructor (regs: RegisterFile, statusScript: seq<byte>)
      ensures this.regs == regs && this.statusScript == statusScript && trace == []
    {
      this.regs := regs;
      this.statusScript := statusScript;
      trace := [];
    }

    /** What the status register reads as next. */
    function NextStatus(): byte
      reads this
    {
      StatusHead(statusScript, regs)
    }

    /** Writes the start address, then reads `count` bytes. */
    method Read(start: byte, count: nat) returns (data: seq<byte>)
      modifies this
      ensures trace == old(trace) + [RegRead(start, count)]
      ensures |data| == count
      ensures start == Status && count > 0 ==>
                data == [old(NextStatus())] + Block(regs, Status + 1, count - 1)
                && statusScript == Consume(old(statusScript), 1)
      ensures start != Status || count == 0 ==>
                data == Block(regs, start, count) && statusScript == old(statusScript)
    {
      if start == Status && count > 0 {
        data := [NextStatus()] + Block(regs, Status + 1, count - 1);
        statusScript := Consume(statusScript, 1);
      } else {
        data := Block(regs, start, count);
      }
      trace := trace + [RegRead(start, count)];
    }

    /** Writes the frame `[reg, value]`; the scripted contents do not change. */
    method Write(reg: byte, value: byte)
      modifies this
      ensures trace == old(trace) + [RegWrite(reg, value)]
      ensures statusScript == old(statusScript)
    {
      trace := trace + [RegWrite(reg, value)];
    }
  }
}
