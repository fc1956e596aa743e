/**
 * The driver object (class `BME280`): the identity check and calibration
 * read done at construction, and the forced-measurement cycle `measure`,
 * which triggers a conversion, polls the status register at most 30 times,
 * and on completion reads the raw block and runs the compensation in the
 * order temperature, pressure, humidity.
 */
module Driver {
  import opened Registers
  import opened Calibration
  import opened RawMeasures
  import opened Compensation
  import opened Bus

  /** The poll budget of `measure`. */
  const MaxPolls: nat := 30

  /** The status byte the device answers the i-th poll (from 0) with. */
  function StatusAt(script: seq<byte>, regs: RegisterFile, i: nat): byte {
    if i < |script| then script[i] else regs[Status]
  }

  /** The do-while poll loop from its k-th read on. */
  function PollsFrom(script: seq<byte>, regs: RegisterFile, k: nat): nat
    requires 1 <= k <= MaxPolls
    decreases MaxPolls - k
  {
    if !IsMeasuring(StatusAt(script, regs, k - 1)) || k == MaxPolls then k
    else PollsFrom(script, regs, k + 1)
  }

  /** The number of status reads `measure` makes against a device with this script. */
  function Polls(script: seq<byte>, regs: RegisterFile): nat {
    PollsFrom(script, regs, 1)
  }

  lemma {:induction false} PollsFromBounds(script: seq<byte>, regs: RegisterFile, k: nat)
    requires 1 <= k <= MaxPolls
    ensures k <= PollsFrom(script, regs, k) <= MaxPolls
    ensures forall i :: k - 1 <= i < PollsFrom(script, regs, k) - 1 ==> IsMeasuring(StatusAt(script, regs, i))
    ensures PollsFrom(script, regs, k) < MaxPolls ==> !IsMeasuring(StatusAt(script, regs, PollsFrom(script, regs, k) - 1))
    decreases MaxPolls - k
  {
    if IsMeasuring(StatusAt(script, regs, k - 1)) && k < MaxPolls {
      PollsFromBounds(script, regs, k + 1);
    }
  }

  /**
   * The poll loop reads the status register at least once and at most 30
   * times; every read but the last saw the measuring bit set, and a loop
   * that stops early stops on a read with the bit clear.
   */
  lemma PollsBounds(script: seq<byte>, regs: RegisterFile)
    ensures 1 <= Polls(script, regs) <= MaxPolls
    ensures forall i :: 0 <= i < Polls(script, regs) - 1 ==> IsMeasuring(StatusAt(script, regs, i))
    ensures Polls(script, regs) < MaxPolls ==> !IsMeasuring(StatusAt(script, regs, Polls(script, regs) - 1))
  {
    PollsFromBounds(script, regs, 1);
  }

  /** The first `n` polls all saw the measuring bit set. */
  predicate AllBusy(script: seq<byte>, regs: RegisterFile, n: nat) {
    forall i :: 0 <= i < n ==> IsMeasuring(StatusAt(script, regs, i))
  }

  lemma AllBusyStep(script: seq<byte>, regs: RegisterFile, n: nat)
    requires AllBusy(script, regs, n) && IsMeasuring(StatusAt(script, regs, n))
    ensures AllBusy(script, regs, n + 1)
  {
  }

  /** The properties of PollsBounds determine the count. */
  lemma PollsUnique(script: seq<byte>, regs: RegisterFile, n: nat)
    requires 1 <= n <= MaxPolls
    requires AllBusy(script, regs, n - 1)
    requires n == MaxPolls || !IsMeasuring(StatusAt(script, regs, n - 1))
    ensures n == Polls(script, regs)
  {
    PollsBounds(script, regs);
  }

  /**
   * The budget is used up exactly when the first 29 reads all saw the
   * measuring bit set, whatever the 30th read shows: a conversion that
   * completes on the last poll is still handled as a timeout.
   */
  lemma {:induction false} TimeoutExactly(script: seq<byte>, regs: RegisterFile)
    ensures Polls(script, regs) == MaxPolls
            <==> forall i :: 0 <= i < MaxPolls - 1 ==> IsMeasuring(StatusAt(script, regs, i))
  {
    PollsBounds(script, regs);
    if forall i :: 0 <= i < MaxPolls - 1 ==> IsMeasuring(StatusAt(script, regs, i)) {
      PollsUnique(script, regs, MaxPolls);
    }
  }

  /** `n` reads of the status register. */
  function StatusReads(n: nat): (t: seq<Transfer>)
    ensures |t| == n && forall i :: 0 <= i < n ==> t[i] == RegRead(Status, 1)
  {
    seq(n, _ => RegRead(Status, 1))
  }

  lemma StatusReadsStep(n: nat)
    ensures StatusReads(n + 1) == StatusReads(n) + [RegRead(Status, 1)]
  {
  }

  /**
   * After `n` status reads, the device's next status byte is the n-th of the
   * stream, and one more read consumes one more script entry.
   */
  lemma PollStep(script: seq<byte>, regs: RegisterFile, n: nat)
    ensures StatusHead(Consume(script, n), regs) == StatusAt(script, regs, n)
    ensures Consume(script, n + 1) == Consume(Consume(script, n), 1)
  {
  }

  /** The bus transfers of `set_calibration`, in order. */
  function CalibrationReads(): seq<Transfer> {
    [RegRead(CalibP1, CalibSize1), RegRead(CalibP2, CalibSize2),
     RegRead(CalibP3, CalibSize3), RegRead(CalibP4, CalibSize4)]
  }

  /** The coefficients the calibration area of `regs` decodes to. */
  function CalibrationOf(c: CalibrationData, regs: RegisterFile): CalibrationData {
    Decode(c, Block(regs, CalibP1, CalibSize1), Block(regs, CalibP2, CalibSize2),
           Block(regs, CalibP3, CalibSize3), Block(regs, CalibP4, CalibSize4))
  }

  /** The two writes that start a forced conversion, humidity control first. */
  function TriggerWrites(): seq<Transfer> {
    [RegWrite(CtrlHum, OsrsHX1), RegWrite(CtrlMeas, CtrlMeasForced())]
  }

  /** The trace of a cycle, appended transfer group by transfer group. */
  lemma TraceOfCycle(before: seq<Transfer>, n: nat)
    ensures n >= MaxPolls ==> before + TriggerWrites() + StatusReads(n) == before + MeasureTransfers(n)
    ensures n < MaxPolls ==> before + TriggerWrites() + StatusReads(n) + [RegRead(Measures, MeasuresSize)]
                             == before + MeasureTransfers(n)
  {
  }

  /** The stored state of one reading: raw counts, t_fine and the three outputs. */
  datatype Readings = Readings(raw: RawAdc, tFine: int, temperature: int, pressure: int, humidity: int)

  /**
   * The reading one completed cycle stores: temperature first, then
   * pressure and humidity, both from the t_fine this temperature step produced.
   */
  function Cycle(raw: RawAdc, c: CalibrationData): Readings {
    var t := CompensateT(raw.adcT, c);
    Readings(raw, t.tFine, t.centiCelsius, CompensateP(raw.adcP, t.tFine, c), CompensateH(raw.adcH, t.tFine, c))
  }

  /** The transfers of one `measure` cycle that polls `n` times. */
  function MeasureTransfers(n: nat): seq<Transfer> {
    TriggerWrites() + StatusReads(n) + if n < MaxPolls then [RegRead(Measures, MeasuresSize)] else []
  }

  /**
   * In every cycle ctrl_hum is written strictly before ctrl_meas, both
   * before the first status read, and the raw block is read last and only
   * when the cycle completes.
   */
  lemma {:induction false} MeasureOrdering(n: nat)
    requires 1 <= n <= MaxPolls
    ensures MeasureTransfers(n)[0] == RegWrite(CtrlHum, 0x01)
    ensures MeasureTransfers(n)[1] == RegWrite(CtrlMeas, 0x25)
    ensures forall i :: 2 <= i < 2 + n ==> MeasureTransfers(n)[i] == RegRead(Status, 1)
    ensures n < MaxPolls <==> RegRead(Measures, MeasuresSize) in MeasureTransfers(n)
    ensures n < MaxPolls ==> MeasureTransfers(n)[|MeasureTransfers(n)| - 1] == RegRead(Measures, MeasuresSize)
  {
    CtrlMeasValue();
    var t := MeasureTransfers(n);
    if n == MaxPolls {
      assert t == TriggerWrites() + StatusReads(n);
      forall i | 0 <= i < |t| ensures t[i] != RegRead(Measures, MeasuresSize) {
        if i >= 2 { assert t[i] == StatusReads(n)[i - 2]; }
      }
    } else {
      assert t[|t| - 1] == RegRead(Measures, MeasuresSize);
    }
  }

  class Bme280 {
    const bus: ScriptedBus
    const slaveAdd: byte
    var available: bool
    var cal: CalibrationData
    var adcP: int
    var adcT: int
    var adcH: int
    var tFine: int
    var compT: int
    var compP: int
    var compH: int

    /**
     * Construction checks the identity register and reads the calibration
     * area only when it holds 0x60.
     */
    constructor (bus: ScriptedBus, slaveAdd: byte)
      modifies bus
      ensures this.bus == bus && this.slaveAdd == slaveAdd
      ensures available <==> bus.regs[IdReg] == IdVal
      ensures available ==> cal == CalibrationOf(Blank, bus.regs)
      ensures bus.trace == old(bus.trace) + [RegRead(IdReg, 1)] + if available then CalibrationReads() else []
      ensures bus.statusScript == old(bus.statusScript)
    {
      this.bus := bus;
      this.slaveAdd := slaveAdd;
      cal := Blank;
      new;
      available := CheckId();
      if available {
        SetCalibration();
      }
    }

    /** `read_reg`: one register, through one read transfer. */
    method ReadReg(reg: byte) returns (v: byte)
      modifies bus
      ensures bus.trace == old(bus.trace) + [RegRead(reg, 1)]
      ensures reg == Status ==> v == old(bus.NextStatus()) && bus.statusScript == Consume(old(bus.statusScript), 1)
      ensures reg != Status ==> v == bus.regs[reg] && bus.statusScript == old(bus.statusScript)
    {
      var data := bus.Read(reg, 1);
      v := data[0];
    }

    /** `read_registers`: `nb` consecutive registers from `start`. */
    method ReadRegisters(start: byte, nb: byte) returns (data: seq<byte>)
      modifies bus
      ensures bus.trace == old(bus.trace) + [RegRead(start, nb)]
      ensures start == Status && nb > 0 ==>
                data == [old(bus.NextStatus())] + Block(bus.regs, Status + 1, nb - 1)
                && bus.statusScript == Consume(old(bus.statusScript), 1)
      ensures start != Status || nb == 0 ==>
                data == Block(bus.regs, start, nb) && bus.statusScript == old(bus.statusScript)
    {
      data := bus.Read(start, nb);
    }

    /** `write_reg`: the frame `[reg, val]` in one transfer. */
    method WriteReg(reg: byte, val: byte)
      modifies bus
      ensures bus.trace == old(bus.trace) + [RegWrite(reg, val)]
      ensures bus.statusScript == old(bus.statusScript)
    {
      bus.Write(reg, val);
    }

    /** `check_id`: accepted exactly when the identity register reads 0x60. */
    method CheckId() returns (res: bool)
      modifies bus
      ensures res <==> bus.regs[IdReg] == IdVal
      ensures bus.trace == old(bus.trace) + [RegRead(IdReg, 1)]
      ensures bus.statusScript == old(bus.statusScript)
    {
      var id := ReadReg(IdReg);
      res := id == IdVal;
    }

    /** `set_calibration`: the four blocks, read and decoded in order. */
    method SetCalibration()
      modifies this, bus
      ensures cal == CalibrationOf(old(cal), bus.regs)
      ensures bus.trace == old(bus.trace) + CalibrationReads()
      ensures bus.statusScript == old(bus.statusScript)
      ensures available == old(available) && adcP == old(adcP) && adcT == old(adcT) && adcH == old(adcH)
      ensures tFine == old(tFine) && compT == old(compT) && compP == old(compP) && compH == old(compH)
    {
      var data := ReadRegisters(CalibP1, CalibSize1);
      cal := SetCalibPart1(cal, data);
      data := ReadRegisters(CalibP2, CalibSize2);
      cal := SetCalibPart2(cal, data);
      data := ReadRegisters(CalibP3, CalibSize3);
      cal := SetCalibPart3(cal, data);
      data := ReadRegisters(CalibP4, CalibSize4);
      cal := SetCalibPart4(cal, data);
    }

    /** `set_all_measures_8`: store the three raw counts of the block. */
    method SetAllMeasures(data: seq<byte>)
      requires |data| == MeasuresSize
      modifies this`adcP, this`adcT, this`adcH
      ensures RawAdc(adcP, adcT, adcH) == Unpack(data)
    {
      var raw := Unpack(data);
      adcP, adcT, adcH := raw.adcP, raw.adcT, raw.adcH;
    }

    /** The raw counts, t_fine and the outputs as the object holds them. */
    function Snapshot(): Readings
      reads this
    {
      Readings(RawAdc(adcP, adcT, adcH), tFine, compT, compP, compH)
    }

    /** `compensate_T_int32`: also stores t_fine for the two steps that follow. */
    method CompensateTemperature() returns (t: int)
      modifies this`tFine
      ensures tFine == CompensateT(adcT, cal).tFine
      ensures t == CompensateT(adcT, cal).centiCelsius
    {
      var r := CompensateT(adcT, cal);
      tFine := r.tFine;
      t := r.centiCelsius;
    }

    /** `compensate_P_int64`, reading the stored t_fine. */
    method CompensatePressure() returns (p: int)
      ensures p == CompensateP(adcP, tFine, cal)
      ensures PressureDenominator(tFine, cal) == 0 ==> p == 0
    {
      p := CompensateP(adcP, tFine, cal);
    }

    /** `compensate_H_int32`, reading the stored t_fine. */
    method CompensateHumidity() returns (h: int)
      ensures h == CompensateH(adcH, tFine, cal)
      ensures 0 <= h <= 102400
    {
      h := CompensateH(adcH, tFine, cal);
    }

    /** The two writes at the head of `measure`: ctrl_hum, then ctrl_meas with the forced bit. */
    method StartConversion()
      modifies bus
      ensures bus.trace == old(bus.trace) + TriggerWrites()
      ensures bus.statusScript == old(bus.statusScript)
    {
      WriteReg(CtrlHum, OsrsHX1);
      WriteReg(CtrlMeas, CtrlMeasForced());
    }

    /**
     * The do-while loop of `measure`: read the status register until the
     * measuring bit is clear or 30 reads have been made; `count` is the
     * number of reads.
     */
    method PollStatus() returns (count: nat)
      modifies bus
      ensures count == Polls(old(bus.statusScript), bus.regs)
      ensures 1 <= count <= MaxPolls
      ensures bus.trace == old(bus.trace) + StatusReads(count)
      ensures bus.statusScript == Consume(old(bus.statusScript), count)
    {
      ghost var script, regs := bus.statusScript, bus.regs;
      var status: byte := 0;
      count := 0;
      while count == 0 || (IsMeasuring(status) && count < MaxPolls)
        invariant count <= MaxPolls
        invariant count > 0 ==> status == StatusAt(script, regs, count - 1)
        invariant count > 0 ==> AllBusy(script, regs, count - 1)
        invariant bus.statusScript == Consume(script, count)
        invariant bus.trace == old(bus.trace) + StatusReads(count)
        decreases MaxPolls - count
      {
        PollStep(script, regs, count);
        StatusReadsStep(count);
        if count > 0 { AllBusyStep(script, regs, count - 1); }
        status := ReadReg(Status);
        count := count + 1;
      }
      PollsUnique(script, regs, count);
    }

    /**
     * The completion branch of `measure`: read the raw block, store its
     * counts, then compensate temperature, pressure and humidity in that order.
     */
    method Complete()
      modifies this`adcP, this`adcT, this`adcH, this`tFine, this`compT, this`compP, this`compH, bus
      ensures Snapshot() == Cycle(Unpack(Block(bus.regs, Measures, MeasuresSize)), cal)
      ensures bus.trace == old(bus.trace) + [RegRead(Measures, MeasuresSize)]
      ensures bus.statusScript == old(bus.statusScript)
    {
      var data := ReadRegisters(Measures, MeasuresSize);
      SetAllMeasures(data);
      compT := CompensateTemperature();
      compP := CompensatePressure();
      compH := CompensateHumidity();
    }

    /**
     * `measure`: trigger, poll, and either store a new reading computed
     * from this cycle's raw block, or, after 30 polls, leave every field
     * as it was.
     */
    method Measure()
      modifies this`adcP, this`adcT, this`adcH, this`tFine, this`compT, this`compP, this`compH, bus
      ensures var n := Polls(old(bus.statusScript), bus.regs);
              bus.trace == old(bus.trace) + MeasureTransfers(n)
              && bus.statusScript == Consume(old(bus.statusScript), n)
      ensures Snapshot() == if Polls(old(bus.statusScript), bus.regs) < MaxPolls
                            then Cycle(Unpack(Block(bus.regs, Measures, MeasuresSize)), cal)
                            else old(Snapshot())
    {
      ghost var before := bus.trace;
      StartConversion();
      var count := PollStatus();
      TraceOfCycle(before, count);
      if count != MaxPolls {
        Complete();
      }
    }
  }
}
