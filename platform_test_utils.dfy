/** Register and buffer helpers of the dummy platform device
    (assignment_07/non_dts/platform_test-utils.c).

    The device state is given twice: as the value `DevState` on which the
    helpers are specified and reasoned about, and as the class
    `PlatDummyDevice`, whose fields are the mapped regions of the
    `plat_dummy_device` structure and whose methods update them in place. */
module PlatformTestUtils {
  import opened DummyDev

  /** Value view of the device: the inbound buffer, the outbound buffer and
      the register block as 32-bit words. */
  datatype DevState = DevState(rdBuf: seq<bv8>, wrBuf: seq<bv8>, regs: seq<bv32>)
  {
    predicate Valid()
    {
      |rdBuf| == MEM_SIZE && |wrBuf| == MEM_SIZE && |regs| == REG_WORDS
    }

    function Flags(): bv32
      requires Valid()
    {
      regs[RegWordIndex(PLAT_IO_FLAGS_REG)]
    }

    function ReadSize(): bv32
      requires Valid()
    {
      regs[RegWordIndex(PLAT_RD_SIZE_REG)]
    }

    function WriteSize(): bv32
      requires Valid()
    {
      regs[RegWordIndex(PLAT_WR_SIZE_REG)]
    }
  }

  /** The inbound-ready test of plat_dummy_is_rd_buf_ready. */
  function RdReady(flags: bv32): (r: bool)
    ensures r <==> flags % 2 == 1
  {
    flags & PLAT_RD_DATA_READY != 0
  }

  /** Bit 1 of the flags: the outbound-ready bit that plat_dummy_set_wr_buf_ready sets. */
  function WrReady(flags: bv32): (r: bool)
    ensures r <==> (flags >> 1) % 2 == 1
  {
    flags & PLAT_WR_DATA_READY != 0
  }

  /** The outbound-ready test of plat_dummy_is_wr_buf_ready as written: the
      flags are masked with the write-size register OFFSET, so bit 3 is
      tested, not the WR-ready bit 1. */
  function WrReadyTest(flags: bv32): (r: bool)
    ensures r <==> (flags >> 3) % 2 == 1
  {
    flags & PLAT_WR_SIZE_REG_WORD != 0
  }

  /** The read-modify-write of plat_dummy_clear_rd_buf_ready on the flags word. */
  function ClearRdReady(flags: bv32): (r: bv32)
    ensures !RdReady(r)
    ensures r & !PLAT_RD_DATA_READY == flags & !PLAT_RD_DATA_READY
  {
    flags & !PLAT_RD_DATA_READY
  }

  /** The read-modify-write of plat_dummy_set_wr_buf_ready on the flags word. */
  function SetWrReady(flags: bv32): (r: bv32)
    ensures WrReady(r)
    ensures r & !PLAT_WR_DATA_READY == flags & !PLAT_WR_DATA_READY
  {
    flags | PLAT_WR_DATA_READY
  }

  /** A 32-bit store into the register block (plat_dummy_reg_write32). */
  function RegWrite(s: DevState, offset: nat, val: bv32): (t: DevState)
    requires s.Valid() && IsRegOffset(offset)
    ensures t.Valid() && t.rdBuf == s.rdBuf && t.wrBuf == s.wrBuf
    ensures t.regs[RegWordIndex(offset)] == val
    ensures forall w :: 0 <= w < REG_WORDS && w != RegWordIndex(offset) ==> t.regs[w] == s.regs[w]
  {
    s.(regs := s.regs[RegWordIndex(offset) := val])
  }

  /** plat_dummy_clear_rd_buf_ready: bit 0 of the flags is cleared, and
      nothing else in the device changes. */
  function ClearRdBufReadyEffect(s: DevState): (t: DevState)
    requires s.Valid()
    ensures t.Valid() && t.rdBuf == s.rdBuf && t.wrBuf == s.wrBuf
    ensures t.Flags() == ClearRdReady(s.Flags()) && !RdReady(t.Flags())
    ensures t.ReadSize() == s.ReadSize() && t.WriteSize() == s.WriteSize()
    ensures forall w :: 0 < w < REG_WORDS ==> t.regs[w] == s.regs[w]
  {
    RegWrite(s, PLAT_IO_FLAGS_REG, ClearRdReady(s.Flags()))
  }

  /** plat_dummy_set_wr_buf_ready(n): the write size is published as `n`,
      then bit 1 of the flags is set; nothing else changes. */
  function SetWrBufReadyEffect(s: DevState, n: bv32): (t: DevState)
    requires s.Valid()
    ensures t.Valid() && t.rdBuf == s.rdBuf && t.wrBuf == s.wrBuf
    ensures t.WriteSize() == n
    ensures t.Flags() == SetWrReady(s.Flags()) && WrReady(t.Flags())
    ensures t.ReadSize() == s.ReadSize()
    ensures forall w :: 0 <= w < REG_WORDS && w != RegWordIndex(PLAT_IO_FLAGS_REG) && w != RegWordIndex(PLAT_WR_SIZE_REG) ==> t.regs[w] == s.regs[w]
  {
    var sized := RegWrite(s, PLAT_WR_SIZE_REG, n);
    RegWrite(sized, PLAT_IO_FLAGS_REG, SetWrReady(sized.Flags()))
  }

  /** Clearing the RD-ready bit twice is clearing it once, and afterwards the
      RD-ready test fails. */
  lemma ClearRdBufReadyIdempotent(s: DevState)
    requires s.Valid()
    ensures ClearRdBufReadyEffect(ClearRdBufReadyEffect(s)) == ClearRdBufReadyEffect(s)
    ensures !RdReady(ClearRdBufReadyEffect(s).Flags())
  {
    var t := ClearRdBufReadyEffect(s);
    assert ClearRdReady(t.Flags()) == t.Flags();
    assert t.regs[0 := t.Flags()] == t.regs;
  }

  /** Publishing the same size twice is publishing it once. */
  lemma SetWrBufReadyIdempotent(s: DevState, n: bv32)
    requires s.Valid()
    ensures SetWrBufReadyEffect(SetWrBufReadyEffect(s, n), n) == SetWrBufReadyEffect(s, n)
  {
    var t := SetWrBufReadyEffect(s, n);
    assert SetWrReady(t.Flags()) == t.Flags();
    assert t.regs[RegWordIndex(PLAT_WR_SIZE_REG) := n] == t.regs;
    assert t.regs[0 := t.Flags()] == t.regs;
  }

  /** Setting the WR-ready bit never changes what plat_dummy_is_wr_buf_ready
      answers, because that test looks at bit 3, which is left alone. */
  lemma SetWrBufReadyKeepsWrTest(s: DevState, n: bv32)
    requires s.Valid()
    ensures WrReadyTest(SetWrBufReadyEffect(s, n).Flags()) == WrReadyTest(s.Flags())
  {
    SetWrReadyKeepsWrTest(s.Flags());
  }

  /** The word-level fact behind SetWrBufReadyKeepsWrTest. */
  lemma SetWrReadyKeepsWrTest(flags: bv32)
    ensures WrReadyTest(SetWrReady(flags)) == WrReadyTest(flags)
  {
  }

  /** The WR-ready test and the WR-ready bit disagree: with only bit 1 set the
      buffer has been published, yet the test reports it not ready; with only
      bit 3 set the test reports it ready although bit 1 is clear. */
  lemma WrReadyTestMissesWrReadyBit()
    ensures WrReady(PLAT_WR_DATA_READY) && !WrReadyTest(PLAT_WR_DATA_READY)
    ensures !WrReady(PLAT_WR_SIZE_REG_WORD) && WrReadyTest(PLAT_WR_SIZE_REG_WORD)
  {
  }

  /** The dummy device: the three mapped regions of `plat_dummy_device`, its
      polling period, and whether each delayed work item is queued. The
      mutex and the workqueue handle are not modelled (each helper runs as
      one sequential step). */
  class PlatDummyDevice {
    var rdBuf: array<bv8>
    var wrBuf: array<bv8>
    var regs: array<bv32>
    var jsPollTime: nat
    var rdWorkQueued: bool
    var wrWorkQueued: bool

    ghost predicate Valid()
      reads this
    {
      rdBuf.Length == MEM_SIZE && wrBuf.Length == MEM_SIZE && regs.Length == REG_WORDS && rdBuf != wrBuf
    }

    /** The value the mapped regions currently hold. */
    ghost function State(): (s: DevState)
      reads this, rdBuf, wrBuf, regs
      requires Valid()
      ensures s.Valid()
    {
      DevState(rdBuf[..], wrBuf[..], regs[..])
    }

    /** The state after a successful probe: the regions are mapped, both
        work items are queued for immediate execution. */
    constructor (rd: array<bv8>, wr: array<bv8>, rg: array<bv32>, pollTime: nat)
      requires rd.Length == MEM_SIZE && wr.Length == MEM_SIZE && rg.Length == REG_WORDS && rd != wr
      ensures Valid()
      ensures rdBuf == rd && wrBuf == wr && regs == rg && jsPollTime == pollTime
      ensures rdWorkQueued && wrWorkQueued
    {
      rdBuf, wrBuf, regs := rd, wr, rg;
      jsPollTime := pollTime;
      rdWorkQueued, wrWorkQueued := true, true;
    }

    /** plat_dummy_reg_read32 */
    method RegRead32(offset: nat) returns (v: bv32)
      requires Valid() && IsRegOffset(offset)
      ensures v == State().regs[RegWordIndex(offset)]
    {
      v := regs[offset / 4];
    }

    /** plat_dummy_reg_write32 */
    method RegWrite32(offset: nat, val: bv32)
      requires Valid() && IsRegOffset(offset)
      modifies regs
      ensures State() == RegWrite(old(State()), offset, val)
    {
      regs[offset / 4] := val;
    }

    /** plat_dummy_read_byte: the inbound byte at `offset`; nothing changes. */
    method ReadByte(offset: nat) returns (data: bv8)
      requires Valid() && offset < MEM_SIZE
      ensures data == State().rdBuf[offset]
    {
      data := rdBuf[offset];
    }

    /** plat_dummy_write_byte */
    method WriteByte(offset: nat, data: bv8)
      requires Valid() && offset < MEM_SIZE
      modifies wrBuf
      ensures wrBuf[offset] == data
      ensures forall k :: 0 <= k < MEM_SIZE && k != offset ==> wrBuf[k] == old(wrBuf[k])
    {
      wrBuf[offset] := data;
    }

    /** plat_dummy_is_rd_buf_ready: `dataSize` is the caller's variable behind
        the out-pointer; it is overwritten with the RD size only when bit 0
        of the flags is set. */
    method IsRdBufReady(dataSize: bv32) returns (ready: bool, size: bv32)
      requires Valid()
      ensures ready <==> RdReady(State().Flags())
      ensures size == if ready then State().ReadSize() else dataSize
    {
      var status := RegRead32(PLAT_IO_FLAGS_REG);
      size := dataSize;
      ready := false;
      if status & PLAT_RD_DATA_READY != 0 {
        size := RegRead32(PLAT_RD_SIZE_REG);
        ready := true;
      }
    }

    /** plat_dummy_clear_rd_buf_ready */
    method ClearRdBufReady()
      requires Valid()
      modifies regs
      ensures State() == ClearRdBufReadyEffect(old(State()))
    {
      var status := RegRead32(PLAT_IO_FLAGS_REG);
      status := status & !PLAT_RD_DATA_READY;
      RegWrite32(PLAT_IO_FLAGS_REG, status);
    }

    /** plat_dummy_is_wr_buf_ready, testing bit 3 as the code does. */
    method IsWrBufReady() returns (ready: bool)
      requires Valid()
      ensures ready <==> WrReadyTest(State().Flags())
    {
      var status := RegRead32(PLAT_IO_FLAGS_REG);
      ready := status & PLAT_WR_SIZE_REG_WORD != 0;
    }

    /** plat_dummy_set_wr_buf_ready */
    method SetWrBufReady(dataSize: bv32)
      requires Valid()
      modifies regs
      ensures State() == SetWrBufReadyEffect(old(State()), dataSize)
    {
      RegWrite32(PLAT_WR_SIZE_REG, dataSize);
      var status := RegRead32(PLAT_IO_FLAGS_REG);
      status := status | PLAT_WR_DATA_READY;
      RegWrite32(PLAT_IO_FLAGS_REG, status);
    }
  }
}
