/** The two polling workers of the dummy platform driver and its resource
    table (assignment_07/non_dts/platform_test-base.c). Each worker body is
    one tick: a method on the device, specified by a function on `DevState`. */
module PlatformTestBase {
  import opened DummyDev
  import opened PlatformTestUtils

  /** Physical bases of the three resources. */
  const RD_BUF_BASE: nat := 0x9f20_0000
  const WR_BUF_BASE: nat := 0x9f20_1000
  const REG_BASE: nat := 0x9f20_2000

  /** The bytes of the C array dummy_usr_msg: the ASCII codes of the
      20 characters ">> Dummy message << " followed by the terminating NUL. */
  const DUMMY_USR_MSG: seq<bv8> :=
    [0x3E, 0x3E, 0x20, 0x44, 0x75, 0x6D, 0x6D, 0x79, 0x20, 0x6D,
     0x65, 0x73, 0x73, 0x61, 0x67, 0x65, 0x20, 0x3C, 0x3C, 0x20, 0x00]
  /** sizeof(dummy_usr_msg): the characters and the terminating NUL. */
  const SIZEOF_DUMMY_USR_MSG: nat := |DUMMY_USR_MSG|
  const SIZEOF_U32: nat := 4
  /** dummy_usr_msg_full: the message with its NUL, then four counter bytes. */
  const DUMMY_USR_MSG_FULL: nat := SIZEOF_DUMMY_USR_MSG + SIZEOF_U32
  /** The same size and MEM_SIZE as the u32 values the write tick computes with. */
  const DUMMY_USR_MSG_FULL_WORD: bv32 := 25
  const MEM_SIZE_WORD: bv32 := 4096

  function Min(a: int, b: int): int
  {
    if a <= b then a else b
  }

  /** The unsigned value of a 32-bit register word. */
  function U32(w: bv32): (n: nat)
    ensures n < 0x1_0000_0000
  {
    w as int
  }

  /** Byte `j` of the in-memory representation of a u32, `((u8 *) &v)[j]`,
      on a little-endian CPU: byte 0 holds the least significant 8 bits. */
  function MemByte(v: bv32, j: nat): (b: bv8)
    requires j < 4
    ensures j == 0 ==> b as bv32 == v & 0x0000_00FF
    ensures j == 1 ==> (b as bv32) << 8 == v & 0x0000_FF00
    ensures j == 2 ==> (b as bv32) << 16 == v & 0x00FF_0000
    ensures j == 3 ==> (b as bv32) << 24 == v & 0xFF00_0000
  {
    ((if j == 0 then v else if j == 1 then v >> 8 else if j == 2 then v >> 16 else v >> 24) & 0xFF) as bv8
  }

  /** The 32-bit value whose most significant byte comes first. */
  function BigEndianWord(b: seq<bv8>): bv32
    requires |b| == 4
  {
    (b[0] as bv32 << 24) | (b[1] as bv32 << 16) | (b[2] as bv32 << 8) | b[3] as bv32
  }

  /** The counter's memory bytes in the order the write tick stores them:
      3, 2, 1, 0. On a little-endian CPU that is the counter's bytes, most
      significant first. */
  function CounterBytes(v: bv32): (b: seq<bv8>)
    ensures |b| == SIZEOF_U32
    ensures (b[0] as bv32) << 24 == v & 0xFF00_0000
    ensures (b[1] as bv32) << 16 == v & 0x00FF_0000
    ensures (b[2] as bv32) << 8 == v & 0x0000_FF00
    ensures b[3] as bv32 == v & 0x0000_00FF
  {
    [MemByte(v, 3), MemByte(v, 2), MemByte(v, 1), MemByte(v, 0)]
  }

  /** The 25 bytes the write tick stores. */
  function Payload(msecs: bv32): (p: seq<bv8>)
    ensures |p| == DUMMY_USR_MSG_FULL
  {
    DUMMY_USR_MSG + CounterBytes(msecs)
  }

  /** Byte `k` of the payload is the message byte `k` below the counter and
      memory byte 24 - k of the counter from there on. */
  lemma PayloadAt(msecs: bv32, k: nat)
    requires k < DUMMY_USR_MSG_FULL
    ensures k < SIZEOF_DUMMY_USR_MSG ==> Payload(msecs)[k] == DUMMY_USR_MSG[k]
    ensures SIZEOF_DUMMY_USR_MSG <= k ==> Payload(msecs)[k] == MemByte(msecs, DUMMY_USR_MSG_FULL - 1 - k)
  {
  }

  /** The payload fits the outbound buffer, so the clamp of the write tick
      never shortens it. */
  lemma PayloadFits()
    ensures DUMMY_USR_MSG_FULL == 25 && DUMMY_USR_MSG_FULL <= MEM_SIZE
    ensures Min(DUMMY_USR_MSG_FULL, MEM_SIZE) == DUMMY_USR_MSG_FULL
  {
  }

  /** The payload begins with the message as a C string: its one NUL is
      the last of the first 21 bytes. */
  lemma PayloadText(msecs: bv32)
    ensures Payload(msecs)[..SIZEOF_DUMMY_USR_MSG] == DUMMY_USR_MSG
    ensures Payload(msecs)[SIZEOF_DUMMY_USR_MSG - 1] == 0
    ensures forall i :: 0 <= i < SIZEOF_DUMMY_USR_MSG - 1 ==> Payload(msecs)[i] != 0
  {
    assert Payload(msecs)[..SIZEOF_DUMMY_USR_MSG] == DUMMY_USR_MSG;
  }

  /** On a little-endian CPU the four trailing payload bytes are the counter,
      most significant byte first: reading them back that way gives the
      counter. */
  lemma PayloadCounterRoundTrip(msecs: bv32)
    ensures Payload(msecs)[SIZEOF_DUMMY_USR_MSG..] == CounterBytes(msecs)
    ensures BigEndianWord(Payload(msecs)[SIZEOF_DUMMY_USR_MSG..]) == msecs
  {
    assert Payload(msecs)[SIZEOF_DUMMY_USR_MSG..] == CounterBytes(msecs);
    CounterBytesRoundTrip(msecs);
  }

  /** Serialising a counter and reading it back most significant byte first
      gives the counter. */
  lemma CounterBytesRoundTrip(v: bv32)
    ensures BigEndianWord(CounterBytes(v)) == v
  {
  }

  /** Every four bytes are the serialisation of the word they spell most
      significant byte first. */
  lemma CounterBytesOnto(b: seq<bv8>)
    requires |b| == 4
    ensures CounterBytes(BigEndianWord(b)) == b
  {
    WordBytes(b[0], b[1], b[2], b[3]);
  }

  /** The word-level fact behind CounterBytesOnto: each byte placed into a
      word is found again at its place. */
  lemma WordBytes(b0: bv8, b1: bv8, b2: bv8, b3: bv8)
    ensures var w := (b0 as bv32 << 24) | (b1 as bv32 << 16) | (b2 as bv32 << 8) | b3 as bv32;
      MemByte(w, 3) == b0 && MemByte(w, 2) == b1 && MemByte(w, 1) == b2 && MemByte(w, 0) == b3
  {
  }

  /* ------------------------------------------------------------------ */
  /* Read tick (plat_dummy_rd_work)                                      */

  /** What one read tick does: the bytes it consumes, in the order it reads
      them, and the device afterwards. */
  datatype RdOutcome = RdOutcome(consumed: seq<bv8>, after: DevState)

  /** One tick of the inbound worker. With bit 0 set it consumes the first
      min(read_size, MEM_SIZE) inbound bytes and clears bit 0; with bit 0
      clear it does nothing. */
  function RdTick(s: DevState): (o: RdOutcome)
    requires s.Valid()
    ensures o.after.Valid() && o.after.rdBuf == s.rdBuf && o.after.wrBuf == s.wrBuf
    ensures o.after.ReadSize() == s.ReadSize() && o.after.WriteSize() == s.WriteSize()
    ensures RdReady(s.Flags()) ==>
      && |o.consumed| == Min(U32(s.ReadSize()), MEM_SIZE)
      && (forall i :: 0 <= i < |o.consumed| ==> o.consumed[i] == s.rdBuf[i])
      && o.after.Flags() == ClearRdReady(s.Flags()) && !RdReady(o.after.Flags())
    ensures !RdReady(s.Flags()) ==> o.consumed == [] && o.after == s
  {
    if RdReady(s.Flags()) then
      var size := Min(U32(s.ReadSize()), MEM_SIZE);
      RdOutcome(s.rdBuf[..size], ClearRdBufReadyEffect(s))
    else
      RdOutcome([], s)
  }

  /** A read tick never consumes more than the buffer holds, and when the
      published size exceeds it, it consumes exactly the whole buffer. */
  lemma RdTickClamps(s: DevState)
    requires s.Valid()
    ensures |RdTick(s).consumed| <= MEM_SIZE
    ensures RdReady(s.Flags()) && U32(s.ReadSize()) >= MEM_SIZE ==> RdTick(s).consumed == s.rdBuf
  {
  }

  /** After a tick that drained the buffer, the next tick finds bit 0 clear
      and consumes nothing; its device state is the same. */
  lemma RdTickThenIdle(s: DevState)
    requires s.Valid()
    ensures RdTick(RdTick(s).after) == RdOutcome([], RdTick(s).after)
  {
  }

  /** The protocol of the external writer: `n` bytes written, read_size set to
      `n`, bit 0 set. The next tick consumes exactly those `n` bytes and
      hands the buffer back. */
  lemma RdTickConsumesCommitted(s: DevState, n: nat, payload: seq<bv8>)
    requires s.Valid() && n <= MEM_SIZE && |payload| == n
    requires s.rdBuf[..n] == payload && U32(s.ReadSize()) == n && RdReady(s.Flags())
    ensures RdTick(s).consumed == payload
    ensures !RdReady(RdTick(s).after.Flags())
  {
    assert |RdTick(s).consumed| == n;
  }

  /** The loop of plat_dummy_rd_work: reads inbound bytes 0 .. size-1 in
      increasing order and changes nothing. */
  method DrainRdBuf(dev: PlatDummyDevice, size: nat) returns (bytes: seq<bv8>)
    requires dev.Valid() && size <= MEM_SIZE
    ensures bytes == dev.State().rdBuf[..size]
  {
    bytes := [];
    var i := 0;
    while i < size
      invariant 0 <= i <= size
      invariant bytes == dev.rdBuf[..i]
    {
      var data := dev.ReadByte(i);
      bytes := bytes + [data];
      i := i + 1;
    }
  }

  /** The ready branch of plat_dummy_rd_work: clamp the published size,
      read that many inbound bytes, clear bit 0. */
  method ConsumeRdBuf(dev: PlatDummyDevice, size: bv32) returns (consumed: seq<bv8>)
    requires dev.Valid() && RdReady(dev.State().Flags()) && size == dev.State().ReadSize()
    modifies dev.regs
    ensures dev.Valid()
    ensures RdTick(old(dev.State())) == RdOutcome(consumed, dev.State())
  {
    var n := U32(size);
    if n > MEM_SIZE {
      n := MEM_SIZE;
    }
    consumed := DrainRdBuf(dev, n);
    dev.ClearRdBufReady();
  }

  /** plat_dummy_rd_work: one tick of the inbound worker, then re-queueing. */
  method RdWork(dev: PlatDummyDevice) returns (consumed: seq<bv8>)
    requires dev.Valid()
    modifies dev.regs, dev`rdWorkQueued
    ensures dev.Valid()
    ensures RdTick(old(dev.State())) == RdOutcome(consumed, dev.State())
    ensures dev.rdWorkQueued
  {
    // The caller's `size` is uninitialised in the driver; it is only read when ready.
    var ready, size := dev.IsRdBufReady(0);
    consumed := [];
    if ready {
      consumed := ConsumeRdBuf(dev, size);
    }
    dev.rdWorkQueued := true;
  }

  /* ------------------------------------------------------------------ */
  /* Write tick (plat_dummy_wr_work)                                     */

  /** One tick of the outbound worker, `msecs` being the millisecond counter
      it samples. When the WR-ready test (bit 3, as written) is false, the
      payload goes into wr_buf[0..25), write_size becomes 24 and bit 1 is
      set; otherwise nothing changes. */
  function WrTick(s: DevState, msecs: bv32): (t: DevState)
    requires s.Valid()
    ensures t.Valid() && t.rdBuf == s.rdBuf && t.ReadSize() == s.ReadSize()
    ensures WrReadyTest(s.Flags()) ==> t == s
    ensures !WrReadyTest(s.Flags()) ==>
      && t.wrBuf[..DUMMY_USR_MSG_FULL] == Payload(msecs)
      && t.wrBuf[DUMMY_USR_MSG_FULL..] == s.wrBuf[DUMMY_USR_MSG_FULL..]
      && U32(t.WriteSize()) == DUMMY_USR_MSG_FULL - 1
      && t.Flags() == SetWrReady(s.Flags()) && WrReady(t.Flags())
      && (forall w :: RegWordIndex(PLAT_WR_SIZE_REG) < w < REG_WORDS ==> t.regs[w] == s.regs[w])
  {
    if WrReadyTest(s.Flags()) then s
    else
      var filled := s.(wrBuf := Payload(msecs) + s.wrBuf[DUMMY_USR_MSG_FULL..]);
      SetWrBufReadyEffect(filled, DUMMY_USR_MSG_FULL_WORD - 1)
  }

  /** When the WR-ready test is false, the write tick is the payload store
      followed by plat_dummy_set_wr_buf_ready(24). */
  lemma WrTickWrites(s: DevState, msecs: bv32)
    requires s.Valid() && !WrReadyTest(s.Flags())
    ensures WrTick(s, msecs) == SetWrBufReadyEffect(s.(wrBuf := Payload(msecs) + s.wrBuf[DUMMY_USR_MSG_FULL..]), DUMMY_USR_MSG_FULL_WORD - 1)
  {
  }

  /** The published write size is one short of the bytes written: a reader
      honouring write_size never sees the last payload byte, which is the
      least significant byte of the counter. */
  lemma WrTickPublishesOneShort(s: DevState, msecs: bv32)
    requires s.Valid() && !WrReadyTest(s.Flags())
    ensures U32(WrTick(s, msecs).WriteSize()) + 1 == |Payload(msecs)|
    ensures WrTick(s, msecs).wrBuf[WrTick(s, msecs).WriteSize()] == (msecs & 0xFF) as bv8
  {
    var t := WrTick(s, msecs);
    assert t.wrBuf[24] == t.wrBuf[..DUMMY_USR_MSG_FULL][24] == Payload(msecs)[24];
  }

  /** Because the WR-ready test looks at bit 3, publishing does not stop the
      next tick: a second tick overwrites the payload that the first one
      published, although bit 1 is still set. */
  lemma WrTickRepeats(s: DevState, m1: bv32, m2: bv32)
    requires s.Valid() && !WrReadyTest(s.Flags())
    ensures WrReady(WrTick(s, m1).Flags())
    ensures WrTick(WrTick(s, m1), m2).wrBuf[..DUMMY_USR_MSG_FULL] == Payload(m2)
  {
    SetWrReadyKeepsWrTest(s.Flags());
  }

  /** The write tick as the register layout documents it: the gate is the
      WR-ready bit 1, and the size published is the number of bytes
      stored. */
  function WrTickIntended(s: DevState, msecs: bv32): (t: DevState)
    requires s.Valid()
    ensures t.Valid() && t.rdBuf == s.rdBuf && t.ReadSize() == s.ReadSize()
    ensures WrReady(s.Flags()) ==> t == s
    ensures !WrReady(s.Flags()) ==>
      && t.wrBuf[..DUMMY_USR_MSG_FULL] == Payload(msecs)
      && t.wrBuf[DUMMY_USR_MSG_FULL..] == s.wrBuf[DUMMY_USR_MSG_FULL..]
      && t.Flags() == SetWrReady(s.Flags()) && WrReady(t.Flags())
  {
    if WrReady(s.Flags()) then s
    else
      var filled := s.(wrBuf := Payload(msecs) + s.wrBuf[DUMMY_USR_MSG_FULL..]);
      SetWrBufReadyEffect(filled, DUMMY_USR_MSG_FULL_WORD)
  }

  /** With the intended gate, a published payload is never overwritten:
      while bit 1 stays set, any later tick leaves the device as it is. */
  lemma WrTickIntendedKeepsPublished(s: DevState, m1: bv32, m2: bv32)
    requires s.Valid()
    ensures WrReady(WrTickIntended(s, m1).Flags())
    ensures WrTickIntended(WrTickIntended(s, m1), m2) == WrTickIntended(s, m1)
    ensures WrTickIntended(WrTickIntended(s, m1), m2).wrBuf == WrTickIntended(s, m1).wrBuf
  {
  }

  /** With the intended size, the published write size is the payload
      length, so a reader honouring it receives the whole payload,
      counter included. */
  lemma WrTickIntendedPublishesAll(s: DevState, msecs: bv32)
    requires s.Valid() && !WrReady(s.Flags())
    ensures U32(WrTickIntended(s, msecs).WriteSize()) == |Payload(msecs)|
    ensures WrTickIntended(s, msecs).wrBuf[..U32(WrTickIntended(s, msecs).WriteSize())] == Payload(msecs)
  {
    assert U32(DUMMY_USR_MSG_FULL_WORD) == DUMMY_USR_MSG_FULL;
  }

  /** plat_dummy_wr_work: one tick of the outbound worker, then re-queueing.
      `msecs` is the value of jiffies_to_msecs(jiffies) when it is sampled. */
  method WrWork(dev: PlatDummyDevice, msecs: bv32)
    requires dev.Valid()
    modifies dev.wrBuf, dev.regs, dev`wrWorkQueued
    ensures dev.Valid()
    ensures dev.State() == WrTick(old(dev.State()), msecs)
    ensures dev.wrWorkQueued
  {
    var ready := dev.IsWrBufReady();
    ghost var s0 := dev.State();
    if !ready {
      var size := FillWrBuf(dev, msecs);
      assert dev.State() == s0.(wrBuf := Payload(msecs) + s0.wrBuf[DUMMY_USR_MSG_FULL..]);
      dev.SetWrBufReady(size - 1);
      WrTickWrites(s0, msecs);
    }
    dev.wrWorkQueued := true;
  }

  /** The two loops of plat_dummy_wr_work: the size is clamped to MEM_SIZE
      (it is 25, so nothing is cut), the message with its NUL is stored,
      then the counter's memory bytes 3, 2, 1, 0; the returned size is the
      u32 the driver goes on with. */
  method FillWrBuf(dev: PlatDummyDevice, msecs: bv32) returns (sizeWord: bv32)
    requires dev.Valid()
    modifies dev.wrBuf
    ensures sizeWord == DUMMY_USR_MSG_FULL_WORD
    ensures dev.wrBuf[..] == Payload(msecs) + old(dev.wrBuf[..])[DUMMY_USR_MSG_FULL..]
  {
    ghost var w0 := dev.wrBuf[..];
    sizeWord := DUMMY_USR_MSG_FULL_WORD;
    if sizeWord > MEM_SIZE_WORD {
      sizeWord := MEM_SIZE_WORD;
    }
    var size := U32(sizeWord);
    var i := 0;
    while i < size - SIZEOF_U32
      invariant 0 <= i <= size - SIZEOF_U32
      invariant forall k :: 0 <= k < i ==> dev.wrBuf[k] == DUMMY_USR_MSG[k]
      invariant forall k :: i <= k < MEM_SIZE ==> dev.wrBuf[k] == w0[k]
    {
      dev.WriteByte(i, DUMMY_USR_MSG[i]);
      i := i + 1;
    }
    var currJiffies := msecs;
    var j: int := SIZEOF_U32 - 1;
    while i < size
      invariant size - SIZEOF_U32 <= i <= size
      invariant j == size - 1 - i
      invariant forall k :: 0 <= k < size - SIZEOF_U32 ==> dev.wrBuf[k] == DUMMY_USR_MSG[k]
      invariant forall k :: size - SIZEOF_U32 <= k < i ==> dev.wrBuf[k] == MemByte(msecs, size - 1 - k)
      invariant forall k :: i <= k < MEM_SIZE ==> dev.wrBuf[k] == w0[k]
    {
      dev.WriteByte(i, MemByte(currJiffies, j));
      j := j - 1;
      i := i + 1;
    }
    forall k | 0 <= k < size {
      PayloadAt(msecs, k);
    }
    assert dev.wrBuf[..] == Payload(msecs) + w0[size..];
  }

  /* ------------------------------------------------------------------ */
  /* Resource table (plat_dummy_device_add)                              */

  /** A memory resource: the inclusive range [start, end]. */
  datatype Resource = Resource(name: string, start: nat, end: int)

  /** The resource of `size` bytes at `base`: end = base + size - 1. */
  function MemResource(name: string, base: nat, size: nat): (r: Resource)
    requires size > 0
    ensures r.start == base && r.end - r.start + 1 == size
  {
    Resource(name, base, base + size - 1)
  }

  /** The table registered with the synthetic device: RD buffer, WR buffer,
      registers. */
  function DeviceResources(): (res: seq<Resource>)
    ensures |res| == 3
  {
    [ MemResource("dummy_rd_buf", RD_BUF_BASE, MEM_SIZE),
      MemResource("dummy_wr_buf", WR_BUF_BASE, MEM_SIZE),
      MemResource("dummy_regs", REG_BASE, REG_SIZE) ]
  }

  predicate Disjoint(a: Resource, b: Resource)
  {
    a.end < b.start || b.end < a.start
  }

  /** The three ranges are pairwise disjoint, each ends just before the next
      base, and each is as long as its region. */
  lemma DeviceResourcesLayout()
    ensures forall i, j :: 0 <= i < j < 3 ==> Disjoint(DeviceResources()[i], DeviceResources()[j])
    ensures DeviceResources()[0].end + 1 == DeviceResources()[1].start
    ensures DeviceResources()[1].end + 1 == DeviceResources()[2].start
    ensures DeviceResources()[0].start == RD_BUF_BASE && DeviceResources()[0].end - DeviceResources()[0].start + 1 == MEM_SIZE
    ensures DeviceResources()[1].start == WR_BUF_BASE && DeviceResources()[1].end - DeviceResources()[1].start + 1 == MEM_SIZE
    ensures DeviceResources()[2].start == REG_BASE && DeviceResources()[2].end - DeviceResources()[2].start + 1 == REG_SIZE
  {
  }
}
