/** Constants and register layout of the dummy platform device
    (assignment_07/non_dts/dummy_dev.h). The `plat_dummy_device` structure
    declared there becomes the class `PlatformTestUtils.PlatDummyDevice`. */
module DummyDev {

  /** Capacity in bytes of each channel buffer (inbound RD, outbound WR). */
  const MEM_SIZE: nat := 4096
  /** Size in bytes of the mapped register block. */
  const REG_SIZE: nat := 4 * 4 * 4
  const DEVICE_POLLING_TIME_MS: nat := 500

  /** Byte offsets of the three 32-bit registers inside the block. */
  const PLAT_IO_FLAGS_REG: nat := 0
  const PLAT_RD_SIZE_REG: nat := 4
  const PLAT_WR_SIZE_REG: nat := 8
  /** The write-size offset as the 32-bit value C gives it when it is used as a mask. */
  const PLAT_WR_SIZE_REG_WORD: bv32 := 8

  /** Ready masks of the flags register: bit 0 = RD buffer ready, bit 1 = WR buffer ready. */
  const PLAT_RD_DATA_READY: bv32 := 1
  const PLAT_WR_DATA_READY: bv32 := 2

  const MAX_DUMMY_PLAT_THREADS: nat := 2

  /** Number of 32-bit words the register block holds. */
  const REG_WORDS: nat := REG_SIZE / 4

  /** An offset that names one 32-bit word lying wholly inside the register block. */
  predicate IsRegOffset(offset: nat)
  {
    offset % 4 == 0 && offset + 4 <= REG_SIZE
  }

  /** The word of the register block that a 32-bit access at `offset` touches. */
  function RegWordIndex(offset: nat): (w: nat)
    requires IsRegOffset(offset)
    ensures w < REG_WORDS
    ensures 4 * w == offset
  {
    offset / 4
  }

  /** `m` is the mask of the single bit `b`. */
  predicate IsBitMask(m: bv32, b: nat)
    requires b < 32
  {
    m == 1 << b
  }

  /** The layout drawn in the header: "r" is bit 0, "w" is bit 1, and the two
      ready masks share no bit. */
  lemma ReadyMasksLayout()
    ensures IsBitMask(PLAT_RD_DATA_READY, 0) && IsBitMask(PLAT_WR_DATA_READY, 1)
    ensures PLAT_RD_DATA_READY & PLAT_WR_DATA_READY == 0
  {
  }

  /** The three register offsets are distinct word offsets inside the block. */
  lemma RegisterOffsetsLayout()
    ensures IsRegOffset(PLAT_IO_FLAGS_REG) && IsRegOffset(PLAT_RD_SIZE_REG) && IsRegOffset(PLAT_WR_SIZE_REG)
    ensures RegWordIndex(PLAT_IO_FLAGS_REG) != RegWordIndex(PLAT_RD_SIZE_REG)
    ensures RegWordIndex(PLAT_RD_SIZE_REG) != RegWordIndex(PLAT_WR_SIZE_REG)
    ensures RegWordIndex(PLAT_IO_FLAGS_REG) != RegWordIndex(PLAT_WR_SIZE_REG)
  {
  }

  /** Read as a mask, the write-size offset 8 is the single bit 3, which
      neither ready mask touches. */
  lemma WrSizeOffsetAsMask()
    ensures PLAT_WR_SIZE_REG_WORD as int == PLAT_WR_SIZE_REG
    ensures IsBitMask(PLAT_WR_SIZE_REG_WORD, 3)
    ensures PLAT_WR_SIZE_REG_WORD & (PLAT_RD_DATA_READY | PLAT_WR_DATA_READY) == 0
  {
  }
}
