# Dummy platform device and LED blink timer, in Dafny

This project models two pieces of a set of Linux kernel-module exercises.

**The dummy platform device** (`assignment_07/non_dts`). The device has three
memory-mapped regions:

- an inbound (RD) buffer of 4096 bytes;
- an outbound (WR) buffer of 4096 bytes;
- a block of 32-bit registers: flags at offset 0, read size at offset 4, write size at offset 8.

Two polling workers run against these regions:

- The read worker checks bit 0 of the flags. When it is set, it consumes `min(read_size, 4096)` inbound bytes and clears bit 0.
- The write worker checks its ready test. When the test is false, it stores a 25-byte payload: the NUL-terminated message `">> Dummy message << "`, then the four bytes of a millisecond counter, highest address first. It then publishes a write size and sets bit 1.

The model is organised as follows:

- The device structure is the class `PlatformTestUtils.PlatDummyDevice`. Its fields are the three regions, as arrays, plus the polling period and whether each work item is queued.
- Its helpers are methods on that class. Each is specified against a function on the value `PlatformTestUtils.DevState`.
- Each worker is one tick: a method in `PlatformTestBase`, proved equal to the specification functions `RdTick` and `WrTick`.
- The resource table of the device is modelled as ranges.

**The LED blink module** (`assignment_03/ledmod.c`). A kernel timer flips the
on-board USR3 LED through the GPIO1 set and clear words. It counts off-to-on
flips, re-arms itself until ten blinks are done, and then deletes itself.

- The module globals are the class `LedMod.LedModule`, with the GPIO window as an array of words.
- One handler call is `LedMod.TimerStep` on the value `LedState`.
- Lemmas prove the count bound, the 19-tick schedule from load and termination from any state: the timer is deleted after a number of ticks fixed by the count and the LED flag.

Two places in the driver code are modelled as written, and both differ from
the driver's documented protocol:

- `plat_dummy_is_wr_buf_ready` masks the flags with the write-size register offset (8). It therefore tests bit 3, not the WR-ready bit 1.
- The write worker publishes `size - 1` = 24 as the write size after storing 25 bytes.

The lemmas `WrReadyTestMissesWrReadyBit`, `WrTickRepeats` and
`WrTickPublishesOneShort` state the consequences: the test ignores bit 1, a
published payload is overwritten on the next tick, and a reader that honours
the write size misses the last counter byte. `WrTickIntended` is the write
tick with both places corrected; "## Findings" pairs each as-written member
with the corrected one.

## Model

| member | source | states |
|---|---|---|
| DummyDev.RegWordIndex | assignment_07/non_dts/dummy_dev.h:17-19 | an in-block register offset names the word w < 16 with 4·w = offset |
| DummyDev.RegisterOffsetsLayout | assignment_07/non_dts/dummy_dev.h:13-19 | flags, RD size and WR size offsets are word-aligned, inside the 64-byte block, and name three different words |
| DummyDev.ReadyMasksLayout | assignment_07/non_dts/dummy_dev.h:21-32 | RD-ready is exactly bit 0, WR-ready exactly bit 1, and they share no bit |
| DummyDev.WrSizeOffsetAsMask | assignment_07/non_dts/platform_test-utils.c:62 | the write-size offset used as a mask is the single bit 3, disjoint from both ready bits |
| PlatformTestUtils.ClearRdReady | assignment_07/non_dts/platform_test-utils.c:48-50 | afterwards bit 0 is clear and every other bit of the flags is unchanged |
| PlatformTestUtils.SetWrReady | assignment_07/non_dts/platform_test-utils.c:77-79 | afterwards bit 1 is set and every other bit of the flags is unchanged |
| PlatformTestUtils.RdReady | assignment_07/non_dts/platform_test-utils.c:35 | the RD-ready test holds exactly when bit 0 of the flags is 1 |
| PlatformTestUtils.WrReady | assignment_07/non_dts/dummy_dev.h:28-32 | the documented WR-ready condition holds exactly when bit 1 of the flags is 1 |
| PlatformTestUtils.WrReadyTest | assignment_07/non_dts/platform_test-utils.c:62 | the WR-ready test as written holds exactly when bit 3 of the flags is 1 |
| PlatformTestUtils.RegWrite | assignment_07/non_dts/platform_test-utils.c:9-13 | a 32-bit store replaces exactly the addressed register word; buffers and other words are unchanged |
| PlatformTestUtils.ClearRdBufReadyEffect | assignment_07/non_dts/platform_test-utils.c:43-52 | the flags become ClearRdReady of the old flags (bit 0 clear); sizes, other words and both buffers unchanged |
| PlatformTestUtils.SetWrBufReadyEffect | assignment_07/non_dts/platform_test-utils.c:68-81 | the write size becomes n and bit 1 is set, other flag bits kept; read size, other words and buffers unchanged |
| PlatformTestUtils.ClearRdBufReadyIdempotent | assignment_07/non_dts/platform_test-utils.c:43-52 | clearing twice equals clearing once, and afterwards the RD-ready test is false |
| PlatformTestUtils.SetWrBufReadyIdempotent | assignment_07/non_dts/platform_test-utils.c:68-81 | publishing the same size twice equals publishing it once |
| PlatformTestUtils.SetWrBufReadyKeepsWrTest | assignment_07/non_dts/platform_test-utils.c:54-81 | publishing never changes the answer of the WR-ready test as written |
| PlatformTestUtils.SetWrReadyKeepsWrTest | assignment_07/non_dts/platform_test-utils.c:54-81 | setting bit 1 leaves bit 3, the bit the WR-ready test reads, as it was |
| PlatformTestUtils.WrReadyTestMissesWrReadyBit | assignment_07/non_dts/platform_test-utils.c:54-66 | with only bit 1 set the test says not ready; with only bit 3 set it says ready |
| PlatformTestUtils.PlatDummyDevice.constructor | assignment_07/non_dts/platform_test-base.c:193-200 | after a successful probe the three regions are mapped and both work items are queued |
| PlatformTestUtils.PlatDummyDevice.RegRead32 | assignment_07/non_dts/platform_test-utils.c:4-7 | returns the register word at the offset; nothing changes |
| PlatformTestUtils.PlatDummyDevice.RegWrite32 | assignment_07/non_dts/platform_test-utils.c:9-13 | the device state becomes RegWrite of the old state |
| PlatformTestUtils.PlatDummyDevice.ReadByte | assignment_07/non_dts/platform_test-utils.c:17-20 | returns inbound byte `offset`; nothing changes |
| PlatformTestUtils.PlatDummyDevice.WriteByte | assignment_07/non_dts/platform_test-utils.c:22-25 | outbound byte `offset` becomes `data`; every other outbound byte unchanged |
| PlatformTestUtils.PlatDummyDevice.IsRdBufReady | assignment_07/non_dts/platform_test-utils.c:27-41 | answers true exactly when bit 0 is set, and only then replaces the caller's size with the read-size register |
| PlatformTestUtils.PlatDummyDevice.ClearRdBufReady | assignment_07/non_dts/platform_test-utils.c:43-52 | the device state becomes ClearRdBufReadyEffect of the old state |
| PlatformTestUtils.PlatDummyDevice.IsWrBufReady | assignment_07/non_dts/platform_test-utils.c:54-66 | answers true exactly when the flags AND the write-size offset (bit 3) is non-zero |
| PlatformTestUtils.PlatDummyDevice.SetWrBufReady | assignment_07/non_dts/platform_test-utils.c:68-81 | the device state becomes SetWrBufReadyEffect of the old state |
| PlatformTestBase.Payload | assignment_07/non_dts/platform_test-base.c:37-39 | the stored payload is dummy_usr_msg_full = 25 bytes long |
| PlatformTestBase.PayloadAt | assignment_07/non_dts/platform_test-base.c:99-110 | payload byte k is message byte k for k < 21 and counter memory byte 24 − k after that |
| PlatformTestBase.PayloadFits | assignment_07/non_dts/platform_test-base.c:94-96 | 25 ≤ MEM_SIZE, so the clamp never shortens the payload |
| PlatformTestBase.PayloadText | assignment_07/non_dts/platform_test-base.c:37 | the payload starts with the message bytes, whose only NUL is byte 20 |
| PlatformTestBase.PayloadCounterRoundTrip | assignment_07/non_dts/platform_test-base.c:106-110 | on a little-endian CPU the last four payload bytes, read most significant first, give back the counter |
| PlatformTestBase.MemByte | assignment_07/non_dts/platform_test-base.c:108 | memory byte j of the counter on a little-endian CPU holds its bits 8·j … 8·j+7 |
| PlatformTestBase.CounterBytes | assignment_07/non_dts/platform_test-base.c:104-110 | the four counter bytes, in the store order j = 3, 2, 1, 0, are the counter's bytes most significant first |
| PlatformTestBase.CounterBytesRoundTrip | assignment_07/non_dts/platform_test-base.c:106-110 | serialising any u32 in memory order 3, 2, 1, 0 and reading it big-endian is the identity |
| PlatformTestBase.CounterBytesOnto | assignment_07/non_dts/platform_test-base.c:106-110 | every 4-byte sequence is the serialisation of the word it spells, so the serialisation is a bijection |
| PlatformTestBase.RdTick | assignment_07/non_dts/platform_test-base.c:51-72 | if bit 0 is set, consumes exactly the first min(read_size, 4096) inbound bytes in order and clears bit 0; otherwise consumes nothing and changes nothing; buffers and sizes always unchanged |
| PlatformTestBase.RdTickClamps | assignment_07/non_dts/platform_test-base.c:55-62 | a tick never consumes more than 4096 bytes, and consumes the whole buffer when read_size ≥ 4096 |
| PlatformTestBase.RdTickThenIdle | assignment_07/non_dts/platform_test-base.c:51-72 | the tick after a tick finds bit 0 clear, consumes nothing and changes nothing |
| PlatformTestBase.RdTickConsumesCommitted | assignment_07/non_dts/platform_test-base.c:51-72 | when the writer stores n bytes, sets read_size to n and sets bit 0, the next tick consumes exactly those n bytes and clears bit 0 |
| PlatformTestBase.DrainRdBuf | assignment_07/non_dts/platform_test-base.c:58-62 | the read loop yields inbound bytes 0 … size−1 in order |
| PlatformTestBase.ConsumeRdBuf | assignment_07/non_dts/platform_test-base.c:51-72 | the ready branch of the read worker: its result and new state are RdTick of the old state |
| PlatformTestBase.RdWork | assignment_07/non_dts/platform_test-base.c:41-76 | the consumed bytes and new device state are RdTick of the old state, and the work is queued again |
| PlatformTestBase.WrTick | assignment_07/non_dts/platform_test-base.c:90-121 | if the WR-ready test is true, nothing changes; otherwise wr_buf[0..25) holds the payload, the rest of wr_buf is kept, write_size is 24, bit 1 is set with other flag bits kept, and the inbound side is unchanged |
| PlatformTestBase.WrTickPublishesOneShort | assignment_07/non_dts/platform_test-base.c:120 | the published write size is one less than the payload length, and the byte it excludes is the counter's low byte |
| PlatformTestBase.WrTickRepeats | assignment_07/non_dts/platform_test-base.c:90 | after a tick bit 1 is set, yet the next tick still overwrites the payload with a new counter |
| PlatformTestBase.WrTickIntended | assignment_07/non_dts/platform_test-base.c:90-121 | the write tick with the documented gate (bit 1) and size (25): with bit 1 set nothing changes; otherwise the payload is stored, the rest of wr_buf is kept and bit 1 is set |
| PlatformTestBase.WrTickIntendedKeepsPublished | assignment_07/non_dts/platform_test-base.c:90 | with the documented gate, a tick after a publishing tick changes nothing, so the published payload is never overwritten |
| PlatformTestBase.WrTickIntendedPublishesAll | assignment_07/non_dts/platform_test-base.c:120 | with the documented size, the published write size equals the payload length and covers the whole payload |
| PlatformTestBase.FillWrBuf | assignment_07/non_dts/platform_test-base.c:94-110 | the two store loops leave the payload in wr_buf[0..25), keep the rest, and return the u32 size 25 |
| PlatformTestBase.WrWork | assignment_07/non_dts/platform_test-base.c:78-125 | the new device state is WrTick of the old state at the sampled counter, and the work is queued again |
| PlatformTestBase.MemResource | assignment_07/non_dts/platform_test-base.c:233-250 | a resource of `size` bytes at `base` spans [base, base + size − 1] |
| PlatformTestBase.DeviceResources | assignment_07/non_dts/platform_test-base.c:233-250 | the device declares exactly three memory resources |
| PlatformTestBase.DeviceResourcesLayout | assignment_07/non_dts/platform_test-base.c:233-250 | the RD buffer, WR buffer and register ranges start at their bases and are MEM_SIZE, MEM_SIZE and REG_SIZE bytes long; they are pairwise disjoint and contiguous |
| LedMod.BytePtr | assignment_03/ledmod.c:14 | the word index w of byte offset x satisfies 4·w ≤ x < 4·w + 4 |
| LedMod.GpioWordIndices | assignment_03/ledmod.c:14-22 | OE, DATA_OUT_CLR and DATA_OUT_SET are words 77, 100 and 101, each exactly offset/4, distinct and inside the 1024-word window |
| LedMod.OeUpdate | assignment_03/ledmod.c:101 | the output-enable update leaves the register value unchanged, because GPIO_OE_OUT is 0 |
| LedMod.OrWord | assignment_03/ledmod.c:50 | ORing a mask into one word changes only that word |
| LedMod.TimerStep | assignment_03/ledmod.c:60-86 | below 10 the LED flips and the timer is re-armed; the count rises by one exactly on an off-to-on flip; at 10 nothing flips and the timer is deleted |
| LedMod.TimerStepKeepsInv | assignment_03/ledmod.c:60-86 | the handler keeps the invariant: count ≤ 10, a lit LED has been counted, an unlit LED implies count < 10, a deleted timer implies count = 10 |
| LedMod.RunKeepsInv | assignment_03/ledmod.c:32 | after any number of ticks from an invariant state the count is at most MAX_LED_BLINK_TIMES |
| LedMod.BlinkSchedule | assignment_03/ledmod.c:42-43 | from load (count 0, LED off), after k ≤ 19 ticks the count is (k+1)/2, the LED is on after an odd number of ticks, and each tick re-armed |
| LedMod.BlinkCompletes | assignment_03/ledmod.c:64-85 | tick 19 makes the tenth blink and re-arms; tick 20 deletes the timer with the LED left on |
| LedMod.CompleteIsFinal | assignment_03/ledmod.c:81-85 | once the count is 10, any number of further ticks changes nothing but disarming |
| LedMod.Disarms | assignment_03/ledmod.c:60-86 | from any state, every tick before the TicksToDisarm-th re-arms, and that tick disarms with the count at 10 (or at its old value if that was already above 10) |
| LedMod.LedModule.constructor | assignment_03/ledmod.c:42-43 | the globals start with count 0, LED off, no window and no timer |
| LedMod.LedModule.SwitchLedOn | assignment_03/ledmod.c:48-52 | ORs the pin-24 mask into word 101 (DATA_OUT_SET), leaves the other words unchanged, and marks the LED on |
| LedMod.LedModule.SwitchLedOff | assignment_03/ledmod.c:54-58 | ORs the pin-24 mask into word 100 (DATA_OUT_CLR), leaves the other words unchanged, and marks the LED off |
| LedMod.LedModule.TimerHandler | assignment_03/ledmod.c:60-86 | the globals follow TimerStep; the mask goes into the clear word when the LED was on, into the set word when it was off, and nowhere at the maximum |
| LedMod.LedModule.Init | assignment_03/ledmod.c:90-108 | a null mapping fails with −EIO; otherwise the window is kept unchanged, the count and LED are untouched, and the timer is armed |
| LedMod.LedModule.Exit | assignment_03/ledmod.c:110-124 | the clear word receives the mask, the LED is off, the timer is deleted and the window is unmapped |

## Findings

| source | as written | input that shows it | evidently intended | confidence | as-written member | corrected member |
|---|---|---|---|---|---|---|
| assignment_07/non_dts/platform_test-utils.c:62 | the WR-ready test masks the flags with PLAT_WR_SIZE_REG (8), so it reads bit 3 | flags = 2: the payload has been published (bit 1 set), yet the test answers not ready and the next tick overwrites the payload | test PLAT_WR_DATA_READY (bit 1), as assignment_07/non_dts/dummy_dev.h:28-32 and assignment_07/non_dts/platform_test-base.c:25 document | high; not executed | PlatformTestUtils.WrReadyTestMissesWrReadyBit, PlatformTestBase.WrTickRepeats | PlatformTestBase.WrTickIntended, PlatformTestBase.WrTickIntendedKeepsPublished |
| assignment_07/non_dts/platform_test-base.c:120 | publishes `size - 1` = 24 as the write size after storing 25 bytes | any tick with the test false: write_size is 24, so a reader taking write_size bytes never sees byte 24, the counter's low byte | publish `size` = 25 | medium; not executed | PlatformTestBase.WrTickPublishesOneShort | PlatformTestBase.WrTickIntended, PlatformTestBase.WrTickIntendedPublishesAll |

The driver methods (`IsWrBufReady`, `WrWork`) keep the code as written;
`WrTickIntended` is the corrected write tick, and the two properties the
register layout promises are proved of it.

## Left out

- Concurrency and memory ordering are not modelled: the status mutex, `wmb`/`rmb`, and the scheduling of the workqueue and the timer. Each helper and each worker tick is one sequential step. Queueing is recorded only as a flag, and timer arming only as `armed`.
- Device and driver registration is not modelled: probe's error paths, remove, `plat_dummy_device_add`'s allocation, and driver register/unregister. Only the success path of probe (the class constructor) and the resource ranges are modelled.
- Logging (`pr_info`, `printk`) is left out. The read tick returns the bytes it reads instead of printing them.
- The clock (`jiffies_to_msecs(jiffies)`) is a parameter of `WrWork`. The polling period `msecs_to_jiffies(500)` is a parameter of the device constructor. The LED timer's one-second interval is not modelled.
- `PlatformTestBase.MemByte` assumes a little-endian CPU for `((u8 *) &curr_jiffies)[j]`. A big-endian CPU would store the counter in the other order.
- The message is modelled as its 21 bytes (ASCII codes and the NUL), not as a string.
- The resource flags (`IORESOURCE_MEM`) are left out. `ioremap`/`iounmap` become an array that is given or dropped.
- `PlatformTestUtils.PlatDummyDevice.IsRdBufReady`: the driver's `size` is uninitialised before the call. The model passes 0, which is never observed because the size is only used when the buffer is ready.
- `LedMod.LedModule.Exit` requires a mapped window, because `led_mod_exit` switches the LED off through it before checking it for NULL.
- The GPIO set/clear hardware semantics are not modelled. Each word is plain memory that receives an OR, so the model does not say what the LED pin physically shows.
