# maXTouch touch-screen driver core, modelled in Dafny

This project models the core of the crostouchscreen2 Windows driver for Atmel
maXTouch touch controllers. It covers two drivers.

- `atmel.cpp` is the current driver:
  - the boot sequence (`BOOTTOUCHSCREEN`) reads the chip's information block and
    object table. Its scan loop hands each object a report-id range and caches
    addresses, ranges, the message size and the touch count in the device
    context. It then drains stale messages, reads the screen geometry of the
    T9 or T100 touch object and resets the chip. A second call takes the resume
    branch instead;
  - the message decoder (`AtmelProcessMessage`) writes T9 and T100 touch
    messages into four 20-entry slot arrays (Flags, XValue, YValue, AREA);
  - the report builder walks the slots and reports up to ten active ones,
    clearing a released slot once it has been reported;
  - the message pump reads messages in batches. It has a two-try drain, a
    count-prefixed T44 path and an adaptive `last_message_count` hint;
  - the interrupt, timer and power-up (`OnD0Entry`) entry points drive the
    pieces above.
- `atmel.c` is the older single-message driver. Each interrupt decodes one T9
  message into the same slot arrays and renders a report in its own style:
  it sets an in-range bit and gives no bits to a release. Its timer re-renders
  and its power-up clears the slot flags.

Form of the model.

- The device context of each driver is a class:
  - `Driver.Device` for `atmel.cpp`;
  - `LegacyDriver.LegacyDevice` for `atmel.c`.
- The slot arrays are a class over four arrays, `SlotArrays.SlotTable`.
- The routines that change state are methods. Each is proved against a
  specification function on values:
  - `Processing.Step`, `Processing.Fold` and `Reports.Render` for message
    processing and reports;
  - `PumpPlan.DeviceReadPlan`, `PumpPlan.UntilInvalidPlan` and
    `PumpPlan.T44Consumed` for the pump's counting;
  - `Scan.ScanTable` and `BootPlan.ReadGeometry` for the boot sequence.
- Lemmas state what those functions mean.
- The chip is `Bus.Chip`, which has four parts:
  - a register memory for configuration reads;
  - a queue of pending messages. A read of `count` messages returns the
    queued ones, each cut or padded to the message size, followed by 0xff
    "no message" bytes;
  - a log of register writes;
  - a `broken` flag. When it is set, every transfer fails.

Integer widths are explicit:
- `u8` and `u16` fields store their values modulo 2^8 and 2^16 (`Wrap8`,
  `Wrap16`), as the C assignments do;
- the report-id counter is an unbounded integer, as the C `int` is.

Behaviour of the code that the model keeps as written:

- An object count above 1024 is only logged, and the boot carries on
  (`atmel.cpp:297-300`).
- Nothing checks that the command or message processor was found. The
  command processor is dereferenced at the reset, so its presence is a
  precondition (`BootPlan.BootReady`). The message processor (`msgprocobj`)
  is never used.
- The T5 message-size rule reads `devContext->info`, which nothing in the
  boot path fills. It does not read the information block just read into
  `core->info`. The model keeps both fields (`Device.info` and
  `Device.coreInfo`) and uses the one the code reads. `ZeroInfoDropsCrcByte`
  shows the consequence.
- The two drivers report a release differently:
  - `atmel.cpp` reports a release with the confidence bit set and never sets
    in-range;
  - `atmel.c` sets in-range on every report except a release.

## Model

| member | source | states |
|---|---|---|
| Protocol.LeBytes | crostouchscreen2/atmel.cpp:404-416 | the byte pair cached for the report descriptor reassembles, low byte first, to the 16-bit value |
| Protocol.Fill | crostouchscreen2/atmel.cpp:789-791 | the message buffer's pre-fill: `n` bytes, every one 0xff |
| Protocol.Frame | crostouchscreen2/atmel.cpp:793 | a transfer of exactly `size` bytes of a message delivers its first `size` bytes, padded with 0xff past its end |
| ObjectTable.ParseInfo | crostouchscreen2/atmel.cpp:290-295 | the object count is byte 6 of the information block |
| ObjectTable.EncodeInfo | crostouchscreen2/atmel.cpp:290 | the information block is seven bytes |
| ObjectTable.ParseEncodeInfo | crostouchscreen2/atmel.cpp:290-295 | parsing an encoded information block gives it back |
| ObjectTable.EncodeEntry | crostouchscreen2/atmel.cpp:325-326 | an object-table entry is six bytes |
| ObjectTable.ParseEntry | crostouchscreen2/atmel.cpp:325-326 | an entry is six bytes: type, little-endian start address, size minus one, instances minus one, report ids; `ParseEncodeEntry` and `EncodeParseEntry` show it is the exact inverse of the encoder |
| ObjectTable.EncodeParseEntry | crostouchscreen2/atmel.cpp:325-326 | encoding a parsed entry gives back its six bytes, so no two byte strings parse to the same entry |
| ObjectTable.ParseTable | crostouchscreen2/atmel.cpp:325-326 | the table has `n` entries, and entry `i` is parsed from the six bytes at offset 6*i |
| ObjectTable.EncodeTable | crostouchscreen2/atmel.cpp:325-326 | an encoded table is six bytes per entry |
| ObjectTable.ParseEncodeEntry | crostouchscreen2/atmel.cpp:325-326 | parsing an encoded entry, with its little-endian start address, gives it back |
| ObjectTable.ParseEncodeTable | crostouchscreen2/atmel.cpp:325-326 | parsing an encoded table gives back the same entries in order |
| ObjectTable.EncodeTableAt | crostouchscreen2/atmel.cpp:325-326 | entry `i` of an encoded table sits at byte 6*i |
| ObjectTable.ObjSize | crostouchscreen2/atmel.cpp:47-50 | the object size is the stored size minus one, plus one: between 1 and 256 |
| ObjectTable.ObjInstances | crostouchscreen2/atmel.cpp:52-55 | the instance count is the stored count plus one: between 1 and 256 |
| ObjectTable.FindObject | crostouchscreen2/atmel.cpp:57-68 | the index of the first entry in table order with the type; None exactly when no entry has it |
| ObjectTable.FindFrom | crostouchscreen2/atmel.cpp:62-67 | the search loop from index `i` finds the first match at or after `i`, or None when there is none |
| Scan.Ids | crostouchscreen2/atmel.cpp:336-340 | an object with report ids claims at least one id: ids per instance times instances |
| Scan.ScanStep | crostouchscreen2/atmel.cpp:333-392 | one pass of the switch; `StepClaimsRange` and `StepKeepsOtherIds` state what it does to the counter and to the cached fields |
| Scan.StepClaimsRange | crostouchscreen2/atmel.cpp:333-392 | the counter advances by ids times instances; a T9 or T100 object with report ids records the range from the old counter to one before the new one, each kept in 8 bits |
| Scan.StepKeepsOtherIds | crostouchscreen2/atmel.cpp:333-392 | an object changes only the report-id and address fields of its own kind: T9, T100, T6, T44 and T19 fields are left alone by every other kind |
| Scan.ScanKeepsGeometry | crostouchscreen2/atmel.cpp:331-395 | the scan never writes max_x, max_y, the descriptor bytes, the T100 auxiliary offsets or max_reportid |
| Scan.ScanTable | crostouchscreen2/atmel.cpp:331-395 | the whole scan from counter 1, with max_reportid set afterwards; every geometry field keeps its previous value |
| Scan.T5MessageSize | crostouchscreen2/atmel.cpp:348-362 | the whole object for family 0x80 before version 0x20, kept in 8 bits; one byte less otherwise |
| Scan.ScanCounter | crostouchscreen2/atmel.cpp:331-346 | after `n` objects the counter is one more than the ids the first `n` objects claimed |
| Scan.MaxReportIdIsCounter | crostouchscreen2/atmel.cpp:395 | max_reportid is the final counter, kept modulo 256 |
| Scan.IdsBeforeMonotone | crostouchscreen2/atmel.cpp:336-341 | the ids claimed never decrease along the table |
| Scan.RangeSize | crostouchscreen2/atmel.cpp:336-341 | a non-empty range starts at 1 or later and holds exactly ids times instances ids |
| Scan.RangesAscending | crostouchscreen2/atmel.cpp:331-346 | non-empty ranges are disjoint and ascend in table order |
| Scan.RangesConsecutive | crostouchscreen2/atmel.cpp:331-346 | the next object with report ids starts right after the previous one ends |
| Scan.FirstRangeStartsAtOne | crostouchscreen2/atmel.cpp:331-340 | the first object with report ids starts at id 1 |
| Scan.IdsBeforeSkipsEmpty | crostouchscreen2/atmel.cpp:342-345 | objects without report ids claim none (min_id and max_id 0) and leave the counter alone |
| Scan.RangesFitInBytes | crostouchscreen2/atmel.cpp:334-340 | when fewer than 256 ids are handed out, the byte-wide min_id and max_id hold the ranges exactly |
| Scan.LastOfType | crostouchscreen2/atmel.cpp:347-392 | the last object before `n` with one of the given types, and no later one has such a type |
| Scan.T9RangeFromLast | crostouchscreen2/atmel.cpp:371-377 | the last T9 object sets the T9 report-id range; without one the range keeps the value the context held |
| Scan.T100RangeFromLast | crostouchscreen2/atmel.cpp:384-391 | the last T100 object sets the T100 report-id range; without one the range keeps the value the context held |
| Scan.MultitouchFromLast | crostouchscreen2/atmel.cpp:371-391 | the last T9 or T100 object decides the multitouch kind; num_touchids is ids*instances for T9 and ids-2 for T100, in 8 bits |
| Scan.T5FromLast | crostouchscreen2/atmel.cpp:348-363 | the last T5 object sets the message address and size |
| Scan.T6T44FromLast | crostouchscreen2/atmel.cpp:364-380 | the last T6 object sets the command report id and address; the last T44 object sets the message-count address |
| Scan.T19FromLast | crostouchscreen2/atmel.cpp:381-383 | the last T19 object sets the GPIO report id to the first id of its range, 0 when it has none; without a T19 object the field keeps its value |
| Scan.ZeroInfoDropsCrcByte | crostouchscreen2/atmel.cpp:349-360 | with the never-filled zero identity, the message size is always the object size minus one |
| Geometry.T9DefaultRange | crostouchscreen2/atmel.cpp:148-153 | a T9 range of 0 becomes 1023; any other range is kept |
| Geometry.T9Screen | crostouchscreen2/atmel.cpp:148-162 | each axis is its range plus one, a zero range counting as 1023; below the 16-bit limit both axes are at least 2, and zero ranges give a 1024 by 1024 screen (the axis exchange is `T9ScreenAxes`) |
| Geometry.T100Screen | crostouchscreen2/atmel.cpp:194-201 | each axis is its range plus one in 16 bits, at least 1 below the 16-bit limit; the two axes together are the two ranges plus one whichever way round they are (the exchange is `T100ScreenAxes`) |
| Geometry.T9ScreenAxes | crostouchscreen2/atmel.cpp:148-162 | the orientation's switch bit alone exchanges the axes; an axis is its range plus one, with a zero range giving 1024 |
| Geometry.T100ScreenAxes | crostouchscreen2/atmel.cpp:194-201 | the switch-XY bit exchanges the axes; an axis is its range plus one in 16 bits |
| Geometry.T100AuxOffsets | crostouchscreen2/atmel.cpp:208-217 | the enabled auxiliary fields (vector, amplitude, area) get consecutive offsets from 6; disabled ones keep their old value |
| Geometry.HidBytesReassemble | crostouchscreen2/atmel.cpp:404-416 | the cached descriptor pair is the low then high byte of max_x or max_y and reassembles to it |
| Messages.RawT9X | crostouchscreen2/atmel.cpp:699 | the 12-bit X of a T9 message is below 4096 |
| Messages.RawT9Y | crostouchscreen2/atmel.cpp:700 | the 12-bit Y of a T9 message is below 4096 |
| Messages.ScaleT9 | crostouchscreen2/atmel.cpp:702-706 | an axis whose maximum is below 1024 is shifted right by two (10 bits); a wider one is kept |
| Messages.T100Flags | crostouchscreen2/atmel.cpp:721-725 | detect gives T9 detect; no detect after a slot that held detect gives T9 release; otherwise 0 |
| Messages.InT9Range | crostouchscreen2/atmel.cpp:696 | membership of the closed T9 report-id range; a member fits the report-id byte, and an inverted range holds nothing |
| Messages.InT100Range | crostouchscreen2/atmel.cpp:716 | membership of the closed T100 report-id range; a member fits the report-id byte, and an inverted range holds nothing |
| Messages.T100Slot | crostouchscreen2/atmel.cpp:717 | the slot is non-negative exactly from the third id of the range on (the first two are reserved), and lies between -2 and the range's width minus 2 |
| Messages.T100Coordinate | crostouchscreen2/atmel.cpp:727-728 | byte `at` is the low byte and byte `at + 1` the high byte of the coordinate |
| Messages.Decode | crostouchscreen2/atmel.cpp:686-737 | the sentinel is no event; a touch exactly when the id maps to a slot; a T9 touch carries the message's flags, area and coordinates below 4096; a T100 touch carries `T100Flags` of the message's flags and the slot's previous flags, the little-endian coordinates at bytes 2 and 4, and area 10 |
| Messages.Track | crostouchscreen2/atmel.cpp:711-714 | a touch overwrites the four fields of its own slot and no other slot changes |
| Messages.PackT9Position | crostouchscreen2/atmel.cpp:699-700 | the chip's three position bytes for 12-bit coordinates |
| Messages.T9PositionRoundTrip | crostouchscreen2/atmel.cpp:699-700 | decoding a T9 message recovers the 12-bit X and Y the chip packed |
| Messages.PackLe16 | crostouchscreen2/atmel.cpp:727-728 | a T100 coordinate is two bytes |
| Messages.T100CoordinateRoundTrip | crostouchscreen2/atmel.cpp:727-728 | decoding a T100 coordinate recovers the little-endian 16-bit value the chip sent |
| Messages.T9TenBitScaling | crostouchscreen2/atmel.cpp:702-706 | a decoded T9 X or Y is the raw field shifted right by two when its maximum is below 1024, and the raw field otherwise |
| Messages.T100SyntheticRelease | crostouchscreen2/atmel.cpp:716-736 | a T100 detect followed by a message without detect leaves the slot marked released, with the new position and area 10 |
| Processing.Step | crostouchscreen2/atmel.cpp:686-779 | the sentinel returns 0 and changes nothing; any other message returns 1, sets RegsSet and delivers at most one report |
| Processing.Input | crostouchscreen2/atmel.cpp:900-939 | a report from the slots as they are leaves RegsSet alone |
| Processing.Fold | crostouchscreen2/atmel.cpp:799-805 | processing messages in order keeps the tracker well formed |
| Processing.CountValid | crostouchscreen2/atmel.cpp:799-805 | the count of handled messages is at most the number read |
| Processing.FoldAppend | crostouchscreen2/atmel.cpp:799-805 | processing `a + b` is processing `a` and then `b` |
| Processing.FoldSkipsSentinels | crostouchscreen2/atmel.cpp:689-690 | a stretch of sentinel messages changes nothing and counts zero |
| Processing.StepIgnoresTail | crostouchscreen2/atmel.cpp:708-709 | only bytes 0 to 5 of a message matter; the amplitude and later bytes are dropped |
| Processing.IgnoredIdStillReports | crostouchscreen2/atmel.cpp:692-695 | a T6 message or an unknown id leaves the slots, yet a report is still built and RegsSet set |
| Processing.InputAfterInputKeepsSlots | crostouchscreen2/atmel.cpp:963-975 | with at most ten active slots, a second report (the timer's) clears nothing more |
| Reports.ContactStatusBits | crostouchscreen2/atmel.cpp:752-764 | tip switch exactly while touching; confidence while touching and, in atmel.cpp, for a release; in range, in atmel.c only, for all but a release |
| Reports.ContactStatus | crostouchscreen2/atmel.cpp:752-764 | only the tip-switch, confidence and in-range bits are ever set; a slot with no detect, press or release bit gets 0 in atmel.cpp and in-range alone in atmel.c (the bit for each flag is `ContactStatusBits`) |
| Reports.RenderFrom | crostouchscreen2/atmel.cpp:742-769 | the loop from slot `i` never takes the report past ten entries and keeps twenty slots |
| Reports.RenderUpTo | crostouchscreen2/atmel.cpp:742-769 | the first `n` iterations of the loop keep twenty slots |
| Reports.RenderUpToMeetsRender | crostouchscreen2/atmel.cpp:742-769 | the loop's first `n` iterations followed by the rest give the whole report |
| Reports.Render | crostouchscreen2/atmel.cpp:742-771 | at most ten contacts and twenty slots; `RenderShape` proves it equal to `RenderSpec`, the first ten active slots in index order, and `ReleaseReportedOnce`/`RenderKeepsUnreleased` say which slots it changes |
| Reports.Deliver | crostouchscreen2/atmel.cpp:771-776 | a report goes out only when it has entries, with ActualCount equal to their number |
| Reports.ActiveFrom | crostouchscreen2/atmel.cpp:743-744 | the active slots from `i` on are slot indices |
| Reports.ActiveFromShape | crostouchscreen2/atmel.cpp:743-744 | every listed index is an active slot from `i` on, in strictly ascending order |
| Reports.ActiveFromComplete | crostouchscreen2/atmel.cpp:743-744 | every active slot from `i` on is listed |
| Reports.ContactsAt | crostouchscreen2/atmel.cpp:745-750 | entry `k` reports slot `idx[k]`: its index as contact id, its position, and its area as width and height |
| Reports.RenderSpec | crostouchscreen2/atmel.cpp:742-769 | the report is the first ten active slots in index order, and only the released ones it reports change |
| Reports.RenderShape | crostouchscreen2/atmel.cpp:742-771 | the report holds min(10, active slots) entries with strictly ascending contact ids, each built from its slot |
| Reports.ReleaseReportedOnce | crostouchscreen2/atmel.cpp:759-762 | a reported release empties its slot, so the next report leaves it out |
| Reports.RenderKeepsUnreleased | crostouchscreen2/atmel.cpp:742-769 | a slot not reported, or still touching, comes out of the report unchanged |
| Reports.QuietSlotsSendNothing | crostouchscreen2/atmel.cpp:771-776 | with no active slot the report is empty and nothing is delivered |
| SlotArrays.SlotsOf | crostouchscreen2/atmel.h:185-191 | slot `j` is entry `j` of each of the four arrays |
| SlotArrays.Cleared | crostouchscreen2/atmel.cpp:634-636 | every flag is cleared and the positions and areas are kept |
| SlotArrays.ClearedSendsNothing | crostouchscreen2/atmel.cpp:634-639 | after the power-up clear no slot is active, so a report then sends nothing |
| SlotArrays.SlotTable.Contents | crostouchscreen2/atmel.h:185-191 | the four arrays read as twenty slots |
| SlotArrays.SlotTable.FlagsAt | crostouchscreen2/atmel.cpp:724 | the flags the T100 decoder consults are the slot's flags |
| SlotArrays.SlotTable.constructor | crostouchscreen2/atmel.h:185-191 | a fresh context's arrays hold twenty zero slots |
| SlotArrays.SlotTable.Write | crostouchscreen2/atmel.cpp:711-714 | writes the four fields of slot `i`, in place, and no other slot |
| SlotArrays.SlotTable.ClearFlags | crostouchscreen2/atmel.cpp:634-636 | the clearing loop leaves `Cleared` of the old slots |
| SlotArrays.SlotTable.ReportSlot | crostouchscreen2/atmel.cpp:745-764 | the entry for slot `i` from its old contents; the slot is cleared exactly when a release is reported |
| SlotArrays.SlotTable.Render | crostouchscreen2/atmel.cpp:742-769 | the in-place report loop returns the entries and leaves the slots `Reports.Render` specifies |
| Bus.Stream | crostouchscreen2/atmel.cpp:793 | one read of several messages transfers `size` bytes per message |
| Bus.StreamAt | crostouchscreen2/atmel.cpp:799-801 | message `i` of a transfer sits at byte `size * i` |
| Bus.ReadBytes | crostouchscreen2/atmel.cpp:787-793 | a read of `count` messages transfers `size * count` bytes |
| Bus.Peek | crostouchscreen2/atmel.cpp:71-82 | a register read returns the register memory, and 0xff past its end |
| Bus.Chip.constructor | crostouchscreen2/atmel.cpp:71-109 | a chip with the given state and no writes yet |
| Bus.Chip.ReadRegs | crostouchscreen2/atmel.cpp:71-82 | succeeds exactly when the bus works, returning the register bytes |
| Bus.Chip.ReadMessages | crostouchscreen2/atmel.cpp:793-797 | on success the queued messages come first, then 0xff bytes, and the consumed ones leave the queue; on failure nothing changes |
| Bus.Chip.ReadCountAndMessage | crostouchscreen2/atmel.cpp:834-839 | on success byte 0 is the queue length capped at 255, followed by the first message |
| Bus.Chip.WriteRegs | crostouchscreen2/atmel.cpp:85-93 | on success the write is appended to the log; on failure nothing changes |
| Batches.Framed | crostouchscreen2/atmel.cpp:793 | each message cut or padded to the message size |
| Batches.Sentinels | crostouchscreen2/atmel.cpp:789-791 | `n` all-0xff messages |
| Batches.Batch | crostouchscreen2/atmel.cpp:787-805 | a read of `count` messages hands the decoder exactly `count` messages |
| Batches.BatchAt | crostouchscreen2/atmel.cpp:799-801 | the buffer's `size` bytes at `size * i` are message `i` of the batch |
| Batches.BatchInBuffer | crostouchscreen2/atmel.cpp:799-801 | a buffer that starts with a read's bytes holds the read's batch |
| Batches.FramedProcessable | crostouchscreen2/atmel.cpp:799-801 | queued messages, framed, are messages the decoder accepts and none is a sentinel |
| Batches.CountValidAllReal | crostouchscreen2/atmel.cpp:803-804 | a batch of real messages counts all of them |
| Batches.BatchFold | crostouchscreen2/atmel.cpp:799-805 | processing a read is processing the consumed messages; the trailing sentinels change nothing and are not counted |
| Batches.Drained | crostouchscreen2/atmel.cpp:781-811 | the tracker after the first `n` queued messages stays well formed |
| Batches.DrainedAppend | crostouchscreen2/atmel.cpp:819 | draining `n` messages and then `k` more is draining `n + k` |
| Batches.CounterMessage | crostouchscreen2/atmel.cpp:839-848 | the message read together with the count is processed as the first queued message |
| Batches.DrainedNothing | crostouchscreen2/atmel.cpp:841-842 | draining no message changes nothing |
| BootPlan.ConfigBlock | crostouchscreen2/atmel.cpp:302-308 | the second read is the information block, six bytes per object and three CRC bytes |
| BootPlan.ConfigObjects | crostouchscreen2/atmel.cpp:325-326 | the object table has as many entries as the information block says |
| BootPlan.T9Geometry | crostouchscreen2/atmel.cpp:118-165 | only max_x and max_y change; with zero ranges and no axis switch the screen is 1024 by 1024 |
| BootPlan.T100Geometry | crostouchscreen2/atmel.cpp:167-221 | only max_x, max_y and the three auxiliary offsets change; a TCHAUX byte with none of the three bits keeps the offsets |
| BootPlan.ReadGeometry | crostouchscreen2/atmel.cpp:399-402 | the T9 read or the T100 read by the profile's kind, nothing for any other kind; only the size and, for T100, the auxiliary offsets change |
| BootPlan.WithHid | crostouchscreen2/atmel.cpp:404-416 | only the descriptor bytes change; for a T9 or T100 profile they reassemble, low byte first, to max_x and max_y, and any other profile is left as it is |
| BootPlan.ResetWrite | crostouchscreen2/atmel.cpp:113-116 | the single byte 1 written at the command processor's start address (the reset offset is 0) |
| BootPlan.ResumeWrite | crostouchscreen2/atmel.cpp:440-452 | on T100 the bytes 100 then 20 (idle then active cycle time) at the T7 address; otherwise the byte 0x83 at the first T9 object's start address (its control offset is 0) |
| BootPlan.GeometryKeepsScan | crostouchscreen2/atmel.cpp:399-416 | the geometry read changes only the screen size, the T100 offsets and the descriptor bytes; the bytes reassemble to the size; without a touch object nothing changes |
| PumpPlan.ReadResult | crostouchscreen2/atmel.cpp:781-811 | -1 exactly when `count` exceeds max_reportid; otherwise at most `count` and at most the queue length |
| PumpPlan.DrainPairs | crostouchscreen2/atmel.cpp:883-892 | the pair loop consumes at most the queue |
| PumpPlan.DrainPairsTry | crostouchscreen2/atmel.cpp:883-892 | one pass of the pair loop: an error stops it, fewer than two or reaching num_touchids ends it, otherwise it goes on |
| PumpPlan.DeviceReadPlan | crostouchscreen2/atmel.cpp:868-898 | consumes at most the queue; a failed read leaves the hint |
| PumpPlan.DeviceReadFirst | crostouchscreen2/atmel.cpp:870-880 | a refused first read fails and leaves the hint; a first read of at most the hint succeeds and stores its count |
| PumpPlan.DeviceReadPairs | crostouchscreen2/atmel.cpp:882-895 | after a first read above the hint, the pair loop's outcome is the call's, and success stores the total |
| PumpPlan.UntilInvalidPlan | crostouchscreen2/atmel.cpp:813-824 | the drain consumes at most the queue |
| PumpPlan.UntilInvalidTry | crostouchscreen2/atmel.cpp:817-822 | a short read ends the drain with 0; a full first read goes on to the second; a full second read gives -1 |
| PumpPlan.T44Consumed | crostouchscreen2/atmel.cpp:826-866 | the T44 path consumes at most the queue |
| PumpPlan.DrainPairsStops | crostouchscreen2/atmel.cpp:883-892 | on a working bus the pair loop stops when the queue runs dry or the total reaches num_touchids |
| PumpPlan.DeviceReadDrains | crostouchscreen2/atmel.cpp:868-898 | a successful read consumes every queued message or at least num_touchids of them |
| PumpPlan.DeviceReadSettles | crostouchscreen2/atmel.cpp:870-880 | when no more messages are queued than a usable hint announces, one read takes them all and the hint becomes their number |
| PumpPlan.DeviceReadStuckAtMax | crostouchscreen2/atmel.cpp:870-878 | a hint equal to max_reportid makes every later read ask for too many: it fails, reads nothing and keeps the hint |
| PumpPlan.DeviceReadReachesStuckHint | crostouchscreen2/atmel.cpp:870-895 | with three report ids, a read that finds three messages stores 3, and the next read is refused |
| PumpPlan.DeviceReadOnBrokenBus | crostouchscreen2/atmel.cpp:876-880 | on a failing bus the read still succeeds and stores 0, unless the first request is refused |
| PumpPlan.UntilInvalidOutcome | crostouchscreen2/atmel.cpp:813-824 | the drain gives -1 exactly when both tries came back full |
| PumpPlan.T44ConsumesCount | crostouchscreen2/atmel.cpp:839-858 | the T44 path consumes the whole queue when it fits the count and max_reportid; otherwise max_reportid messages |
| PumpPlan.T44ZeroMaxReadsOne | crostouchscreen2/atmel.cpp:844-858 | with max_reportid 0 the remaining count wraps to 255, that read is refused, and only the first message is consumed |
| Driver.Device.constructor | crostouchscreen2/atmel.h:153-221 | a fresh device context is all zeros: empty slots, no flags set, no objects, zero profile |
| Driver.Device.TrackMessage | crostouchscreen2/atmel.cpp:686-737 | the slot arrays become `Track` of the decoded event |
| Driver.Device.ProcessMessage | crostouchscreen2/atmel.cpp:686-779 | the new tracker state and the return value are `Processing.Step` of the old state |
| Driver.Device.ProcessInput | crostouchscreen2/atmel.cpp:900-939 | the new state is `Processing.Input` of the old state |
| Driver.Device.ProcessBuffer | crostouchscreen2/atmel.cpp:799-805 | processing the buffer's messages gives the fold of the batch, and returns the number of non-sentinels |
| Driver.Device.ProcessRead | crostouchscreen2/atmel.cpp:799-805 | processing a read's buffer is processing the consumed messages, and counts them all |
| Driver.Device.ReadAndProcessMessages | crostouchscreen2/atmel.cpp:781-811 | returns `ReadResult`, consumes that many queued messages and processes them |
| Driver.Device.ReadMore | crostouchscreen2/atmel.cpp:819 | one read in the middle of a drain continues it |
| Driver.Device.ProcessMessagesUntilInvalid | crostouchscreen2/atmel.cpp:813-824 | the result and the messages consumed are `UntilInvalidPlan`'s, and those messages are processed |
| Driver.Device.ReadCountBytes | crostouchscreen2/atmel.cpp:831-839 | the count byte is the queue length capped at 255 (0 on failure), and a message comes with it when it is nonzero |
| Driver.Device.ReadCounter | crostouchscreen2/atmel.cpp:834-848 | reads the count and processes the first message when the count is nonzero |
| Driver.Device.DeviceReadT44 | crostouchscreen2/atmel.cpp:826-866 | returns true and consumes and processes `T44Consumed` messages |
| Driver.Device.ReadPair | crostouchscreen2/atmel.cpp:884-891 | one pass of the pair loop, following `DrainPairsTry` |
| Driver.Device.ReadPairs | crostouchscreen2/atmel.cpp:883-892 | the pair loop's outcome and total are `DrainPairs`' |
| Driver.Device.DeviceRead | crostouchscreen2/atmel.cpp:868-898 | the result, the messages consumed and the new hint are `DeviceReadPlan`'s, and those messages are processed |
| Driver.Device.Drain | crostouchscreen2/atmel.cpp:953-956 | the T44 path consumes `T44Consumed` messages and keeps the hint; the adaptive path follows `DeviceReadPlan`; either way the tracker is `Drained` over the consumed messages |
| Driver.Device.OnInterruptIsr | crostouchscreen2/atmel.cpp:940-961 | does nothing and returns false while disconnected; otherwise the T44 path when a T44 address is known, else `DeviceRead`, then one more report |
| Driver.Device.TimerFunc | crostouchscreen2/atmel.cpp:963-975 | a report from the slots only when the interrupt is connected and RegsSet holds; otherwise nothing |
| Driver.Device.ReadConfig | crostouchscreen2/atmel.cpp:290-329 | on a working bus caches the information block and object table and finds the two processors; otherwise changes nothing |
| Driver.Device.ScanEntry | crostouchscreen2/atmel.cpp:333-392 | one iteration of the scan loop, as `Scan.ScanStep` describes |
| Driver.Device.ScanObjectTable | crostouchscreen2/atmel.cpp:331-395 | the cached profile is `Scan.ScanTable` of the object table |
| Driver.Device.ReadT9Resolution | crostouchscreen2/atmel.cpp:118-165 | on a working bus max_x and max_y come from the first T9 object's range and orientation; otherwise unchanged |
| Driver.Device.ReadT100Config | crostouchscreen2/atmel.cpp:167-221 | on a working bus the screen size and auxiliary offsets come from the first T100 object; otherwise unchanged |
| Driver.Device.ReadTouchGeometry | crostouchscreen2/atmel.cpp:399-416 | the geometry read of the profile's touch object, then the descriptor byte pairs |
| Driver.Device.ResetDevice | crostouchscreen2/atmel.cpp:113-116 | on a working bus writes 1 at the command processor's reset offset |
| Driver.Device.OnD0Entry | crostouchscreen2/atmel.cpp:624-644 | resets the chip, clears the twenty slot flags, clears RegsSet and connects the interrupt |
| Driver.Device.Resume | crostouchscreen2/atmel.cpp:439-456 | in a context where the command processor and, for T9, the touch object exist (`ResumeReady`): writes the active power configuration (T100) or 0x83 to the T9 control byte, then resets; stops at the first failure |
| Driver.Device.OnReleaseHardware | crostouchscreen2/atmel.cpp:584-600 | both processor pointers become null while the boot flag stays set, so `ResumeReady` no longer holds for the next boot's resume branch |
| Driver.Device.Configure | crostouchscreen2/atmel.cpp:290-395 | reads the configuration and caches the scanned profile; on failure nothing changes |
| Driver.Device.Settle | crostouchscreen2/atmel.cpp:397-421 | drains stale messages as `UntilInvalidPlan` says, reads the geometry and resets the chip; on a failing bus the descriptor bytes are still recomputed from the old size (`WithHid` of the old profile) and nothing is written |
| Driver.Device.FirstBoot | crostouchscreen2/atmel.cpp:282-438 | on a working bus: configuration, scanned profile, geometry, drained queue and one reset write, then booted; on failure nothing changes |
| Driver.Device.Boot | crostouchscreen2/atmel.cpp:277-457 | the first call boots to `BootPlan.Booted`, drains the stale messages as `UntilInvalidPlan` says and leaves the tracker `Drained` over them; later calls only resume and never rescan; booted once any call succeeds |
| LegacyDriver.LegacySlot | crostouchscreen2/atmel.c:255-266 | the slot atmel.c decodes: the flags, a 12-bit X below 4096, a Y divided by four below 1024, and the area |
| LegacyDriver.LegacyTrack | crostouchscreen2/atmel.c:255-267 | the sentinel changes nothing; any other message replaces its own slot and no other |
| LegacyDriver.LegacyStep | crostouchscreen2/atmel.c:255-309 | one interrupt's decode, report and RegsSet, keeping the tracker well formed |
| LegacyDriver.LegacyTouchReported | crostouchscreen2/atmel.c:257-306 | a decoded touch among the first ten active slots appears in the one report the interrupt delivers, with the message's values |
| LegacyDriver.LegacyDevice.constructor | crostouchscreen2/atmel.h:153-191 | a fresh context: zero slots, disconnected, nothing handled |
| LegacyDriver.LegacyDevice.OnInterruptIsr | crostouchscreen2/atmel.c:241-312 | always claims the interrupt; while disconnected it changes nothing; otherwise the state is `LegacyStep` of the old state and lastmsg is the message |
| LegacyDriver.LegacyDevice.TimerFunc | crostouchscreen2/atmel.c:315-365 | a report in the atmel.c style only when connected and RegsSet holds; otherwise nothing |
| LegacyDriver.LegacyDevice.OnD0Entry | crostouchscreen2/atmel.c:190-206 | clears the twenty slot flags, clears RegsSet and connects the interrupt; reports and lastmsg are kept |

## Left out

- The configuration CRC (`obp_crc24`, `obp_convert_crc`) is left out. These
  functions are defined in a header that is not part of this model, and a
  mismatch is only logged.
- The check of an object count above 1024 only logs, so it is left out.
- Host-framework plumbing is left out, because it is lifecycle code with no
  logic of its own:
  - `DriverEntry`, device add, prepare of hardware (whose only logic is the
    call of `BOOTTOUCHSCREEN`), and `OnD0Exit`;
  - the 200 ms boot timer and work item, and the timer starts in `OnD0Entry`;
  - the idle-IRP handling;
  - queue creation, HID IOCTL dispatch, report delivery to the HID stack
    (`AtmelProcessVendorReport`) and the descriptor byte arrays.
- Delivered reports are a sequence of values kept in the context.
- Pool allocation, debug printing and concurrency between the interrupt and
  timer paths are left out.
- Constants from `atmel_mxt.h` are not part of this model. The object-type
  ids, flag bits and register offsets take the values of the published
  maXTouch protocol. `MULTI_IN_RANGE_BIT`, which none of the modelled files
  defines, is taken as 4.
- The layouts of two structs from `atmel_mxt.h` are taken from the published
  protocol too. `struct t7_config` holds the idle cycle time before the
  active one and is two bytes long, so the resume write is `[100, 20]`
  (`atmel.cpp:228-239`).
  `struct t9_range` holds x before y, so `BootPlan.T9Geometry` reads X from
  the first two bytes of the range register (`atmel.cpp:120`, `138`).
- Driver.Device.ReadConfig: the bus fails all at once (`Bus.Chip.broken`).
  The separate failure of one transfer after another has succeeded is not
  modelled, so the status checks of later reads in the boot sequence and the
  geometry reads are not distinguished from the first.
- Driver.Device.ReadT9Resolution: the X and Y size reads are discarded by the
  source and are not modelled as values.
- Driver.Device.ResetDevice: register writes go to a log and do not change the
  register memory read at boot.
- Driver.Device.FirstBoot: timer creation is assumed to succeed. A failed
  read or reset returns its own status (`atmel.cpp:420`). After a successful
  reset the source returns the status of `WdfTimerCreate`, declared afresh in
  the inner block (`atmel.cpp:431`, returned at `437`). The model's `ret`
  stands for that status under the assumption that the timer is created.
- Driver.Device.DeviceReadT44: the last byte of the `T5_msg_size + 1` buffer,
  which the read never fills, is not modelled. The decoder handed
  `msg_buf + 1` only reads its first seven bytes.
- Messages.Decode: requires `SafeId`. The T9 path writes `Flags[report_id]`
  with no check against 20, and the T100 path has no upper bound on its slot.
  The model only admits report ids that stay inside the twenty slots. The
  T100 read of `Flags[-1]` or `Flags[-2]`, whose value is then discarded, is
  not modelled.
- Driver.Device.OnInterruptIsr: requires the queued messages to be
  `Batches.Deliverable` under the profile. This is the same bound on report
  ids, applied to every message the pump can read.
- Driver.Device.Boot: requires `BootPlan.BootReady` on a working bus. The
  message size must suit the decoder, the command processor and the touch
  object the code dereferences must exist, and the queued report ids must fit.
  A later call takes the resume branch, which needs `ResumeReady`: the command
  processor and, unless the screen is T100, the T9 object. In the source that
  branch is reached only through `OnPrepareHardware` (`atmel.cpp:553`), after
  `OnReleaseHardware` has freed the configuration buffer and set `cmdprocobj`
  to null (`atmel.cpp:589-596`) while `TouchScreenBooted` stays true. The
  reset (`atmel.cpp:455`, `113-115`) then dereferences null and the T9 lookup
  (`atmel.cpp:449`) walks freed memory. The model describes the resume branch
  only where `ResumeReady` holds, a state the driver does not reach on that
  path; `OnReleaseHardware` states that it no longer holds.
- Driver.Device.OnReleaseHardware: freeing the buffer is not modelled. The
  object table stays in the context as values after the release.
- Driver.Device.OnD0Entry: requires the command processor. Power-up follows a
  successful `OnPrepareHardware`, whose first boot found it (or faulted at
  its own reset first), so the reset here has it.
- LegacyDriver.LegacyDevice.OnInterruptIsr: the message is a parameter. The
  source ignores the status of its bus read. The report id must be the
  sentinel or below 20 (`LegacyProcessable`), since the source does not check.
