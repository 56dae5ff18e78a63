# fastboot3DS: menu navigation, PXI framing and ARM11 interrupt contracts

This project models three sequential pieces of the fastboot3DS bootloader and proves what
they promise.

- **`menu.dfy` (module `Menu`)**: the ARM9 boot menu's navigation state machine.
  - The state is `menu_state`, `menu_next_state`, the eight-entry back stack
    `menu_previous_states` with its count, and `menu_event_state`.
  - Each transition is a function on a `NavState` value: `EnterNext`, `ReturnTo`, `Act`,
    `Drained`/`Resolve`, `CursorUp`/`CursorDown`.
  - The class `Globals` holds the same globals, with the back stack as an `array`. Its
    methods are proved to perform exactly those transitions.
  - A `panic()` is a `halted` result with nothing changed.
- **`pxi.dfy` (module `Pxi`)**: the ARM9 side of the PXI word FIFO.
  - The pure part covers the header word `cmd | words<<16`, the frame that `PXI_sendCmd`
    pushes, and how a stream of frames splits back into commands.
  - The class `Channel` has the send and receive FIFOs as `seq<bv32>` fields and
    `REG_PXI_SYNC9` as a `bv32` field. Its methods are `PXI_init`, `pxiIrqHandler` and
    `PXI_sendCmd`.
  - The macros `PXI_DATA_SENT` and `PXI_DATA_RECEIVED` and the dispatcher `IPC_handleCmd`
    are defined outside these files. They are function-valued constants of the channel,
    fixed at construction and otherwise unknown.
- **`interrupt.dfy` (module `Interrupt`)**: the ARM11 interrupt header.
  - The critical section reads, modifies and writes the CPSR I bit (bit 7). `msr cpsr_c`
    writes only bits 0-7.
  - The `intSource` word passed to handlers packs the interrupt ID in bits 0-9 and the
    source CPU in bits 10-12.
  - The documented contracts of `IRQ_init`, `IRQ_registerHandler`, `IRQ_unregisterHandler`,
    `IRQ_setPriority` and `IRQ_softwareInterrupt` act on a table of 128 lines. The class
    `Distributor` keeps that table and the software interrupts not yet taken.
- **`wrappers.dfy`**: the `Option` type shared by the modules.

Behaviour worth knowing. Each item is modelled as the code or its documentation says, except the one undefined read noted in the first item:

- **Out-of-bounds read.** `menuSetReturnToState` with an explicit target menu scans from
  `menu_previous_states[count]` down to index 1.
  - Index `count` lies one past the stack top. At `count == 8` that read is out of bounds,
    so `ReturnTo` and `Globals.ReturnToState` require `count < 8` for that branch.
    `menuActState` with a pending HOME event calls that branch, so `Act` needs the same.
  - Below 8 the stale slot is harmless. If the target menu is found only there, the count
    stays as it was.
- **Root slot.** Index 0 is never inspected, and a `STATE_PREVIOUS` return is refused at
  `count <= 1`. So slot 0 acts as a root entry: only an `Exit` return removes it
  (`RunKeepsRoot`).
- **Priority 15.** The header comments say "15 = disabled", so the distributor contracts
  accept priorities 0-15, and a line at priority 15 reaches no handler even when it is
  registered and enabled. `Dispatch` requires a priority below 15, and
  `DisabledPriorityIsSilent` proves that setting priority 15 silences a line.
- **Unmasked command bits.** `PXI_sendCmd` does not mask `cmd`. Bits 16-23 that `cmd`
  already has are or-ed into the word count (`HeaderCountOverlaps`). The header then
  announces `Params(cmd)` or-ed with `words`. That is never fewer than the words that
  follow, and it is more whenever `cmd` has a bit in 16-23 that `words` lacks. The
  round-trip lemmas require those bits clear.
- **NULL handlers.** Registering a NULL handler is not excluded. It is modelled as `None`
  (a line that is enabled but reaches no handler).

## Model

| member | source | states |
|---|---|---|
| Menu.EnterNext | source/arm9/gui/menu.c:346-357 | Panics (`None`) exactly when the stack holds 8 entries. Otherwise the stack gains the current menu on top, the current menu is unchanged, the next menu is the argument, the event is STATE_CHANGE, and the slots above the new top are untouched. |
| Menu.FirstMatch | source/arm9/gui/menu.c:330-336 | Returns the smallest index in the range whose entry is the target menu. When no entry in the range matches, it returns the given default. |
| Menu.ReturnTo | source/arm9/gui/menu.c:313-344 | Returns false, with nothing changed, exactly for STATE_PREVIOUS at count <= 1. Every other call succeeds and emits STATE_CHANGE. STATE_PREVIOUS pops one entry and makes it the next menu. EXIT empties the stack. An explicit menu becomes the next menu and never grows the count; a changed count is the lowest index >= 1 holding that menu, and any such index below the top forces a cut. The current menu and the array are untouched. |
| Menu.EnterThenPrevious | source/arm9/gui/menu.c:313-357 | From a count in 1..7, entering a submenu and then returning to STATE_PREVIOUS restores the count and the live stack. The next menu is then the one that was current at the push. |
| Menu.Step | source/arm9/gui/menu.c:313-357 | A single enter or return call that completes leaves a well-formed stack (8 slots, count within 0..8). |
| Menu.Run | source/arm9/gui/menu.c:313-357 | Any sequence of enter and return calls that does not panic or hit the undefined count-8 read keeps the stack well formed (8 slots, count within 0..8). |
| Menu.RunKeepsRoot | source/arm9/gui/menu.c:317-337 | With no EXIT return in the sequence, a non-empty stack stays non-empty and its bottom entry is unchanged. |
| Menu.Act | source/arm9/gui/menu.c:417-450 | The event always ends as NONE. STATE_CHANGE copies the next menu into the current one. HOME makes MAIN the next menu, keeps the current menu and never grows the stack. If HOME shortens the stack, the new count is the lowest index >= 1 holding MAIN. If MAIN sits anywhere below the top (index >= 1), HOME does shorten it. Every other event changes nothing but the event. |
| Menu.ReplyEvent | source/arm9/gui/menu.c:376-387 | The HOME_PRESSED and HOME_HELD replies give the HOME_PRESSED event. The POWER_PRESSED reply gives the POWER_PRESSED event. Exactly the unknown reply codes give no event, which panics. |
| Menu.Drained | source/arm9/gui/menu.c:373-390 | Reads the replies in order and yields None (panic) only if there is at least one reply. A yielded event is the starting event, HOME_PRESSED or POWER_PRESSED, the only events a reply can set. |
| Menu.DrainedPanics | source/arm9/gui/menu.c:372-390 | Draining the replies panics exactly when one of them is unknown. |
| Menu.DrainedLast | source/arm9/gui/menu.c:372-390 | Without an unknown reply, the last reply alone decides the event. With no replies, the event stays NONE. |
| Menu.Resolve | source/arm9/gui/menu.c:395-408 | A pending menu change (current != next) overrides everything with STATE_CHANGE. Otherwise a card that appeared (status 0, driver active) gives SD_CARD_INSERTED and a card that vanished gives SD_CARD_REMOVED. Otherwise the drained replies decide. |
| Menu.CursorUp | source/arm9/gui/menu.c:185-189 | The cursor stays in [0, n). Up from 0 wraps to n-1; otherwise it moves up by one. |
| Menu.CursorDown | source/arm9/gui/menu.c:190-194 | The cursor stays in [0, n). Down from n-1 wraps to 0; otherwise it moves down by one. |
| Menu.UpDownInverse | source/arm9/gui/menu.c:185-194 | Up then down, and down then up, return to the same option. |
| Menu.DownTimes | source/arm9/gui/menu.c:190-194 | Any number of down presses keeps the cursor in [0, n). |
| Menu.DownTimesWraps | source/arm9/gui/menu.c:190-194 | After k <= n down presses the cursor is k options further, wrapping past the last option at most once. So n presses bring it back where it started. |
| Menu.Globals.constructor | source/arm9/gui/menu.c:76-82 | Starts with an empty back stack and no pending event. |
| Menu.Globals.EnterNextState | source/arm9/gui/menu.c:346-357 | Halts with the globals unchanged exactly when `EnterNext` panics. Otherwise the globals become `EnterNext` of the old ones, with the array written in place. |
| Menu.Globals.ReturnToState | source/arm9/gui/menu.c:313-344 | The downward scan loop leaves the result and the globals exactly as `ReturnTo` of the old globals says. |
| Menu.Globals.ActState | source/arm9/gui/menu.c:417-450 | The globals become `Act` of the old ones. |
| Menu.Globals.UpdateGlobalState | source/arm9/gui/menu.c:359-415 | The drain loop halts exactly when `Drained` panics. Otherwise it returns `Resolve` of the drained event. It writes `menu_event_state` only when that result is not NONE. |
| Menu.Globals.HandleKeys | source/arm9/gui/menu.c:185-204 | Up beats down, which beats A, which beats B. Up and down move the cursor by `CursorUp`/`CursorDown` and leave the globals alone. A enters the selected option (halting on a full stack) and resets the cursor to 0. B returns to STATE_PREVIOUS and resets the cursor only if that succeeded. No key changes nothing. |
| Pxi.HeaderCountOverlaps | source/arm9/hardware/pxi.c:58 | The count byte of the header is the count byte of `cmd` or-ed with `words`, because `cmd` is not masked. It keeps every bit of `words`, so it never announces fewer words than follow. |
| Pxi.Header | source/arm9/hardware/pxi.c:58 | Outside bits 16-23 the header equals `cmd`. When `cmd` has bits 16-23 clear, the handler-side decode `(h>>16)&0xFF` gives back `words` and `h>>24` gives back the opcode of `cmd`. |
| Pxi.Payload | source/arm9/hardware/pxi.c:55-62 | Returns the first `words` words of the buffer. A NULL buffer gives none, because the count is forced to 0. |
| Pxi.Frame | source/arm9/hardware/pxi.c:55-62 | Returns `words + 1` words (or just 1 for a NULL buffer): the header carrying the effective count, then the payload in order. |
| Pxi.WordCountHeader | source/arm9/hardware/pxi.c:43-58 | Round trip: the u8 word count placed in bits 16-23 decodes back unchanged when `cmd` leaves those bits clear. |
| Pxi.FrameAnnouncesLength | source/arm9/hardware/pxi.c:43-62 | A frame's header announces exactly the number of words that follow it and keeps the opcode of `cmd`. |
| Pxi.FrameHeader | source/arm9/hardware/pxi.c:53-62 | From a command's frame, the receiver recovers the command word, the word count and the payload. |
| Pxi.SplitFrame | source/arm9/hardware/pxi.c:53-62 | A frame at the head of a word stream splits off as exactly its own command. |
| Pxi.SplitStream | source/arm9/hardware/pxi.c:53-62 | Frames sent back to back split back into exactly the commands that were sent, in order. |
| Pxi.Channel.StartHandshake | source/arm9/hardware/pxi.c:31-34 | Writes the sync register twice: first the IRQ-enable bit, then that bit or-ed with `9<<8`. The FIFO control register gets its initial value and the send FIFO is flushed. |
| Pxi.Channel.WaitForArm11 | source/arm9/hardware/pxi.c:35 | Returns the index of the first reading whose received field is 11. Every earlier reading's received field differs from 11. |
| Pxi.Channel.Init | source/arm9/hardware/pxi.c:29-38 | Flushes the send FIFO and sets the FIFO control register. The sync register is written twice, last with the IRQ-enable bit or-ed with `9<<8`. It then spins until the first reading whose received field is 11, and only after that registers the handler. Every earlier reading's received field differs from 11. |
| Pxi.Channel.IrqHandler | source/arm9/hardware/pxi.c:40-51 | Consumes one received word. It panics, without a reply or a call to `IPC_handleCmd`, exactly when the word's count byte differs from the sync register's received field. Otherwise it pushes exactly one word, `IPC_handleCmd(cmdCode>>24, params)`. pxiIrqHandler's own code reads one word and writes one word; it writes neither the sync nor the FIFO control register. |
| Pxi.Channel.PushWords | source/arm9/hardware/pxi.c:59-62 | Appends the first `count` buffer words to the send FIFO, in order. |
| Pxi.Channel.PushFrame | source/arm9/hardware/pxi.c:55-62 | Appends exactly the frame (header with the effective count, then the payload) to the send FIFO and returns the effective count. |
| Pxi.Channel.SendCmd | source/arm9/hardware/pxi.c:53-68 | Appends exactly the frame (header, then payload) to the send FIFO. The sync register is then written exactly once, with `PXI_DATA_SENT(sync, words)` or-ed with `PXI_NOTIFY_11`, after every word of the frame. The call returns the head of the receive FIFO and removes only that word. The FIFO control register is not written. |
| Interrupt.SavedState | include/arm11/hardware/interrupt.h:115-121 | The token is 0 or 0x80, and it is 0x80 exactly when interrupts were masked. |
| Interrupt.Masked | include/arm11/hardware/interrupt.h:118-119 | After `cpsid i`, bit 7 is set and every other bit is unchanged. |
| Interrupt.Restored | include/arm11/hardware/interrupt.h:123-128 | Bits 8-31 are never touched. With a token in {0, 0x80}, bit 7 becomes the token and every other bit is kept. |
| Interrupt.LeaveAfterEnterRestores | include/arm11/hardware/interrupt.h:115-128 | `leaveCriticalSection(enterCriticalSection())` restores the CPSR exactly. |
| Interrupt.LeaveZeroEnables | include/arm11/hardware/interrupt.h:123-128 | Leaving with token 0 unmasks interrupts and keeps every other bit. |
| Interrupt.NestedRestores | include/arm11/hardware/interrupt.h:115-128 | Critical sections nested to any depth and released in stack order restore the outermost CPSR. |
| Interrupt.InnerLeaveStaysMasked | include/arm11/hardware/interrupt.h:115-128 | Every inner leave returns with interrupts still masked. |
| Interrupt.Core.EnterCriticalSection | include/arm11/hardware/interrupt.h:115-121 | Returns `SavedState` of the old CPSR and leaves the CPSR at `Masked` of it. |
| Interrupt.Core.LeaveCriticalSection | include/arm11/hardware/interrupt.h:123-128 | Leaves the CPSR at `Restored` of the old CPSR and the token. |
| Interrupt.IntSource | include/arm11/hardware/interrupt.h:63-66 | Unpacking recovers the ID from bits 0-9 and the CPU from bits 10-12. The CPU field is 0 for IDs >= 16, and nothing is set above bit 12. |
| Interrupt.InitialTable | include/arm11/hardware/interrupt.h:70-73 | All 128 lines start with no handler, disabled, at priority 15. |
| Interrupt.Register | include/arm11/hardware/interrupt.h:75-84 | For ID < 128 and priority <= 15, installs the handler, priority, mask and trigger, and enables the line. Every other line is unchanged. |
| Interrupt.Unregister | include/arm11/hardware/interrupt.h:86-91 | For ID < 128, clears the handler and disables the line. The line's other settings and every other line are unchanged. |
| Interrupt.SetPriority | include/arm11/hardware/interrupt.h:93-99 | For ID < 128 and priority <= 15, changes only that line's priority. |
| Interrupt.Targets | include/arm11/hardware/interrupt.h:101-107 | Core c (0-3) is selected exactly when bit c of the CPU mask is set. |
| Interrupt.Dispatch | include/arm11/hardware/interrupt.h:63-99 | A line reaches a handler exactly when it is enabled, has one and has a priority below 15 (15 = disabled). That handler receives an intSource that decodes to the line and to the source CPU (0 above ID 15). |
| Interrupt.NoStaleHandler | include/arm11/hardware/interrupt.h:75-91 | After unregister then register, the line reaches a handler exactly when the new priority is below 15, and then only the new handler. |
| Interrupt.UnregisteredIsSilent | include/arm11/hardware/interrupt.h:86-91 | An unregistered line reaches no handler. |
| Interrupt.PriorityKeepsRegistration | include/arm11/hardware/interrupt.h:93-99 | A priority change after registration keeps the handler, mask, trigger and enablement. The line then reaches the registered handler exactly when the new priority is below 15. |
| Interrupt.DisabledPriorityIsSilent | include/arm11/hardware/interrupt.h:93-99 | Setting a line's priority to 15 makes it reach no handler. |
| Interrupt.Distributor.constructor | include/arm11/hardware/interrupt.h:70-73 | After `IRQ_init`, the table is `InitialTable` and nothing is pending. |
| Interrupt.Distributor.RegisterHandler | include/arm11/hardware/interrupt.h:75-84 | The table becomes `Register` of the old one. Pending interrupts are unchanged. |
| Interrupt.Distributor.UnregisterHandler | include/arm11/hardware/interrupt.h:86-91 | The table becomes `Unregister` of the old one. Pending interrupts are unchanged. |
| Interrupt.Distributor.SetLinePriority | include/arm11/hardware/interrupt.h:93-99 | The table becomes `SetPriority` of the old one. Pending interrupts are unchanged. |
| Interrupt.Distributor.SoftwareInterrupt | include/arm11/hardware/interrupt.h:101-107 | For ID < 16 and a mask within 4 bits, adds one pending interrupt per selected core. The table is unchanged. |

## Left out

- Screen output, input scanning, the NAND/firmware/options/update/credits branches of `enter_menu` and `menuRunOnce`: these are user interface and storage I/O. Only the key handling of the MAIN/NAND menus (menu.c:185-204) is modelled.
- `menuSetVBlank`, `waitForInterrupt`, `menuWaitForAnyPadkey`: these are timer and IRQ plumbing (with a floating-point timer frequency) and a wait loop.
- The power-off, SD mount/unmount, NAND remount and config-load effects inside `menuActState`: these are hardware and file-system operations. On the menu globals those events only clear the event.
- `Menu.Act`: the update of `bootInfo.sd_status` on SD events is not modelled. `Resolve` takes the recorded status and the driver's report as inputs.
- `PXI_tryRecvWord` and `dev_sdcard->is_active()`: the words they deliver and the card presence are inputs to `Menu.Globals.UpdateGlobalState`.
- Menu states and reply codes: the menu-state enumeration and the reply codes are defined outside these files. They are datatypes here, with `STATE_PREVIOUS` and `EXIT` as distinct members and an unknown reply carrying its code.
- `Menu.ReturnTo` and `Menu.Globals.ReturnToState`: the explicit-target branch at `count == 8` reads past the array. That behaviour is undefined and is excluded by a precondition rather than modelled.
- `Menu.Act` and `Menu.Globals.ActState`: a pending HOME event takes that same branch, so they carry the same `count < 8` precondition for HOME.
- The busy-waits on `PXI_SEND_FIFO_FULL` and `PXI_RECV_FIFO_EMPTY` (pxi.c:57, 66) are hardware timing.
  - The send FIFO is unbounded in the model.
  - `PXI_sendCmd` waits for FIFO space only before the header. It then pushes up to 255 payload words without waiting, so a long payload could overrun the hardware FIFO; the model does not capture that.
  - The reply wait becomes the precondition that a reply word is waiting.
- The spin in `PXI_init` (pxi.c:35) is a loop over the successive sync-register readings, which are an input.
- `Pxi.Channel.IrqHandler`: `IPC_handleCmd` is a pure function of the opcode and the count. Its reads of the announced payload words from `REG_PXI_RECV9`, and any register writes it makes, are not modelled, so after the handler those payload words stay at the head of the modelled receive FIFO. The sync interrupt is assumed to arrive with the header word already in the receive FIFO (a non-empty FIFO is a precondition), because the peer pushes its frame before it writes sync.
- `PXI_DATA_SENT`, `PXI_DATA_RECEIVED`, the register bit constants and `IPC_handleCmd` are defined outside these files. They are uninterpreted, so the modulo-16 handshake counter they implement is not modelled.
- The ARM11 side of PXI, interrupt delivery, preemption and reentrancy are concurrency. The model is sequential.
- The GIC register programming behind `IRQ_init` and the distributor calls is not part of this model; only the documented contracts are.
  - `Interrupt.InitialTable` assumes every line starts disabled at priority 15, because the header only says that `IRQ_init` initialises the controller.
  - The "0 means current CPU" reading of a register mask is kept as a raw mask value.
- `Interrupt.Register`: registering a NULL handler is accepted (as `None`), because nothing in the header forbids it.
- The fatal stop on an out-of-range ID or priority is a precondition here, because the header states these ranges as caller obligations.
- `__wfi` has no effect on the modelled state.
- `include/arm9/console.h` and `source/arm9/hardware/hardware.c` are not part of this model. `hardware.c` includes the ARM9 `arm9/hardware/interrupt.h`, not the ARM11 header modelled here. Its `leaveCriticalSection(0)` is assumed to behave like the ARM11 one, which `Interrupt.LeaveZeroEnables` covers.
