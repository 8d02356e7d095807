# LibVMI KVM driver: a verified model of its control logic

This project models the decision and sequencing logic of LibVMI's KVM driver
(`libvmi/driver/kvm/kvm.c`). The driver sits between the generic LibVMI
introspection layer and the KVMI introspection channel of a KVM guest. It:

- pauses and resumes the guest with a counter of expected pause events;
- runs the event listener, which waits for an event, pops it, dispatches it
  through a handler table and sends a continue reply;
- delivers interrupt and page-fault events to the watchers of the generic
  layer;
- switches register, interrupt and page-access monitoring on every VCPU, with
  a rollback pass when one VCPU refuses;
- translates register names, reads and writes single registers, and does the
  small address arithmetic (frame number, page offset, kilobytes to bytes).

Every call into libkvmi is a call on an abstract transport (`Transport.Kvmi`).
The transport keeps, per VCPU, the enabled events, the intercepted control
registers and MSRs, the page-access masks and the register state. It also
keeps the FIFO of pending events, the replies sent and a log of every call
that changes its state, waits, pops or replies. The reads (of a page's
access mask, of a VCPU's registers, of the VCPU count) are not logged; they
change nothing, and whether they are refused is still decided by `failing`.
Which calls fail is fixed by `failing`, a set of calls (with their arguments)
that the transport refuses for its whole lifetime. A call with given arguments
is therefore accepted every time or refused every time; the failure paths
this rules out are listed under "## Left out". Each driver operation is
proved against a pure function that lists the calls it makes and what they
leave in the transport's tables.

The modules:

| module | file | contents |
|---|---|---|
| `KvmTypes` | kvm_types.dfy | statuses, registers, events, replies, and the KVMI and LibVMI constants |
| `Registers` | registers.dfy | the MSR table, single-register read selection, single-GPR write |
| `Paging` | paging.dfy | frame number and offset, 64-bit left shift, kilobytes to bytes |
| `Access` | access.dfy | page-fault access image, generic-to-native page-access conversion |
| `Transport` | transport.dfy | the abstract libkvmi connection (class `Kvmi`) and `Replay` of its calls |
| `ControlSpec` | control_spec.dfy | the per-VCPU control loops and the three monitoring operations as functions |
| `EventSpec` | event_spec.dfy | handler table, watcher tables, handlers, one listener round, the resume loop |
| `Driver` | driver.dfy | class `KvmDriver`, the driver instance, whose methods are proved against the above |

The model follows the `ENABLE_SAFETY_CHECKS` build. In that build
`process_interrupt` fails when no INT3 watcher is registered, and
`kvm_events_listen` refuses an event with no installed handler.

Constant values that `kvm.c` uses but does not define come from the KVMI and
LibVMI headers. They are written once in `KvmTypes`:

- KVMI event ids: CR = 1, MSR = 2, BREAKPOINT = 4, PF = 6, PAUSE_VCPU = 10,
  and the number of events is 12. Each event's flag is `1 << id`.
- The continue action is 0.
- KVMI page access bits: R = 1, W = 2, X = 4.
- LibVMI memory-access values: INVALID = 0, N = 1, R = 2, W = 4, X = 8,
  RW = 6, RX = 10, WX = 12, RWX = 14.
- `VMI_INIT_EVENTS` is `1 << 2`.

A page-access mask the transport was never told about reads as R|W|X.

## Model

| member | source | states |
|---|---|---|
| Registers.TranslateMsrIndex | libvmi/driver/kvm/kvm.c:59-105 | `err` is 0 exactly for an MSR name and 1 for anything else; a non-MSR register gives index 0; a successful index reads back to the same MSR name |
| Registers.MsrIndexRoundTrip | libvmi/driver/kvm/kvm.c:61-100 | reading the 39-entry MSR table backwards after forwards gives the name back |
| Registers.MsrNameOfSound | libvmi/driver/kvm/kvm.c:61-100 | every index the reverse reading accepts is the table's address for that name |
| Registers.MsrIndexInjective | libvmi/driver/kvm/kvm.c:61-100 | no two MSR names share an address, so a successful translation identifies the register |
| Registers.ZeroIndexIsAmbiguous | libvmi/driver/kvm/kvm.c:89-103 | MSR_IA32_P5_MC_ADDR and an unknown register both return index 0; only `err` tells them apart |
| Registers.SingleReadMsrs | libvmi/driver/kvm/kvm.c:476-478 | the two MSRs fetched with the registers are EFER (entry 0) and STAR (entry 1) |
| Registers.ReadRegisterDomain | libvmi/driver/kvm/kvm.c:488-571 | a single-register read succeeds exactly for the 18 GPRs, CR0/2/3/4, FS and GS base, EFER and STAR |
| Registers.WriteGpr | libvmi/driver/kvm/kvm.c:959-1016 | the register write succeeds exactly for a general-purpose register |
| Registers.WriteThenRead | libvmi/driver/kvm/kvm.c:959-1016 | after writing GPR `g`, `g` reads as the value written and every other register reads as before |
| Driver.SetVcpuRegReadsBack | libvmi/driver/kvm/kvm.c:938-1069 | kvm_set_vcpureg followed by kvm_get_vcpureg: the written GPR reads back and every other register is unchanged |
| Paging.Gfn | libvmi/driver/kvm/kvm.c:263 | the frame number is the page whose byte range contains the address |
| Paging.PageOffset | libvmi/driver/kvm/kvm.c:278 | the offset is below the page size and frame * 4096 + offset is the address |
| Paging.ShiftLeftAligned | libvmi/driver/kvm/kvm.c:1076 | `page << page_shift` in 64 bits always starts a page, even when high bits are lost |
| Paging.ShiftLeftRoundTrip | libvmi/driver/kvm/kvm.c:1076 | a frame number below 2^(64 - shift) survives the shift and divides back to itself |
| Paging.FrameAddressRoundTrip | libvmi/driver/kvm/kvm.c:1474 | `gpfn << 12` has frame number `gpfn` and offset 0 when it does not overflow |
| Paging.KbToBytesExact | libvmi/driver/kvm/kvm.c:835-836 | the 64-bit byte count is always a whole number of kilobytes and is exact below 2^54 KB |
| Paging.GetMemsize | libvmi/driver/kvm/kvm.c:816-837 | the report succeeds exactly when the domain query does; both outputs are equal and are maxMem * 1024 when that fits |
| Access.OutAccess | libvmi/driver/kvm/kvm.c:257-260 | the observed access has R, W and X set exactly when the fault mode has native R, W and X, and no other bit |
| Access.NativeAccess | libvmi/driver/kvm/kvm.c:1445-1470 | a native mask is produced exactly for N, R, W, X, RW, WX and RWX; N and RWX both give 0 |
| Access.NativeAccessMasksNamedBits | libvmi/driver/kvm/kvm.c:1449-1463 | for R, W, X, RW and WX the mask is the original with exactly the named native bits cleared |
| Access.NativeAccessClearsNamedBits | libvmi/driver/kvm/kvm.c:1449-1463 | for those requests a native permission bit survives iff it was set and not named; bits outside R/W/X are kept |
| Access.NoneAndAllCoincide | libvmi/driver/kvm/kvm.c:1446-1466 | VMI_MEMACCESS_N and VMI_MEMACCESS_RWX install the same mask, 0 |
| Access.ReadExecuteRejected | libvmi/driver/kvm/kvm.c:1445-1470 | RX has no case and is rejected |
| ControlSpec.UntilRefused | libvmi/driver/kvm/kvm.c:1315-1329 | one VCPU's calls stop at the first refused one: a prefix whose last call is refused and whose earlier calls are accepted |
| ControlSpec.FirstRefused | libvmi/driver/kvm/kvm.c:1314-1330 | the VCPU loop stops at the first VCPU whose step is refused; every earlier VCPU was accepted |
| ControlSpec.VcpuLoop | libvmi/driver/kvm/kvm.c:1314-1345 | a per-VCPU loop completes iff every VCPU's step is accepted, and then makes exactly the step calls; every call is a control call on a VCPU below `n` |
| ControlSpec.VcpuLoopStopsAt | libvmi/driver/kvm/kvm.c:1314-1345 | a loop refused first at VCPU `k` makes the calls up to the refusal, then the undo calls on every VCPU |
| ControlSpec.VcpuLoopCompletes | libvmi/driver/kvm/kvm.c:1314-1334 | a loop whose steps are all accepted makes exactly the step calls |
| ControlSpec.VcpuLoopEffect | libvmi/driver/kvm/kvm.c:1314-1345 | after a loop, VCPUs from `n` on are untouched; on completion each VCPU below `n` holds the step's effect; after a refusal with accepted undo calls each holds the undo's effect |
| ControlSpec.RegRequestFor | libvmi/driver/kvm/kvm.c:1274-1311 | a request exists exactly for CR0/CR3/CR4/MSR_STAR with access N or W; it enables iff W, uses the CR or MSR event kind, and names CR0, CR3 and CR4 as 0, 3 and 4 and STAR by its MSR address |
| ControlSpec.SetRegAccess | libvmi/driver/kvm/kvm.c:1255-1346 | an unsupported register or access fails with no call; otherwise success iff every VCPU accepted both its events call and its intercept call |
| ControlSpec.SetRegAccessEffect | libvmi/driver/kvm/kvm.c:1314-1345 | on success every VCPU enables exactly the register's event kind and intercepts the register as requested, with every other intercept and every page mask unchanged; after a failure with accepted undo calls no VCPU has events or intercepts the register; VCPUs past `n` are untouched |
| ControlSpec.RegReadsRejected | libvmi/driver/kvm/kvm.c:1304-1307 | R and RW register accesses fail before any call |
| ControlSpec.SetIntrAccess | libvmi/driver/kvm/kvm.c:1348-1395 | an interrupt other than INT3 fails with no call; INT3 succeeds iff every VCPU accepts the events call |
| ControlSpec.SetIntrAccessEffect | libvmi/driver/kvm/kvm.c:1371-1393 | on success every VCPU's event set is exactly the breakpoint flag (or empty when disabling), other events included; after a failure with accepted undo calls every VCPU has no events |
| ControlSpec.SetMemAccess | libvmi/driver/kvm/kvm.c:1397-1489 | the latch is set iff it was set or arming completed; failed arming fails with the latch clear; the call succeeds iff the latch ends set, VCPU 0's mask is read and the request is supported, even when the apply loop was rolled back |
| ControlSpec.ArmPageFaultsEffect | libvmi/driver/kvm/kvm.c:1422-1438 | arming sets exactly the page-fault flag on every VCPU, or after a refusal with accepted disabling calls leaves every VCPU with no events |
| ControlSpec.LatchedCallsSetAccessOnly | libvmi/driver/kvm/kvm.c:1422-1488 | once the latch is set, kvm_set_mem_access only sets page access and never arms again |
| ControlSpec.SetMemAccessApplies | libvmi/driver/kvm/kvm.c:1441-1488 | the success path is the arming calls followed by the apply loop that writes the new mask and restores the original one |
| ControlSpec.SetMemAccessEffect | libvmi/driver/kvm/kvm.c:1441-1488 | with the latch set and a supported request the call succeeds and makes only the apply loop's calls, with the outcome `ApplyAccessEffect` states for VCPU 0's original mask |
| ControlSpec.SetMemAccessArmsThenApplies | libvmi/driver/kvm/kvm.c:1417-1488 | the first call with every VCPU armed succeeds and latches; each VCPU below `n` then has exactly the page-fault event; the original mask is VCPU 0's mask before the call; the tables are the apply loop's outcome on the armed tables |
| ControlSpec.ApplyAccessEffect | libvmi/driver/kvm/kvm.c:1473-1486 | the apply loop touches no event flags, no intercepts, no mask at another address and no VCPU from `n` on; with every write accepted every VCPU below `n` holds the new mask at `gpfn << 12`; after a refused write with accepted restores each holds VCPU 0's original mask there |
| ControlSpec.UnsupportedRequestSetsNothing | libvmi/driver/kvm/kvm.c:1467-1469 | an unsupported request fails without any page-access call |
| EventSpec.DispatchTableShape | libvmi/driver/kvm/kvm.c:663-669 | every installed handler has an id below the number of events and gets only events of its own kind; MSR events have no handler |
| EventSpec.InterruptDelivery | libvmi/driver/kvm/kvm.c:224-236 | the INT3 watcher gets the event's VCPU and registers, the frame containing the breakpoint address, CR2, the RIP page offset, RIP as address, and reinject -1 |
| EventSpec.MemDelivery | libvmi/driver/kvm/kvm.c:270-278 | a memory watcher gets the event's VCPU and registers, the observed access, the fault's virtual address and the page offset of its physical address |
| EventSpec.GenericDeliveries | libvmi/driver/kvm/kvm.c:286-311 | the generic walk makes at most as many callbacks as there are watchers, and some callback iff some key meets the observed access |
| EventSpec.MatchIndices | libvmi/driver/kvm/kvm.c:292-293 | the positions of the generic table whose key meets the observed access: strictly increasing, and a position is listed iff its key meets it |
| EventSpec.GenericDeliveriesFollowMatches | libvmi/driver/kvm/kvm.c:286-311 | the j-th callback of the walk goes to the watcher at the j-th matching position: every matching watcher is called, once, in table order, and no other |
| EventSpec.EveryMatchFires | libvmi/driver/kvm/kvm.c:292-307 | every generic watcher whose key meets the observed access is called |
| EventSpec.GenericDeliveriesData | libvmi/driver/kvm/kvm.c:292-308 | every generic watcher called gets the same access, address and offset |
| EventSpec.PagefaultDeliveries | libvmi/driver/kvm/kvm.c:264-311 | a frame watcher whose accesses meet the observed access is the one and only callback; otherwise the callbacks are exactly those of the generic walk, some iff some key meets the access |
| EventSpec.PagefaultDeliveriesData | libvmi/driver/kvm/kvm.c:257-301 | every watcher called for a fault is told the fault's access image |
| EventSpec.AccessFreeFaultReachesNoWatcher | libvmi/driver/kvm/kvm.c:257-315 | a fault whose mode names no R, W or X reaches no watcher |
| EventSpec.Handle | libvmi/driver/kvm/kvm.c:195-333 | a register event succeeds with no callback; a pause event fails; an interrupt succeeds iff an INT3 watcher exists and then calls it once; a page fault succeeds iff some watcher was called |
| EventSpec.Listen | libvmi/driver/kvm/kvm.c:1198-1252 | a listener round waits first; it pops the oldest event iff the wait and pop are accepted; it succeeds iff the wait is accepted and either nothing is pending or a reply was sent; a handled event whose handler succeeds and whose reply is accepted gets the continue reply with its seq and id and the round succeeds, and a reply follows nothing else; a handled event is freed iff the round fails; an event with no handler fails without callbacks and is not freed |
| EventSpec.ListenRejectsPauseEvents | libvmi/driver/kvm/kvm.c:319-333 | a pause event reaching the listener fails it without a reply, and the event is freed |
| EventSpec.ListenWithoutHandlers | libvmi/driver/kvm/kvm.c:1232-1236 | without event support every popped event fails the listener and is not freed |
| EventSpec.Acks | libvmi/driver/kvm/kvm.c:108-119 | the replies of a run of pause events: one continue reply per event, carrying its seq |
| EventSpec.Drain | libvmi/driver/kvm/kvm.c:1151-1195 | the resume loop never raises the count; with count 0 it succeeds with no call; success leaves the count at 0; it only waits, pops and replies |
| EventSpec.DrainCountsPauseEvents | libvmi/driver/kvm/kvm.c:1159-1192 | the count drops by exactly the number of pause events popped, one whose reply was refused included |
| EventSpec.DrainConsumesPrefix | libvmi/driver/kvm/kvm.c:1159-1192 | resume consumes and frees a prefix of the pending events, at most `count`; the acknowledged ones are pause events acknowledged in order; success consumes and acknowledges exactly `count` pause events |
| EventSpec.DrainSucceedsOnPauseEvents | libvmi/driver/kvm/kvm.c:1159-1192 | when the first `count` events are pause events and nothing is refused, resume succeeds, acknowledges and frees exactly them and leaves the rest pending |
| EventSpec.ReplyFailureStillCounts | libvmi/driver/kvm/kvm.c:1176-1182 | the count is lowered before the reply: a refused reply to the last pause event fails resume with the count already 0, so the next resume succeeds at once |
| EventSpec.DrainFailsOnOtherEvent | libvmi/driver/kvm/kvm.c:1186-1190 | any other event among the expected ones makes resume fail |
| Driver.ReplyContinue | libvmi/driver/kvm/kvm.c:108-119 | the reply succeeds iff the transport accepts it, and then records a continue reply with the event's seq and id |
| Driver.RunVcpuLoop | libvmi/driver/kvm/kvm.c:1314-1345 | the step-then-undo loop makes exactly the calls of `VcpuLoop`, and the tables are their replay |
| Driver.SetMemAccessOn | libvmi/driver/kvm/kvm.c:1417-1488 | kvm_set_mem_access on a connected transport returns the status and latch of `ControlSpec.SetMemAccess`, makes its calls, and leaves the tables as their replay |
| Driver.DrainPauseEvents | libvmi/driver/kvm/kvm.c:1159-1192 | the resume loop returns the status, count, pending events, replies, freed events and calls of `EventSpec.Drain` |
| Driver.PauseThenResume | libvmi/driver/kvm/kvm.c:1131-1195 | pausing and then resuming with no other events queued acknowledges every pause event in order, frees each one, and returns the count to 0 |
| Driver.LaterInstanceNeverArms | libvmi/driver/kvm/kvm.c:1410-1438 | an instance whose process-wide latch was set by another instance never arms its own domain for page faults: every call it logs sets page access, and the latch stays set |
| Driver.KvmDriver.constructor | libvmi/driver/kvm/kvm.c:579-600 | a fresh instance is not connected, has no handlers and no expected pause events, and shares the process-wide page-fault latch unchanged, whatever an earlier instance left in it |
| Driver.KvmDriver.InitVmi | libvmi/driver/kvm/kvm.c:603-672 | initialisation succeeds iff the first init entry is a KVMI socket, the domain is found, the version query works, the connection arrives and the VCPU count is read; the handler table is installed iff it succeeds with VMI_INIT_EVENTS |
| Driver.KvmDriver.CallEventCallback | libvmi/driver/kvm/kvm.c:180-188 | the callback runs with the in-callback flag set, and the flag is clear afterwards |
| Driver.KvmDriver.ProcessInterruptEvent | libvmi/driver/kvm/kvm.c:206-245 | the interrupt handler's status and callbacks are those of `EventSpec.Handle` |
| Driver.KvmDriver.ProcessPagefaultEvent | libvmi/driver/kvm/kvm.c:248-316 | the page-fault handler's status and callbacks are those of `EventSpec.Handle` |
| Driver.KvmDriver.NotifyGenericWatchers | libvmi/driver/kvm/kvm.c:286-310 | the walk makes exactly the callbacks of `GenericDeliveries`, and reports a callback iff it made one |
| Driver.KvmDriver.Dispatch | libvmi/driver/kvm/kvm.c:1239 | the call through the handler table has the status and callbacks of `EventSpec.Handle` |
| Driver.KvmDriver.EventsListen | libvmi/driver/kvm/kvm.c:1198-1252 | one listener round returns the status, callbacks, freed events, pop, reply and calls of `EventSpec.Listen` and changes nothing else; without a connection it fails |
| Driver.KvmDriver.HandleAndAck | libvmi/driver/kvm/kvm.c:1238-1250 | the handler's callbacks are made; the event is acknowledged with a continue reply iff the handler succeeded, and the reply is sent only then; it succeeds iff both did, and the event is freed iff it failed |
| Driver.KvmDriver.PauseVm | libvmi/driver/kvm/kvm.c:1131-1149 | with pause events already expected it succeeds and changes nothing; otherwise it succeeds iff the transport pauses every VCPU, and then expects one pause event per VCPU |
| Driver.KvmDriver.ResumeVm | libvmi/driver/kvm/kvm.c:1151-1195 | resume returns the status, count, pending events, replies, freed events and calls of `EventSpec.Drain` |
| Driver.KvmDriver.SetRegAccess | libvmi/driver/kvm/kvm.c:1255-1346 | the calls and status are those of `ControlSpec.SetRegAccess` and the tables are their replay; nothing else changes; without a connection it fails |
| Driver.KvmDriver.SetIntrAccess | libvmi/driver/kvm/kvm.c:1348-1395 | the calls and status are those of `ControlSpec.SetIntrAccess` and the tables are their replay; nothing else changes; without a connection it fails |
| Driver.KvmDriver.SetMemAccess | libvmi/driver/kvm/kvm.c:1397-1489 | status, shared latch, calls and tables are those of `ControlSpec.SetMemAccess` on the latch as the process left it; nothing else changes; without a connection it fails and the latch is kept |
| Driver.KvmDriver.GetVcpuReg | libvmi/driver/kvm/kvm.c:1059-1069 | the read succeeds iff VCPU 0 exists, its registers are fetched and the register is readable, whatever VCPU is asked for; the value is VCPU 0's register |
| Driver.KvmDriver.SetVcpuReg | libvmi/driver/kvm/kvm.c:938-1022 | the write succeeds iff the registers are fetched, the register is a GPR and the write-back is accepted; on success only that GPR of that VCPU changes; a non-GPR makes no write-back call |

## Left out

- libkvmi and libvirt are not part of this model. They stand behind the abstract transport, which models each call's effect and refuses the calls named in `failing`.
- libvirt plumbing (`kvm_init`'s connection, domain id and name lookups, `kvm_test`, `kvm_destroy`) is left out: these are foreign calls with no logic of their own. The domain lookup and the version query of `kvm_init_vmi` are boolean parameters of `InitVmi`.
- The threaded connection handoff of `init_kvmi` and `cb_kvmi_connect`, with its wall-clock timeout, is left out. The connection that arrives in time is a parameter of `InitVmi`, which is only modelled on an instance that was never connected.
- Guest memory I/O and the memory cache (`kvm_get_memory_kvmi`, `kvm_put_memory`, `kvm_release_memory`, `kvm_write`, `kvm_request_page_fault`, `kvm_read_page`'s cache insert) are left out; only the address arithmetic of `kvm_read_page` is modelled. `kvm_setup_live_mode` is taken to succeed.
- Field-by-field record copies (`fill_ev_common_kvmi_to_libvmi`, `kvm_get_vcpuregs`, `kvm_set_vcpuregs`) are modelled as whole-record copies into a delivery.
- The `x86_regs` field, which the handlers leave referring to a stack record that no longer exists, is not modelled; a delivery holds the copied registers by value.
- Logging is left out. The order of the generic watcher table's walk is taken as a sequence, since the hash table's order is not specified.
- User callback code is left out. A callback is recorded as a delivery, and callbacks do not change the watcher tables.
- Real time is left out. A wait on an empty queue times out, and the resume loop's 1000 ms wait is a constant.
- Driver.KvmDriver.PauseVm: requires a connection, because the source passes a null handle straight to libkvmi. The count left after a refused pause request is taken as 0; the source leaves it to libkvmi.
- Driver.KvmDriver.ResumeVm: requires a connection, for the same reason.
- Driver.KvmDriver.SetVcpuReg and GetVcpuReg: the transport answers for the requested VCPU only when it exists; a VCPU number past the count is a refused call.
- The undo calls of a rolled-back loop are modelled with their errors ignored. The lemmas about their effect take the transport to accept them, because the source ignores their errors.
- N and RWX both install a native mask of 0, which denies every access. The original mask is read at address `gpfn` but the new one is written at `gpfn << 12`. MSR events have no handler. Enabling INT3 monitoring overwrites every other event flag of each VCPU. A rollback writes VCPU 0's original mask to every VCPU. All five are modelled as written.
- Transport.Kvmi: a call refused or accepted once is refused or accepted every time with the same arguments, because `failing` is a fixed set. A transport that fails intermittently is not modelled, and three failure paths are therefore unreachable:
  - a pop in `kvm_resume_vm` refused after an earlier pop in the same loop was accepted, which leaves the count partly lowered;
  - `kvm_set_intr_access(INT3, false)` with a refused step but an accepted undo, since both are the same call; the failure clause of `ControlSpec.SetIntrAccessEffect` is empty there;
  - `kvm_set_reg_access` with access N and a refused step but an accepted undo, since both are the same CR or MSR call; the failure clause of `ControlSpec.SetRegAccessEffect` is empty there.
- `translate_msr_index` has 39 named cases, and the model has all 39.
