/**
 * The ARM11 interrupt interface: the critical-section primitive on the CPSR,
 * the packing of the `intSource` word passed to handlers, and the per-line
 * table that the distributor's register / unregister / priority calls edit.
 * Only the documented contracts are modelled; the GIC register programming
 * behind them is not part of this model.
 */
module Interrupt {
  import opened Wrappers

  // ---------------------------------------------------------------------------
  // Critical sections: read-modify-write of the CPSR I bit (bit 7)
  // ---------------------------------------------------------------------------

  /** The CPSR's IRQ-disable bit. */
  const IrqBit: bv32 := 0x80

  /** `msr cpsr_c` writes the control field only: bits 0-7. */
  const ControlField: bv32 := 0xFF

  /** What `enterCriticalSection` returns: the prior I bit and nothing else. */
  function SavedState(cpsr: bv32): (token: bv32)
    ensures token == 0 || token == IrqBit
    ensures token == IrqBit <==> cpsr & IrqBit != 0
  {
    cpsr & IrqBit
  }

  /** The CPSR after `cpsid i`: interrupts masked, every other bit kept. */
  function Masked(cpsr: bv32): (r: bv32)
    ensures r & IrqBit == IrqBit
    ensures r & !IrqBit == cpsr & !IrqBit
  {
    cpsr | IrqBit
  }

  /**
   * The CPSR after `leaveCriticalSection(oldState)`: the value
   * `(cpsr & ~0x80) | oldState` goes through `msr cpsr_c`, so only its low
   * byte lands in the register.
   */
  function Restored(cpsr: bv32, oldState: bv32): (r: bv32)
    ensures r & !ControlField == cpsr & !ControlField
    ensures oldState & !IrqBit == 0 ==> r & IrqBit == oldState && r & !IrqBit == cpsr & !IrqBit
  {
    (cpsr & !ControlField) | (((cpsr & !IrqBit) | oldState) & ControlField)
  }

  /** `leaveCriticalSection(enterCriticalSection())` puts back the exact CPSR. */
  lemma LeaveAfterEnterRestores(cpsr: bv32)
    ensures Restored(Masked(cpsr), SavedState(cpsr)) == cpsr
  {
  }

  /** `leaveCriticalSection(0)`, as done once at the end of hardware init, unmasks interrupts. */
  lemma LeaveZeroEnables(cpsr: bv32)
    ensures Restored(cpsr, 0) & IrqBit == 0
    ensures Restored(cpsr, 0) & !IrqBit == cpsr & !IrqBit
  {
  }

  /**
   * The CPSR after `depth` critical sections nested in stack order: enter,
   * run the inner sections, then leave with the token of this level.
   */
  function Nested(cpsr: bv32, depth: nat): bv32
    decreases depth
  {
    if depth == 0 then cpsr
    else Restored(Nested(Masked(cpsr), depth - 1), SavedState(cpsr))
  }

  /** Any nesting depth, released in stack order, ends in the outermost CPSR. */
  lemma {:induction false} NestedRestores(cpsr: bv32, depth: nat)
    ensures Nested(cpsr, depth) == cpsr
    decreases depth
  {
    if depth > 0 {
      NestedRestores(Masked(cpsr), depth - 1);
      LeaveAfterEnterRestores(cpsr);
    }
  }

  /** Every level below the outermost leaves interrupts masked when it returns. */
  lemma {:induction false} InnerLeaveStaysMasked(cpsr: bv32, depth: nat)
    requires depth >= 1
    ensures Nested(Masked(cpsr), depth) & IrqBit == IrqBit
  {
    NestedRestores(Masked(cpsr), depth);
  }

  /** The calling core's processor state, of which only the CPSR matters here. */
  class Core {
    var cpsr: bv32

    constructor (initial: bv32)
      ensures cpsr == initial
    {
      cpsr := initial;
    }

    /** `enterCriticalSection`: `mrs` then `cpsid i`; returns only bit 7 of the old CPSR. */
    method EnterCriticalSection() returns (token: bv32)
      modifies this
      ensures token == SavedState(old(cpsr))
      ensures cpsr == Masked(old(cpsr))
    {
      token := SavedState(cpsr);
      cpsr := Masked(cpsr);
    }

    /** `leaveCriticalSection`: `mrs`, clear bit 7, or in the token, `msr cpsr_c`. */
    method LeaveCriticalSection(oldState: bv32)
      modifies this
      ensures cpsr == Restored(old(cpsr), oldState)
    {
      var tmp := cpsr;
      var written := (tmp & !IrqBit) | oldState;
      var control := (tmp & !ControlField) | (written & ControlField);
      assert control == Restored(tmp, oldState);
      cpsr := control;
    }
  }

  // ---------------------------------------------------------------------------
  // The intSource word handed to an IrqHandler
  // ---------------------------------------------------------------------------

  /** Interrupt IDs below this are the software interrupts SW0-SW15. */
  const SoftwareIds: bv32 := 16

  /** Bits 0-9 of intSource: the interrupt ID. */
  function SourceId(intSource: bv32): bv32
  {
    intSource & 0x3FF
  }

  /** Bits 10-12 of intSource: the CPU that raised a software interrupt. */
  function SourceCpu(intSource: bv32): bv32
  {
    (intSource >> 10) & 0x7
  }

  /**
   * The intSource word for interrupt `id` raised by core `cpu`: the CPU
   * field is filled in for IDs 0-15 only, and is 0 for every other line.
   */
  function IntSource(id: bv32, cpu: bv32): (s: bv32)
    requires id < 0x400 && cpu < 8
    ensures SourceId(s) == id
    ensures SourceCpu(s) == if id < SoftwareIds then cpu else 0
    ensures s < 0x2000
  {
    if id < SoftwareIds then id | (cpu << 10) else id
  }

  // ---------------------------------------------------------------------------
  // The distributor's per-line table
  // ---------------------------------------------------------------------------

  /** Number of interrupt lines: every ID passed to the distributor is below it. */
  const LineCount: nat := 128

  /** Priority 15 means the line is disabled; 0 is the highest. */
  const DisabledPriority: nat := 15

  /** Identity of an IrqHandler function; `None` stands for a NULL pointer. */
  type HandlerRef = nat

  /** What the distributor keeps for one line. */
  datatype IrqLine = IrqLine(
    handler: Option<HandlerRef>,
    priority: nat,
    cpuMask: bv8,
    edgeTriggered: bool,
    enabled: bool)

  /** A software interrupt waiting on core `target`, raised by core `source`. */
  datatype PendingSgi = PendingSgi(id: nat, target: nat, source: nat)

  predicate ValidId(id: nat) { id < LineCount }

  predicate ValidPriority(prio: nat) { prio <= DisabledPriority }

  predicate ValidSoftwareId(id: nat) { id < SoftwareIds as int }

  /** Each of the 4 low bits selects one core. */
  predicate ValidCpuMask(mask: bv8) { mask < 16 }

  predicate ValidTable(t: seq<IrqLine>) { |t| == LineCount }

  /** The table right after initialisation: no handler, disabled, lowest priority. */
  function InitialTable(): (t: seq<IrqLine>)
    ensures ValidTable(t)
    ensures forall id :: 0 <= id < |t| ==> t[id].handler.None? && !t[id].enabled && t[id].priority == DisabledPriority
  {
    seq(LineCount, _ => IrqLine(None, DisabledPriority, 0, false, false))
  }

  /** `IRQ_registerHandler`: install the handler and its settings, enable the line. */
  function Register(t: seq<IrqLine>, id: nat, prio: nat, cpuMask: bv8, edge: bool, h: Option<HandlerRef>): (r: seq<IrqLine>)
    requires ValidTable(t) && ValidId(id) && ValidPriority(prio)
    ensures ValidTable(r)
    ensures r[id].handler == h && r[id].enabled
    ensures r[id].priority == prio && r[id].cpuMask == cpuMask && r[id].edgeTriggered == edge
    ensures forall j :: 0 <= j < |t| && j != id ==> r[j] == t[j]
  {
    t[id := IrqLine(h, prio, cpuMask, edge, true)]
  }

  /** `IRQ_unregisterHandler`: clear the handler and disable the line. */
  function Unregister(t: seq<IrqLine>, id: nat): (r: seq<IrqLine>)
    requires ValidTable(t) && ValidId(id)
    ensures ValidTable(r)
    ensures r[id].handler.None? && !r[id].enabled
    ensures r[id].priority == t[id].priority && r[id].cpuMask == t[id].cpuMask
    ensures r[id].edgeTriggered == t[id].edgeTriggered
    ensures forall j :: 0 <= j < |t| && j != id ==> r[j] == t[j]
  {
    t[id := t[id].(handler := None, enabled := false)]
  }

  /** `IRQ_setPriority`: the priority of one line and nothing else. */
  function SetPriority(t: seq<IrqLine>, id: nat, prio: nat): (r: seq<IrqLine>)
    requires ValidTable(t) && ValidId(id) && ValidPriority(prio)
    ensures ValidTable(r)
    ensures r[id] == t[id].(priority := prio)
    ensures forall j :: 0 <= j < |t| && j != id ==> r[j] == t[j]
  {
    t[id := t[id].(priority := prio)]
  }

  /** The cores selected by a 4-bit CPU mask. */
  function Targets(cpuMask: bv8): (cores: set<nat>)
    ensures forall c :: c in cores ==> c < 4
    ensures 0 in cores <==> cpuMask & 1 != 0
    ensures 1 in cores <==> cpuMask & 2 != 0
    ensures 2 in cores <==> cpuMask & 4 != 0
    ensures 3 in cores <==> cpuMask & 8 != 0
  {
    (if cpuMask & 1 != 0 then {0} else {}) + (if cpuMask & 2 != 0 then {1} else {})
    + (if cpuMask & 4 != 0 then {2} else {}) + (if cpuMask & 8 != 0 then {3} else {})
  }

  /**
   * Who runs when line `id` fires with source core `cpu`: the line's handler,
   * called with the packed intSource, provided the line is enabled, has one,
   * and is not at the disabling priority 15.
   */
  function Dispatch(t: seq<IrqLine>, id: nat, cpu: nat): (r: Option<(HandlerRef, bv32)>)
    requires ValidTable(t) && ValidId(id) && cpu < 8
    ensures r.Some? <==> t[id].enabled && t[id].handler.Some? && t[id].priority < DisabledPriority
    ensures r.Some? ==>
              && r.value.0 == t[id].handler.value
              && SourceId(r.value.1) == id as bv32
              && SourceCpu(r.value.1) == if id < SoftwareIds as int then cpu as bv32 else 0
  {
    if t[id].enabled && t[id].handler.Some? && t[id].priority < DisabledPriority then
      Some((t[id].handler.value, IntSource(id as bv32, cpu as bv32)))
    else None
  }

  /**
   * After unregister then register with a new handler, only the new handler
   * is called, unless the line was registered at the disabling priority.
   */
  lemma NoStaleHandler(t: seq<IrqLine>, id: nat, prio: nat, cpuMask: bv8, edge: bool, h: HandlerRef, cpu: nat)
    requires ValidTable(t) && ValidId(id) && ValidPriority(prio) && cpu < 8
    ensures var r := Dispatch(Register(Unregister(t, id), id, prio, cpuMask, edge, Some(h)), id, cpu);
      (r.Some? <==> prio < DisabledPriority) && (r.Some? ==> r.value.0 == h)
  {
  }

  /** An unregistered line never reaches a handler. */
  lemma UnregisteredIsSilent(t: seq<IrqLine>, id: nat, cpu: nat)
    requires ValidTable(t) && ValidId(id) && cpu < 8
    ensures Dispatch(Unregister(t, id), id, cpu).None?
  {
  }

  /** Priority 15 silences a line, whatever else it holds. */
  lemma DisabledPriorityIsSilent(t: seq<IrqLine>, id: nat, cpu: nat)
    requires ValidTable(t) && ValidId(id) && cpu < 8
    ensures Dispatch(SetPriority(t, id, DisabledPriority), id, cpu).None?
  {
  }

  /**
   * Changing the priority of a registered line keeps its handler, mask,
   * trigger and enablement; the line reaches its handler exactly when the new
   * priority is below 15.
   */
  lemma PriorityKeepsRegistration(t: seq<IrqLine>, id: nat, prio: nat, cpuMask: bv8, edge: bool,
                                  h: Option<HandlerRef>, prio2: nat, cpu: nat)
    requires ValidTable(t) && ValidId(id) && ValidPriority(prio) && ValidPriority(prio2) && cpu < 8
    ensures var r := SetPriority(Register(t, id, prio, cpuMask, edge, h), id, prio2);
      r[id] == IrqLine(h, prio2, cpuMask, edge, true)
      && (Dispatch(r, id, cpu).Some? <==> h.Some? && prio2 < DisabledPriority)
      && (Dispatch(r, id, cpu).Some? ==> Dispatch(r, id, cpu).value.0 == h.value)
  {
  }

  /** The distributor: one table entry per line and the software interrupts not yet taken. */
  class Distributor {
    var lines: seq<IrqLine>
    var pending: set<PendingSgi>

    ghost predicate Valid()
      reads this
    {
      ValidTable(lines)
    }

    /** `IRQ_init`: every line disabled, lowest priority, nothing pending. */
    constructor ()
      ensures Valid()
      ensures lines == InitialTable() && pending == {}
    {
      lines := InitialTable();
      pending := {};
    }

    /** `IRQ_registerHandler` (ID must be <128, priority at most 15). */
    method RegisterHandler(id: nat, prio: nat, cpuMask: bv8, edgeTriggered: bool, handler: Option<HandlerRef>)
      requires Valid() && ValidId(id) && ValidPriority(prio)
      modifies this
      ensures Valid()
      ensures lines == Register(old(lines), id, prio, cpuMask, edgeTriggered, handler)
      ensures pending == old(pending)
    {
      lines := lines[id := IrqLine(handler, prio, cpuMask, edgeTriggered, true)];
    }

    /** `IRQ_unregisterHandler` (ID must be <128). */
    method UnregisterHandler(id: nat)
      requires Valid() && ValidId(id)
      modifies this
      ensures Valid()
      ensures lines == Unregister(old(lines), id)
      ensures pending == old(pending)
    {
      lines := lines[id := lines[id].(handler := None, enabled := false)];
    }

    /** `IRQ_setPriority` (ID must be <128, priority at most 15). */
    method SetLinePriority(id: nat, prio: nat)
      requires Valid() && ValidId(id) && ValidPriority(prio)
      modifies this
      ensures Valid()
      ensures lines == SetPriority(old(lines), id, prio)
      ensures pending == old(pending)
    {
      lines := lines[id := lines[id].(priority := prio)];
    }

    /**
     * `IRQ_softwareInterrupt` (ID must be <16, one mask bit per core), issued
     * by core `source`: one pending interrupt per selected core.
     */
    method SoftwareInterrupt(id: nat, cpuMask: bv8, source: nat)
      requires Valid() && ValidSoftwareId(id) && ValidCpuMask(cpuMask) && source < 4
      modifies this
      ensures Valid() && lines == old(lines)
      ensures pending == old(pending) + set c | c in Targets(cpuMask) :: PendingSgi(id, c, source)
    {
      pending := pending + set c | c in Targets(cpuMask) :: PendingSgi(id, c, source);
    }
  }
}
