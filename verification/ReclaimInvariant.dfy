/** What every step of the reclaim table keeps. */
module ReclaimInvariant {
  import opened Basics
  import opened AliasLinks
  import opened ReclaimCore
  import opened ReclaimSystem

  // ---------------------------------------------------------------- hook order

  /** Where an incarnation stands in its life, read off its hook calls. */
  datatype Phase = Up | InSleep | Down | InWake | Broken | InClose | Ended | Illegal

  function Next(p: Phase, e: Event): Phase {
    match (p, e)
    case (Up, SleepBegin) => InSleep
    case (InSleep, SleepEnd) => Down
    case (InSleep, SleepPanic) => Broken
    case (Down, WakeBegin) => InWake
    case (InWake, WakeEnd) => Up
    case (InWake, WakePanic) => Broken
    case (Down, CloseBegin) => InClose
    case (Broken, CloseBegin) => InClose
    case (InClose, CloseEnd) => Phase.Ended
    case _ => Illegal
  }

  function PhaseOf(trace: seq<Event>): Phase {
    if trace == [] then Up else Next(PhaseOf(trace[..|trace| - 1]), trace[|trace| - 1])
  }

  lemma PhaseStep(trace: seq<Event>, e: Event)
    ensures PhaseOf(trace + [e]) == Next(PhaseOf(trace), e)
  {
    assert (trace + [e])[..|trace|] == trace;
  }

  // ---------------------------------------------------------------- who owns what

  /** The slots whose transition this goroutine is running. */
  function Owns(pc: Pc): set<nat> {
    match pc
    case Creating(_, id, _) => {id}
    case Waking(_, id, _, _, _) => {id}
    case Sleeping(_, id, _, _) => {id}
    case Swapped(_, id, _, closer, _) => {id, closer}
    case CloserClosing(_, id, closer, _) => {id, closer}
    case MappedClosing(_, id, _) => {id}
    case BareClosing(_, id) => {id}
    case ResetSleeping(id, _) => {id}
    case ResetClosing(id, _) => {id}
    case _ => {}
  }

  /** The channels this goroutine still has to close. */
  function MustClose(pc: Pc): set<nat> {
    match pc
    case Creating(_, _, ch) => {ch}
    case Waking(_, _, ch, _, _) => {ch}
    case Sleeping(_, _, ch, _) => {ch}
    case Swapped(_, _, oldReady, _, ch) => {oldReady, ch}
    case CloserClosing(_, _, _, ch) => {ch}
    case MappedClosing(_, _, ch) => {ch}
    case Unparking(ch) => {ch}
    case _ => {}
  }

  /** The slot this goroutine is counted on as a holder. */
  function CountedOn(pc: Pc): Option<nat> {
    match pc
    case Waking(_, id, _, _, _) => Some(id)
    case Holding(_, id, _) => Some(id)
    case _ => None
  }

  /** A slot in the middle of a transition, against the goroutine running it. */
  ghost predicate InTransition(i: nat, sl: Slot, n: Note, t: nat, pc: Pc, resetUsed: bool) {
    match pc
    case Creating(key, _, ch) =>
      sl.state == Busy && !n.put && n.trace == [] && n.key == key && sl.ready == ch && n.holders == {} && sl.finished
    case Waking(key, _, ch, value, enforce) =>
      sl.state == Busy && n.put && PhaseOf(n.trace) == InWake && n.key == key && sl.ready == ch
      && sl.value == value && sl.enforce == enforce && n.holders == {t}
    case Sleeping(key, _, ch, enforce) =>
      sl.state == Busy && n.put && PhaseOf(n.trace) == InSleep && n.key == key && sl.ready == ch
      && sl.enforce == enforce && n.holders == {}
    case Swapped(key, id, _, closer, ch) =>
      id != closer && n.key == key &&
      if i == id then sl.state == Gone && n.put && PhaseOf(n.trace) == Broken && sl.enforce
      else sl.state == Busy && !n.put && n.trace == [] && sl.ready == ch && n.holders == {} 
    case CloserClosing(key, id, closer, ch) =>
      id != closer && n.key == key &&
      if i == id then sl.state == Gone && n.put && PhaseOf(n.trace) == InClose && sl.enforce
      else sl.state == Busy && !n.put && n.trace == [] && sl.ready == ch && n.holders == {}
    case MappedClosing(key, _, ch) =>
      sl.state == Busy && n.put && PhaseOf(n.trace) == InClose && n.key == key && sl.ready == ch && sl.enforce && n.holders == {}
    case BareClosing(key, _) =>
      sl.state == Gone && n.put && PhaseOf(n.trace) == InClose && n.key == key && !sl.enforce
    case ResetSleeping(_, _) => sl.state == Gone && n.put && PhaseOf(n.trace) == InSleep && resetUsed
    case ResetClosing(_, _) => sl.state == Gone && n.put && PhaseOf(n.trace) == InClose && resetUsed
    case _ => false
  }

  /** A slot nobody is moving. */
  ghost predicate AtRest(sl: Slot, n: Note) {
    match sl.state
    case Busy => false
    case Awake => n.put && PhaseOf(n.trace) == Up
    case Asleep => n.put && PhaseOf(n.trace) == Down && n.holders == {}
    case Gone => if n.put then PhaseOf(n.trace) == Phase.Ended else n.trace == []
  }

  /** Goroutine t will end slot i, now in state `st`, if nobody opens it first. */
  ghost predicate Reaps(pcs: seq<Pc>, t: nat, i: nat, st: State) {
    t < |pcs| &&
    match pcs[t]
    case Dropping(_, id) => id == i && st == Awake
    case Armed(_, id) => id == i && st == Asleep
    case Expiring(_, id) => id == i && st == Asleep
    case Resetting(todo) => i in todo && st == Asleep
    case ResetSleeping(_, todo) => i in todo && st == Asleep
    case ResetClosing(_, todo) => i in todo && st == Asleep
    case _ => false
  }

  ghost predicate HoldersOK(i: nat, sl: Slot, n: Note, pcs: seq<Pc>) {
    && sl.holders == |n.holders|
    && (forall t :: t in n.holders ==> t < |pcs| && CountedOn(pcs[t]) == Some(i))
  }

  ghost predicate SlotOK(i: nat, sl: Slot, n: Note, pcs: seq<Pc>, resetUsed: bool) {
    && (match n.owner
        case Some(t) => t < |pcs| && i in Owns(pcs[t]) && InTransition(i, sl, n, t, pcs[t], resetUsed)
        case None => AtRest(sl, n))
    && (n.put && sl.state != Gone ==> sl.finished)
    && (sl.state != Gone ==> HoldersOK(i, sl, n, pcs))
    && (sl.state == Awake && n.holders == {} ==> Reaps(pcs, n.reaper, i, Awake))
    && (sl.state == Asleep ==> Reaps(pcs, n.reaper, i, Asleep))
    && (sl.timer.Some? ==>
          && sl.timer.value < |pcs|
          && (pcs[sl.timer.value].Armed? ==> pcs[sl.timer.value].id == i))
  }

  ghost predicate ChansOK(t: nat, pc: Pc, closed: seq<bool>, closer: seq<nat>) {
    && (forall c :: c in MustClose(pc) ==> c < |closed| && c < |closer| && !closed[c] && closer[c] == t)
    && (pc.Swapped? ==> pc.oldReady != pc.ch)
  }

  /** What a goroutine relies on about the slot it mentions. */
  ghost predicate RelyOK(t: nat, pc: Pc, id: nat, sl: Slot, n: Note, resetUsed: bool) {
    && (id in Owns(pc) ==> n.owner == Some(t))
    && (pc.Holding? ==>
          && n.put && n.key == pc.key && sl.value == pc.value
          && (sl.state == Awake || (sl.state == Gone && resetUsed)))
    && (CountedOn(pc) == Some(id) && sl.state != Gone ==> t in n.holders)
    && (pc.Dropping? || pc.DropParked? || pc.Armed? || pc.Expiring? ==> n.put && n.key == pc.key)
  }

  /** The slots a goroutine mentions. */
  function Mentions(pc: Pc): set<nat> {
    match pc
    case Parked(_, id, _) => {id}
    case Holding(_, id, _) => {id}
    case Dropping(_, id) => {id}
    case DropParked(_, id, _) => {id}
    case Armed(_, id) => {id}
    case Expiring(_, id) => {id}
    case Resetting(todo) => todo
    case ResetSleeping(id, todo) => {id} + todo
    case ResetClosing(id, todo) => {id} + todo
    case _ => Owns(pc)
  }

  ghost predicate PcOK(s: System, t: nat, pc: Pc) {
    && ChansOK(t, pc, s.core.closed, s.closer)
    && (forall i :: i in Mentions(pc) ==> i < |s.core.slots| && i < |s.notes| && RelyOK(t, pc, i, s.core.slots[i], s.notes[i], s.resetUsed))
    && (pc.Parked? || pc.DropParked? ==> pc.ch < |s.core.closed|)
    && (pc.Resetting? || pc.ResetSleeping? || pc.ResetClosing? ==> s.resetUsed)
  }

  /** An open channel has exactly one goroutine that will close it. */
  ghost predicate ChanOK(c: nat, isClosed: bool, closer: nat, pcs: seq<Pc>) {
    !isClosed ==> closer < |pcs| && c in MustClose(pcs[closer])
  }

  /** Until Reset is used, a usable or moving slot is the one its key maps to. */
  ghost predicate MappedOK(i: nat, sl: Slot, n: Note, core: Core) {
    (sl.state == Busy || sl.state == Awake || (sl.state == Asleep && (sl.enforce || core.grace > 0))) ==>
      Mapped(core, n.key, i)
  }

  ghost predicate ItemOK(k: Key, id: nat, s: System) {
    && id < |s.core.slots| && id < |s.notes|
    && s.notes[id].key == k
    && (!s.resetUsed ==> s.core.slots[id].state != Gone)
  }

  /** Aliases point at values that were put, and know their value. */
  ghost predicate RefOK(r: Option<Ref>, s: System) {
    r.Some? ==>
      && r.value.id < |s.core.slots| && r.value.id < |s.notes| && s.notes[r.value.id].put
      && s.core.slots[r.value.id].value == r.value.value
      && (!s.resetUsed && s.core.slots[r.value.id].state == Gone ==>
            PhaseOf(s.notes[r.value.id].trace) == InClose && !s.core.slots[r.value.id].enforce)
  }

  ghost predicate SlotsInv(s: System) {
    && |s.notes| == |s.core.slots|
    && (forall i :: 0 <= i < |s.core.slots| ==> s.core.slots[i].ready < |s.core.closed|)
    && (forall i :: 0 <= i < |s.core.slots| ==> SlotOK(i, s.core.slots[i], s.notes[i], s.pcs, s.resetUsed))
  }

  ghost predicate PcsInv(s: System) {
    forall t :: 0 <= t < |s.pcs| ==> PcOK(s, t, s.pcs[t])
  }

  ghost predicate ChansInv(s: System) {
    && |s.closer| == |s.core.closed|
    && (forall c :: 0 <= c < |s.core.closed| ==> ChanOK(c, s.core.closed[c], s.closer[c], s.pcs))
    && !s.core.panicked
  }

  ghost predicate ItemsInv(s: System) {
    && |s.notes| == |s.core.slots|
    && (forall k :: k in s.core.items ==> ItemOK(k, s.core.items[k], s))
    && (!s.resetUsed ==> forall i :: 0 <= i < |s.core.slots| ==> MappedOK(i, s.core.slots[i], s.notes[i], s.core))
  }

  ghost predicate LinksInv(s: System) {
    && Consistent(s.core.links)
    && (forall e :: 0 <= e < |s.core.links.entries| ==> RefOK(s.core.links.entries[e].incarnation, s))
  }

  ghost predicate Inv(s: System) {
    SlotsInv(s) && PcsInv(s) && ChansInv(s) && ItemsInv(s) && LinksInv(s)
  }
}
