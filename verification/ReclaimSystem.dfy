/** The reclaim table run by any number of goroutines. A goroutine is a program counter; one
    action is one critical section together with the hook call that precedes it, so the interval
    recorded for a hook contains the real one. */
module ReclaimSystem {
  import opened Basics
  import opened AliasLinks
  import opened ReclaimCore

  datatype Pc =
    // Open
    | Looking(key: Key)
    | Parked(key: Key, id: nat, ch: nat)
    | Creating(key: Key, id: nat, ch: nat)
    | Waking(key: Key, id: nat, ch: nat, value: Value, enforce: bool)
    | Holding(key: Key, id: nat, value: Value)
    // drop
    | Dropping(key: Key, id: nat)
    | DropParked(key: Key, id: nat, ch: nat)
    | Sleeping(key: Key, id: nat, ch: nat, enforce: bool)
    // endings; `ch` is the channel this goroutine still has to close
    | Swapped(key: Key, id: nat, oldReady: nat, closer: nat, ch: nat)
    | CloserClosing(key: Key, id: nat, closer: nat, ch: nat)
    | MappedClosing(key: Key, id: nat, ch: nat)
    | BareClosing(key: Key, id: nat)
    | Unparking(ch: nat)
    // grace timers
    | Armed(key: Key, id: nat)
    | Expiring(key: Key, id: nat)
    // Reset
    | Resetting(todo: set<nat>)
    | ResetSleeping(id: nat, todo: set<nat>)
    | ResetClosing(id: nat, todo: set<nat>)
    | Done

  datatype Event = SleepBegin | SleepEnd | SleepPanic | WakeBegin | WakeEnd | WakePanic | CloseBegin | CloseEnd

  /** Bookkeeping about one slot that the program does not store: its key, the goroutine that owns
      its transition, the goroutines counted as holders, the one that will end it when it is idle,
      whether create succeeded, and its hook calls. */
  datatype Note = Note(key: Key, owner: Option<nat>, holders: set<nat>, reaper: nat, put: bool, trace: seq<Event>)

  /** `closer[c]` is the goroutine that has to close channel c. */
  datatype System = System(core: Core, pcs: seq<Pc>, notes: seq<Note>, closer: seq<nat>, resetUsed: bool)

  datatype Action =
    | Spawn(key: Key)
    | Lookup(t: nat)
    | Replay(t: nat)
    | CreateOk(t: nat, value: Value, enforce: bool)
    | CreateFail(t: nat)
    | WakeOk(t: nat)
    | WakeFail(t: nat)
    | Release(t: nat)
    | Forsake(t: nat)
    | Claim(t: nat)
    | Unpark(t: nat)
    | SleepOk(t: nat)
    | SleepFail(t: nat)
    | CloseOld(t: nat)
    | CloserClosed(t: nat)
    | MappedClosed(t: nat)
    | BareClosed(t: nat)
    | CloseReady(t: nat)
    | Fire(t: nat)
    | Expire(t: nat)
    | ResetStart(order: seq<nat>)
    | ResetNext(t: nat, id: nat)
    | ResetSlept(t: nat, panics: bool)
    | ResetClosed(t: nat)
    | DoSetAlias(key: Key, alias: Name, publisher: string, group: string)
    | DoWatch(alias: Name, empty: Value, wid: nat)
    | DoDropWatcher(alias: Name, wid: nat)
    | DoClearPublisher(publisher: string, group: string)

  function Init(grace: int): System {
    System(EmptyCore(grace), [], [], [], false)
  }

  // ---------------------------------------------------------------- helpers

  function Goto(s: System, t: nat, pc: Pc): System
    requires t < |s.pcs|
  {
    s.(pcs := s.pcs[t := pc])
  }

  function Logged(n: Note, e: Event): Note {
    n.(trace := n.trace + [e])
  }

  /** A stopped timer never fires; one that already fired is not affected. */
  function StopTimer(pcs: seq<Pc>, timer: Option<nat>): (r: seq<Pc>)
    ensures |r| == |pcs|
  {
    if timer.Some? && timer.value < |pcs| && pcs[timer.value].Armed? then pcs[timer.value := Done] else pcs
  }

  /** Index guards; the invariant implies them for every goroutine, so they exclude no step. */
  predicate SlotIn(s: System, id: nat) {
    id < |s.core.slots| && id < |s.notes| && s.core.slots[id].ready < |s.core.closed|
  }

  predicate KeyIn(s: System, key: Key) {
    key in s.core.items ==> SlotIn(s, s.core.items[key])
  }

  predicate IsClosed(s: System, ch: nat) {
    ch < |s.core.closed| && s.core.closed[ch]
  }

  ghost predicate AliasIn(l: Links, alias: Name) {
    alias in l.aliases ==> l.aliases[alias] < |l.entries|
  }

  /** One step of the system: action `a` takes `s` to `r`. */
  ghost predicate Step(s: System, a: Action, r: System) {
    match a
    case Spawn(key) => r == s.(pcs := s.pcs + [Looking(key)])
    case ResetStart(order) =>
      && (forall i :: i in order <==> i in s.core.items.Values)
      && r == ResetStartStep(s, order)
    case DoSetAlias(key, alias, publisher, group) =>
      && alias != "" && key != "" && AliasIn(s.core.links, alias)
      && r == s.(core := s.core.(links := SetAlias(s.core.links, AliasTarget(s.core, key), alias, publisher, group).0))
    case DoWatch(alias, empty, wid) =>
      && alias != "" && AliasIn(s.core.links, alias)
      && r == s.(core := s.core.(links := Watch(s.core.links, alias, empty, wid)))
    case DoDropWatcher(alias, wid) =>
      && alias != "" && AliasIn(s.core.links, alias)
      && r == s.(core := s.core.(links := DropWatcher(s.core.links, alias, wid)))
    case DoClearPublisher(publisher, group) =>
      r == s.(core := s.core.(links := ClearPublisher(s.core.links, publisher, group)))
    case _ => a.t < |s.pcs| && Move(s, a, r)
  }

  /** Goroutine a.t moves. */
  ghost predicate Move(s: System, a: Action, r: System)
    requires a.Lookup? || a.Replay? || a.CreateOk? || a.CreateFail? || a.WakeOk? || a.WakeFail? || a.Release?
          || a.Forsake? || a.Claim? || a.Unpark? || a.SleepOk? || a.SleepFail? || a.CloseOld? || a.CloserClosed?
          || a.MappedClosed? || a.BareClosed? || a.CloseReady? || a.Fire? || a.Expire? || a.ResetNext?
          || a.ResetSlept? || a.ResetClosed?
    requires a.t < |s.pcs|
  {
    match a
    case Lookup(t) => s.pcs[t].Looking? && KeyIn(s, s.pcs[t].key) && r == LookupStep(s, t)
    case Replay(t) => s.pcs[t].Parked? && SlotIn(s, s.pcs[t].id) && IsClosed(s, s.pcs[t].ch) && r == ReplayStep(s, t)
    case CreateOk(t, value, enforce) => s.pcs[t].Creating? && SlotIn(s, s.pcs[t].id) && r == CreateOkStep(s, t, value, enforce)
    case CreateFail(t) => s.pcs[t].Creating? && SlotIn(s, s.pcs[t].id) && r == CreateFailStep(s, t)
    case WakeOk(t) => s.pcs[t].Waking? && SlotIn(s, s.pcs[t].id) && r == WakeOkStep(s, t)
    case WakeFail(t) => s.pcs[t].Waking? && SlotIn(s, s.pcs[t].id) && r == WakeFailStep(s, t)
    case Release(t) => s.pcs[t].Holding? && SlotIn(s, s.pcs[t].id) && r == ReleaseStep(s, t)
    case Forsake(t) => s.pcs[t].Holding? && SlotIn(s, s.pcs[t].id) && !s.core.slots[s.pcs[t].id].finished && r == ForsakeStep(s, t)
    case Claim(t) => s.pcs[t].Dropping? && SlotIn(s, s.pcs[t].id) && r == ClaimStep(s, t)
    case Unpark(t) => s.pcs[t].DropParked? && IsClosed(s, s.pcs[t].ch) && r == UnparkStep(s, t)
    case SleepOk(t) => s.pcs[t].Sleeping? && SlotIn(s, s.pcs[t].id) && r == SleepOkStep(s, t)
    case SleepFail(t) => s.pcs[t].Sleeping? && SlotIn(s, s.pcs[t].id) && r == SleepFailStep(s, t)
    case CloseOld(t) => s.pcs[t].Swapped? && SlotIn(s, s.pcs[t].id) && s.pcs[t].oldReady < |s.core.closed| && r == CloseOldStep(s, t)
    case CloserClosed(t) => s.pcs[t].CloserClosing? && SlotIn(s, s.pcs[t].id) && SlotIn(s, s.pcs[t].closer) && r == CloserClosedStep(s, t)
    case MappedClosed(t) => s.pcs[t].MappedClosing? && SlotIn(s, s.pcs[t].id) && r == MappedClosedStep(s, t)
    case BareClosed(t) => s.pcs[t].BareClosing? && SlotIn(s, s.pcs[t].id) && r == BareClosedStep(s, t)
    case CloseReady(t) => s.pcs[t].Unparking? && s.pcs[t].ch < |s.core.closed| && r == CloseReadyStep(s, t)
    case Fire(t) => s.pcs[t].Armed? && r == FireStep(s, t)
    case Expire(t) => s.pcs[t].Expiring? && SlotIn(s, s.pcs[t].id) && r == ExpiryStep(s, t)
    case ResetNext(t, id) => s.pcs[t].Resetting? && id in s.pcs[t].todo && SlotIn(s, id) && r == ResetNextStep(s, t, id)
    case ResetSlept(t, panics) => s.pcs[t].ResetSleeping? && SlotIn(s, s.pcs[t].id) && r == ResetSleptStep(s, t, panics)
    case ResetClosed(t) => s.pcs[t].ResetClosing? && SlotIn(s, s.pcs[t].id) && r == ResetClosedStep(s, t)
  }

  // ---------------------------------------------------------------- one function per action

  function LookupStep(s: System, t: nat): System
    requires t < |s.pcs| && s.pcs[t].Looking? && KeyIn(s, s.pcs[t].key)
  {
    var key := s.pcs[t].key;
    var (core, step) := LookupOpen(s.core, key);
    match step
    case OpenCreate(id) =>
      s.(core := core, pcs := s.pcs[t := Creating(key, id, |s.core.closed|)],
         notes := s.notes + [Note(key, Some(t), {}, 0, false, [])], closer := s.closer + [t])
    case OpenBind(id, value) =>
      var n := s.notes[id];
      s.(core := core, pcs := s.pcs[t := Holding(key, id, value)],
         notes := s.notes[id := n.(holders := n.holders + {t})])
    case OpenWake(id, value, enforce, stop) =>
      var n := s.notes[id];
      s.(core := core,
         pcs := StopTimer(s.pcs, stop)[t := Waking(key, id, |s.core.closed|, value, enforce)],
         notes := s.notes[id := Logged(n, WakeBegin).(owner := Some(t), holders := n.holders + {t})],
         closer := s.closer + [t])
    case OpenPark(id, ready) => s.(core := core, pcs := s.pcs[t := Parked(key, id, ready)])
    case OpenRetry => s.(core := core)
  }

  function ReplayStep(s: System, t: nat): System
    requires t < |s.pcs| && s.pcs[t].Parked? && SlotIn(s, s.pcs[t].id) && IsClosed(s, s.pcs[t].ch)
  {
    var Parked(key, id, _) := s.pcs[t];
    Goto(s, t, if s.core.slots[id].createErr.Some? then Done else Looking(key))
  }

  function CreateOkStep(s: System, t: nat, value: Value, enforce: bool): System
    requires t < |s.pcs| && s.pcs[t].Creating? && SlotIn(s, s.pcs[t].id)
  {
    var Creating(key, id, _) := s.pcs[t];
    var n := s.notes[id];
    s.(core := PublishPut(s.core, key, id, value, enforce), pcs := s.pcs[t := Holding(key, id, value)],
       notes := s.notes[id := n.(owner := None, holders := n.holders + {t}, put := true)])
  }

  function CreateFailStep(s: System, t: nat): System
    requires t < |s.pcs| && s.pcs[t].Creating? && SlotIn(s, s.pcs[t].id)
  {
    var Creating(key, id, _) := s.pcs[t];
    s.(core := EndBusySlot(s.core, key, id, Some(CreateFailed)), pcs := s.pcs[t := Done],
       notes := s.notes[id := s.notes[id].(owner := None)])
  }

  function WakeOkStep(s: System, t: nat): System
    requires t < |s.pcs| && s.pcs[t].Waking? && SlotIn(s, s.pcs[t].id)
  {
    var Waking(key, id, _, value, _) := s.pcs[t];
    s.(core := PublishWake(s.core, id), pcs := s.pcs[t := Holding(key, id, value)],
       notes := s.notes[id := Logged(s.notes[id], WakeEnd).(owner := None)])
  }

  function WakeFailStep(s: System, t: nat): System
    requires t < |s.pcs| && s.pcs[t].Waking? && SlotIn(s, s.pcs[t].id)
  {
    var Waking(key, id, ch, _, enforce) := s.pcs[t];
    EndAfterPanic(s, t, key, id, enforce, ch, WakePanic, Some(WakePanicked))
  }

  function SleepFailStep(s: System, t: nat): System
    requires t < |s.pcs| && s.pcs[t].Sleeping? && SlotIn(s, s.pcs[t].id)
  {
    var Sleeping(key, id, ch, enforce) := s.pcs[t];
    EndAfterPanic(s, t, key, id, enforce, ch, SleepPanic, None)
  }

  function CloseReadyStep(s: System, t: nat): System
    requires t < |s.pcs| && s.pcs[t].Unparking? && s.pcs[t].ch < |s.core.closed|
  {
    Goto(s.(core := CloseChan(s.core, s.pcs[t].ch)), t, Done)
  }

  /** endBusyAfterPanic up to the point where Close starts. */
  function EndAfterPanic(s: System, t: nat, key: Key, id: nat, enforce: bool, ch: nat, e: Event,
                         err: Option<Failure>): System
    requires t < |s.pcs| && SlotIn(s, id)
  {
    if enforce then
      s.(core := InstallCloser(s.core, key, id, err),
         pcs := s.pcs[t := Swapped(key, id, ch, |s.core.slots|, |s.core.closed|)],
         notes := s.notes[id := Logged(s.notes[id], e)] + [Note(key, Some(t), {}, 0, false, [])],
         closer := s.closer + [t])
    else
      s.(core := EndBusySlot(s.core, key, id, err), pcs := s.pcs[t := BareClosing(key, id)],
         notes := s.notes[id := Logged(Logged(s.notes[id], e), CloseBegin)])
  }

  function ReleaseStep(s: System, t: nat): System
    requires t < |s.pcs| && s.pcs[t].Holding? && SlotIn(s, s.pcs[t].id)
  {
    var Holding(key, id, _) := s.pcs[t];
    var n := s.notes[id];
    s.(core := ReleaseHolder(s.core, id), pcs := s.pcs[t := Dropping(key, id)],
       notes := s.notes[id := n.(holders := n.holders - {t},
                                 reaper := if s.core.slots[id].state == Awake then t else n.reaper)])
  }

  /** A holder whose context has no Done channel stops watching once the incarnation has ended. */
  function ForsakeStep(s: System, t: nat): System
    requires t < |s.pcs| && s.pcs[t].Holding? && SlotIn(s, s.pcs[t].id) && !s.core.slots[s.pcs[t].id].finished
  {
    Goto(s, t, Done)
  }

  function UnparkStep(s: System, t: nat): System
    requires t < |s.pcs| && s.pcs[t].DropParked? && IsClosed(s, s.pcs[t].ch)
  {
    Goto(s, t, Dropping(s.pcs[t].key, s.pcs[t].id))
  }

  function FireStep(s: System, t: nat): System
    requires t < |s.pcs| && s.pcs[t].Armed?
  {
    Goto(s, t, Expiring(s.pcs[t].key, s.pcs[t].id))
  }

  function ClaimStep(s: System, t: nat): System
    requires t < |s.pcs| && s.pcs[t].Dropping? && SlotIn(s, s.pcs[t].id)
  {
    var Dropping(key, id) := s.pcs[t];
    var (core, step) := ClaimDrop(s.core, id);
    match step
    case DropPark(ready) => s.(core := core, pcs := s.pcs[t := DropParked(key, id, ready)])
    case DropStop => s.(core := core, pcs := s.pcs[t := Done])
    case DropClaim(enforce, _) =>
      s.(core := core, pcs := s.pcs[t := Sleeping(key, id, |s.core.closed|, enforce)],
         notes := s.notes[id := Logged(s.notes[id], SleepBegin).(owner := Some(t))],
         closer := s.closer + [t])
  }

  function SleepOkStep(s: System, t: nat): System
    requires t < |s.pcs| && s.pcs[t].Sleeping? && SlotIn(s, s.pcs[t].id)
  {
    var Sleeping(key, id, ch, enforce) := s.pcs[t];
    var n := Logged(s.notes[id], SleepEnd);
    if enforce && s.core.grace <= 0 then
      s.(pcs := s.pcs[t := MappedClosing(key, id, ch)], notes := s.notes[id := Logged(n, CloseBegin)])
    else
      var (core, mapped) := ParkAsleep(s.core, key, id, s.core.grace, |s.pcs|);
      if mapped then
        s.(core := core, pcs := s.pcs[t := Done] + [Armed(key, id)],
           notes := s.notes[id := n.(owner := None, reaper := |s.pcs|)])
      else
        s.(core := core, pcs := s.pcs[t := Expiring(key, id)],
           notes := s.notes[id := n.(owner := None, reaper := t)])
  }

  function CloseOldStep(s: System, t: nat): System
    requires t < |s.pcs| && s.pcs[t].Swapped? && SlotIn(s, s.pcs[t].id) && s.pcs[t].oldReady < |s.core.closed|
  {
    var Swapped(key, id, oldReady, closer, ch) := s.pcs[t];
    s.(core := CloseChan(s.core, oldReady), pcs := s.pcs[t := CloserClosing(key, id, closer, ch)],
       notes := s.notes[id := Logged(s.notes[id], CloseBegin)])
  }

  function CloserClosedStep(s: System, t: nat): System
    requires t < |s.pcs| && s.pcs[t].CloserClosing? && SlotIn(s, s.pcs[t].id) && SlotIn(s, s.pcs[t].closer)
  {
    var CloserClosing(key, id, closer, ch) := s.pcs[t];
    s.(core := UnmapLocked(s.core, key, closer), pcs := s.pcs[t := Unparking(ch)],
       notes := s.notes[id := Logged(s.notes[id], CloseEnd).(owner := None)]
                       [closer := s.notes[closer].(owner := None)])
  }

  function MappedClosedStep(s: System, t: nat): System
    requires t < |s.pcs| && s.pcs[t].MappedClosing? && SlotIn(s, s.pcs[t].id)
  {
    var MappedClosing(key, id, ch) := s.pcs[t];
    s.(core := UnmapLocked(s.core, key, id), pcs := s.pcs[t := Unparking(ch)],
       notes := s.notes[id := Logged(s.notes[id], CloseEnd).(owner := None)])
  }

  /** Ends aliases after Close, as expire does; after a panic they are already gone. */
  function BareClosedStep(s: System, t: nat): System
    requires t < |s.pcs| && s.pcs[t].BareClosing? && SlotIn(s, s.pcs[t].id)
  {
    var BareClosing(_, id) := s.pcs[t];
    s.(core := s.core.(links := Unbind(s.core.links, id)), pcs := s.pcs[t := Done],
       notes := s.notes[id := Logged(s.notes[id], CloseEnd).(owner := None)])
  }

  function ExpiryStep(s: System, t: nat): System
    requires t < |s.pcs| && s.pcs[t].Expiring? && SlotIn(s, s.pcs[t].id)
  {
    var Expiring(key, id) := s.pcs[t];
    var (core, step) := ClaimExpire(s.core, key, id);
    match step
    case ExpireSkip => s.(core := core, pcs := s.pcs[t := Done])
    case ExpireEnforce =>
      s.(core := core, pcs := s.pcs[t := MappedClosing(key, id, |s.core.closed|)],
         notes := s.notes[id := Logged(s.notes[id], CloseBegin).(owner := Some(t))],
         closer := s.closer + [t])
    case ExpireDispose =>
      s.(core := core, pcs := s.pcs[t := BareClosing(key, id)],
         notes := s.notes[id := Logged(s.notes[id], CloseBegin).(owner := Some(t))])
  }

  function StopAll(s: System): (r: seq<Pc>)
    ensures |r| == |s.pcs|
  {
    seq(|s.pcs|, t requires 0 <= t < |s.pcs| =>
      if s.pcs[t].Armed? && s.pcs[t].id in s.core.items.Values && s.pcs[t].id < |s.core.slots|
         && s.core.slots[s.pcs[t].id].timer == Some(t)
      then Done else s.pcs[t])
  }

  /** A slot swapped out while asleep is left to the Reset that swapped it. */
  function Reassigned(s: System): (r: seq<Note>)
    ensures |r| == |s.notes|
  {
    seq(|s.notes|, i requires 0 <= i < |s.notes| =>
      if i in s.core.items.Values && i < |s.core.slots| && s.core.slots[i].state == Asleep then s.notes[i].(reaper := |s.pcs|) else s.notes[i])
  }

  function ResetStartStep(s: System, order: seq<nat>): System
  {
    s.(core := TakeAll(s.core, order), pcs := StopAll(s) + [Resetting(s.core.items.Values)],
       notes := Reassigned(s), resetUsed := true)
  }

  function ResetNextStep(s: System, t: nat, id: nat): System
    requires t < |s.pcs| && s.pcs[t].Resetting? && id in s.pcs[t].todo && SlotIn(s, id)
  {
    var rest := s.pcs[t].todo - {id};
    var (core, was) := EndResetSlot(s.core, id);
    match was
    case Awake =>
      s.(core := core, pcs := s.pcs[t := ResetSleeping(id, rest)],
         notes := s.notes[id := Logged(s.notes[id], SleepBegin).(owner := Some(t))])
    case Asleep =>
      s.(core := core, pcs := s.pcs[t := ResetClosing(id, rest)],
         notes := s.notes[id := Logged(s.notes[id], CloseBegin).(owner := Some(t))])
    case _ => s.(core := core, pcs := s.pcs[t := Resetting(rest)])
  }

  function ResetSleptStep(s: System, t: nat, panics: bool): System
    requires t < |s.pcs| && s.pcs[t].ResetSleeping? && SlotIn(s, s.pcs[t].id)
  {
    var ResetSleeping(id, todo) := s.pcs[t];
    var n := Logged(Logged(s.notes[id], if panics then SleepPanic else SleepEnd), CloseBegin);
    s.(pcs := s.pcs[t := ResetClosing(id, todo)], notes := s.notes[id := n])
  }

  function ResetClosedStep(s: System, t: nat): System
    requires t < |s.pcs| && s.pcs[t].ResetClosing? && SlotIn(s, s.pcs[t].id)
  {
    var ResetClosing(id, todo) := s.pcs[t];
    s.(pcs := s.pcs[t := Resetting(todo)], notes := s.notes[id := Logged(s.notes[id], CloseEnd).(owner := None)])
  }
}
