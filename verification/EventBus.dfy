/** The event bus: an arena of registrations and, per event, a slot that holds a copy-on-write
    snapshot.  Slots come and go while registrations, removals and dispatches race; every lock
    section and every atomic load or store is one step. */
module EventBus {
  import opened Sequences
  import opened Wrappers

  type Tid = nat
  type Event = nat
  type HandlerId = nat
  type SlotId = nat

  datatype Entry = Entry(id: HandlerId, event: Event)

  /** `event` is the key under which the slot was created; a slot is never renamed. */
  datatype Slot = Slot(event: Event, snapshot: seq<HandlerId>, writer: Option<Tid>)

  datatype Pc =
    | Idle
    // register_gated
    | RegSlot(event: Event)
    | RegLock(event: Event, slot: SlotId)
    | RegCheck(event: Event, slot: SlotId)
    | RegRelease(event: Event, slot: SlotId)
    | RegInsert(event: Event, slot: SlotId)
    | RegLoad(event: Event, slot: SlotId, id: HandlerId)
    | RegStore(event: Event, slot: SlotId, id: HandlerId, next: seq<HandlerId>)
    | RegUnlock(event: Event, slot: SlotId, id: HandlerId)
    | RegDone(event: Event, id: HandlerId)
    // remove
    | RemLookup(id: HandlerId)
    | RemSlot(id: HandlerId, event: Event)
    | RemLock(id: HandlerId, event: Event, slot: SlotId)
    | RemTake(id: HandlerId, event: Event, slot: SlotId)
    | RemMiss(id: HandlerId, slot: SlotId)
    | RemLoad(id: HandlerId, event: Event, slot: SlotId, unregistered: bool)
    | RemStore(id: HandlerId, event: Event, slot: SlotId, unregistered: bool, next: seq<HandlerId>)
    | RemUnlink(id: HandlerId, event: Event, slot: SlotId, unregistered: bool)
    | RemUnlock(id: HandlerId, slot: SlotId)
    | RemDone(id: HandlerId, removed: bool)
    // emit, serial, bail, parallel
    | DispSlot(event: Event)
    | DispLoad(event: Event, slot: SlotId)
    | DispDone(event: Event, handlers: seq<HandlerId>)

  /** `arena` lists the live registrations oldest first, `issued` the event for which each id was
      ever issued, and `heap` holds every slot ever created. */
  datatype Bus = Bus(arena: seq<Entry>, issued: seq<Event>, slots: map<Event, SlotId>, heap: seq<Slot>,
                     threads: map<Tid, Pc>)

  datatype Step =
    | CallRegister(event: Event) | CallRemove(id: HandlerId) | CallDispatch(event: Event)
    | GetSlot | Lock | CheckCurrent | Release | Insert | Load | Store | Unlock
    | Lookup | Take | Unlink | FindSlot | LoadFull

  // ---- The sequences ------------------------------------------------------------------------

  /** The arena's registrations for one event, in registration order. */
  function IdsOf(arena: seq<Entry>, event: Event): seq<HandlerId> {
    if arena == [] then [] else
      var last := arena[|arena| - 1];
      IdsOf(arena[..|arena| - 1], event) + if last.event == event then [last.id] else []
  }

  function Drop(arena: seq<Entry>, id: HandlerId): seq<Entry> {
    if arena == [] then [] else
      var last := arena[|arena| - 1];
      Drop(arena[..|arena| - 1], id) + if last.id == id then [] else [last]
  }

  predicate InArena(arena: seq<Entry>, id: HandlerId) {
    exists e :: e in arena && e.id == id
  }

  function EventIn(arena: seq<Entry>, id: HandlerId): Option<Event> {
    if arena == [] then None
    else if arena[|arena| - 1].id == id then Some(arena[|arena| - 1].event)
    else EventIn(arena[..|arena| - 1], id)
  }

  predicate UniqueIds(arena: seq<Entry>) {
    forall i, j :: 0 <= i < j < |arena| ==> arena[i].id != arena[j].id
  }

  // ---- The steps ----------------------------------------------------------------------------

  predicate Init(s: Bus) {
    s.arena == [] && s.issued == [] && s.slots == map[] && s.heap == [] && forall t <- s.threads :: s.threads[t] == Idle
  }

  function At(s: Bus, t: Tid, pc: Pc): Bus {
    s.(threads := s.threads[t := pc])
  }

  function SetWriter(s: Bus, k: SlotId, writer: Option<Tid>): Bus
    requires k < |s.heap|
  {
    s.(heap := s.heap[k := s.heap[k].(writer := writer)])
  }

  function SetSnapshot(s: Bus, k: SlotId, snapshot: seq<HandlerId>): Bus
    requires k < |s.heap|
  {
    s.(heap := s.heap[k := s.heap[k].(snapshot := snapshot)])
  }

  /** Looks the event up in the slot map, creating an empty slot if there is none. */
  function OpenSlot(s: Bus, event: Event): (Bus, SlotId) {
    if event in s.slots then (s, s.slots[event])
    else (s.(heap := s.heap + [Slot(event, [], None)], slots := s.slots[event := |s.heap|]), |s.heap|)
  }

  predicate NextStep(s: Bus, t: Tid, a: Step, n: Bus) {
    t in s.threads &&
    var pc := s.threads[t];
    match a
    case CallRegister(event) => pc == Idle && n == At(s, t, RegSlot(event))
    case CallRemove(id) => pc == Idle && n == At(s, t, RemLookup(id))
    case CallDispatch(event) => pc == Idle && n == At(s, t, DispSlot(event))
    case GetSlot =>
      (match pc
       case RegSlot(event) => var (o, k) := OpenSlot(s, event); n == At(o, t, RegLock(event, k))
       case RemSlot(id, event) => var (o, k) := OpenSlot(s, event); n == At(o, t, RemLock(id, event, k))
       case _ => false)
    case Lock =>
      (match pc
       case RegLock(event, k) =>
         k < |s.heap| && s.heap[k].writer == None && n == At(SetWriter(s, k, Some(t)), t, RegCheck(event, k))
       case RemLock(id, event, k) =>
         k < |s.heap| && s.heap[k].writer == None && n == At(SetWriter(s, k, Some(t)), t, RemTake(id, event, k))
       case _ => false)
    case CheckCurrent =>
      && pc.RegCheck?
      && n == At(s, t, if pc.event in s.slots && s.slots[pc.event] == pc.slot then RegInsert(pc.event, pc.slot)
                       else RegRelease(pc.event, pc.slot))
    case Release =>
      (match pc
       case RegRelease(event, k) => k < |s.heap| && n == At(SetWriter(s, k, None), t, RegSlot(event))
       case RemMiss(id, k) => k < |s.heap| && n == At(SetWriter(s, k, None), t, RemDone(id, false))
       case _ => false)
    case Insert =>
      && pc.RegInsert?
      && n == At(s, t, RegLoad(pc.event, pc.slot, |s.issued|))
              .(arena := s.arena + [Entry(|s.issued|, pc.event)], issued := s.issued + [pc.event])
    case Load =>
      (match pc
       case RegLoad(event, k, id) => k < |s.heap| && n == At(s, t, RegStore(event, k, id, s.heap[k].snapshot + [id]))
       case RemLoad(id, event, k, u) =>
         k < |s.heap| && n == At(s, t, RemStore(id, event, k, u, Without(s.heap[k].snapshot, id)))
       case _ => false)
    case Store =>
      (match pc
       case RegStore(event, k, id, next) => k < |s.heap| && n == At(SetSnapshot(s, k, next), t, RegUnlock(event, k, id))
       case RemStore(id, event, k, u, next) =>
         k < |s.heap| && n == At(SetSnapshot(s, k, next), t, RemUnlink(id, event, k, u))
       case _ => false)
    case Unlock =>
      (match pc
       case RegUnlock(event, k, id) => k < |s.heap| && n == At(SetWriter(s, k, None), t, RegDone(event, id))
       case RemUnlock(id, k) => k < |s.heap| && n == At(SetWriter(s, k, None), t, RemDone(id, true))
       case _ => false)
    case Lookup =>
      && pc.RemLookup?
      && n == At(s, t, match EventIn(s.arena, pc.id) case Some(event) => RemSlot(pc.id, event) case None => RemDone(pc.id, false))
    case Take =>
      && pc.RemTake?
      && (if EventIn(s.arena, pc.id) == None then n == At(s, t, RemMiss(pc.id, pc.slot))
          else var rest := Drop(s.arena, pc.id);
               n == At(s, t, RemLoad(pc.id, pc.event, pc.slot, IdsOf(rest, pc.event) == [])).(arena := rest))
    case Unlink =>
      && pc.RemUnlink? && pc.slot < |s.heap|
      && n == At(if pc.unregistered && s.heap[pc.slot].snapshot == [] then s.(slots := s.slots - {pc.event}) else s,
                 t, RemUnlock(pc.id, pc.slot))
    case FindSlot =>
      && pc.DispSlot?
      && n == At(s, t, if pc.event in s.slots then DispLoad(pc.event, s.slots[pc.event]) else DispDone(pc.event, []))
    case LoadFull =>
      pc.DispLoad? && pc.slot < |s.heap| && n == At(s, t, DispDone(pc.event, s.heap[pc.slot].snapshot))
  }

  ghost predicate Next(s: Bus, n: Bus) {
    exists t, a :: NextStep(s, t, a, n)
  }

  ghost predicate Linked(run: seq<Bus>, i: nat) {
    i + 1 < |run| ==> Next(run[i], run[i + 1])
  }

  ghost predicate Run(run: seq<Bus>) {
    |run| > 0 && Init(run[0]) && forall i :: Linked(run, i)
  }

  // ---- Sequence lemmas ----------------------------------------------------------------------

  lemma EventInArena(arena: seq<Entry>, id: HandlerId)
    ensures InArena(arena, id) <==> EventIn(arena, id).Some?
    ensures EventIn(arena, id).Some? ==> Entry(id, EventIn(arena, id).value) in arena
  {
    if arena != [] {
      EventInArena(arena[..|arena| - 1], id);
      assert arena == arena[..|arena| - 1] + [arena[|arena| - 1]];
    }
  }

  lemma IdsAppend(arena: seq<Entry>, e: Entry, event: Event)
    ensures IdsOf(arena + [e], event) == IdsOf(arena, event) + if e.event == event then [e.id] else []
  {
    assert (arena + [e])[..|arena|] == arena;
  }

  lemma IdsMembers(arena: seq<Entry>, event: Event, id: HandlerId)
    ensures id in IdsOf(arena, event) <==> Entry(id, event) in arena
  {
    if arena != [] {
      IdsMembers(arena[..|arena| - 1], event, id);
      assert arena == arena[..|arena| - 1] + [arena[|arena| - 1]];
    }
  }

  lemma DropMembers(arena: seq<Entry>, id: HandlerId, e: Entry)
    ensures e in Drop(arena, id) <==> e in arena && e.id != id
  {
    if arena != [] {
      DropMembers(arena[..|arena| - 1], id, e);
      assert arena == arena[..|arena| - 1] + [arena[|arena| - 1]];
    }
  }

  lemma DropUnique(arena: seq<Entry>, id: HandlerId)
    requires UniqueIds(arena)
    ensures UniqueIds(Drop(arena, id))
  {
    if arena != [] {
      var init, last := arena[..|arena| - 1], arena[|arena| - 1];
      DropUnique(init, id);
      forall i | 0 <= i < |Drop(init, id)| ensures Drop(init, id)[i].id != last.id {
        DropMembers(init, id, Drop(init, id)[i]);
      }
    }
  }

  lemma WithoutAppend(ids: seq<HandlerId>, x: HandlerId, id: HandlerId)
    ensures Without(ids + [x], id) == Without(ids, id) + if x == id then [] else [x]
  {
    assert (ids + [x])[..|ids|] == ids;
  }

  lemma {:induction false} IdsDrop(arena: seq<Entry>, id: HandlerId, event: Event)
    ensures IdsOf(Drop(arena, id), event) == Without(IdsOf(arena, event), id)
  {
    if arena != [] {
      var init, last := arena[..|arena| - 1], arena[|arena| - 1];
      IdsDrop(init, id, event);
      if last.id != id {
        IdsAppend(Drop(init, id), last, event);
      } else {
        assert Drop(arena, id) == Drop(init, id);
      }
      if last.event == event {
        WithoutAppend(IdsOf(init, event), last.id, id);
      } else {
        assert IdsOf(arena, event) == IdsOf(init, event);
      }
    }
  }

  // ---- Invariant ----------------------------------------------------------------------------

  predicate Current(s: Bus, k: SlotId) {
    k < |s.heap| && s.heap[k].event in s.slots && s.slots[s.heap[k].event] == k
  }

  /** Between the arena mutation and the snapshot store. */
  predicate Window(pc: Pc) {
    pc.RegLoad? || pc.RegStore? || pc.RemLoad? || pc.RemStore?
  }

  predicate HoldsWriter(pc: Pc) {
    || pc.RegCheck? || pc.RegRelease? || pc.RegInsert? || pc.RegLoad? || pc.RegStore? || pc.RegUnlock?
    || pc.RemTake? || pc.RemMiss? || pc.RemLoad? || pc.RemStore? || pc.RemUnlink? || pc.RemUnlock?
  }

  /** Past the check of the registration, or past the winning arena removal. */
  predicate NeedsCurrent(pc: Pc) {
    pc.RegInsert? || pc.RegUnlock? || Window(pc) || pc.RemUnlink?
  }

  function Ids(s: Bus, event: Event): seq<HandlerId> {
    IdsOf(s.arena, event)
  }

  /** The id has been removed and is in no snapshot, not even a forgotten one. */
  predicate Gone(s: Bus, id: HandlerId) {
    id < |s.issued| && !InArena(s.arena, id) && forall k :: 0 <= k < |s.heap| ==> id !in s.heap[k].snapshot
  }

  predicate Known(s: Bus, event: Event, k: SlotId) {
    k < |s.heap| && s.heap[k].event == event
  }

  predicate Owns(s: Bus, t: Tid, k: SlotId) {
    k < |s.heap| && s.heap[k].writer == Some(t)
  }

  predicate IssuedFor(s: Bus, id: HandlerId, event: Event) {
    id < |s.issued| && s.issued[id] == event
  }

  /** A removal between its arena removal and its snapshot store. */
  predicate Removing(s: Bus, id: HandlerId, event: Event, k: SlotId)
    requires k < |s.heap|
  {
    && IssuedFor(s, id, event) && !InArena(s.arena, id)
    && id in s.heap[k].snapshot && Ids(s, event) == Without(s.heap[k].snapshot, id)
  }

  predicate PcOk(s: Bus, t: Tid, pc: Pc) {
    match pc
    case RegLock(event, k) => Known(s, event, k)
    case RegCheck(event, k) => Known(s, event, k) && Owns(s, t, k)
    case RegRelease(event, k) => Known(s, event, k) && Owns(s, t, k)
    case RegInsert(event, k) => Known(s, event, k) && Owns(s, t, k) && Current(s, k)
    case RegLoad(event, k, id) =>
      && Known(s, event, k) && Owns(s, t, k) && Current(s, k) && IssuedFor(s, id, event)
      && Ids(s, event) == s.heap[k].snapshot + [id]
    case RegStore(event, k, id, next) =>
      && Known(s, event, k) && Owns(s, t, k) && Current(s, k) && IssuedFor(s, id, event)
      && Ids(s, event) == s.heap[k].snapshot + [id] == next
    case RegUnlock(event, k, id) => Known(s, event, k) && Owns(s, t, k) && Current(s, k) && IssuedFor(s, id, event)
    case RegDone(event, id) => IssuedFor(s, id, event)
    case RemSlot(id, event) => IssuedFor(s, id, event)
    case RemLock(id, event, k) => Known(s, event, k) && IssuedFor(s, id, event) && (InArena(s.arena, id) ==> Current(s, k))
    case RemTake(id, event, k) =>
      Known(s, event, k) && Owns(s, t, k) && IssuedFor(s, id, event) && (InArena(s.arena, id) ==> Current(s, k))
    case RemMiss(id, k) => Owns(s, t, k)
    case RemLoad(id, event, k, u) =>
      Known(s, event, k) && Owns(s, t, k) && Current(s, k) && Removing(s, id, event, k) && (u <==> Ids(s, event) == [])
    case RemStore(id, event, k, u, next) =>
      && Known(s, event, k) && Owns(s, t, k) && Current(s, k) && Removing(s, id, event, k)
      && (u <==> Ids(s, event) == []) && Ids(s, event) == next
    case RemUnlink(id, event, k, u) =>
      Known(s, event, k) && Owns(s, t, k) && Current(s, k) && Gone(s, id) && (u <==> Ids(s, event) == [])
    case RemUnlock(id, k) => Owns(s, t, k) && Gone(s, id)
    case RemDone(id, removed) => removed ==> Gone(s, id)
    case DispLoad(event, k) => Known(s, event, k)
    case _ => true
  }

  predicate SlotOk(s: Bus, k: SlotId)
    requires k < |s.heap|
  {
    var slot := s.heap[k];
    && (slot.writer.Some? ==> slot.writer.value in s.threads && HoldsWriter(s.threads[slot.writer.value])
                              && s.threads[slot.writer.value].slot == k)
    && (if !Current(s, k) then slot.snapshot == []
        else (slot.writer.Some? && Window(s.threads[slot.writer.value])) || slot.snapshot == Ids(s, slot.event))
    && forall id :: id in slot.snapshot ==> IssuedFor(s, id, slot.event)
  }

  ghost predicate ArenaOk(s: Bus) {
    && UniqueIds(s.arena)
    && (forall e :: e in s.arena ==> IssuedFor(s, e.id, e.event) && e.event in s.slots)
    && (forall event <- s.slots :: Known(s, event, s.slots[event]))
  }

  ghost predicate SlotsOk(s: Bus) {
    forall k :: 0 <= k < |s.heap| ==> SlotOk(s, k)
  }

  ghost predicate ThreadsOk(s: Bus) {
    forall t <- s.threads :: PcOk(s, t, s.threads[t])
  }

  ghost predicate Inv(s: Bus) {
    ArenaOk(s) && SlotsOk(s) && ThreadsOk(s)
  }

  lemma InitInv(s: Bus)
    requires Init(s)
    ensures Inv(s)
  {
  }

  /** A thread that keeps its lock and its window open may move on freely. */
  lemma MoveKeeps(s: Bus, t: Tid, pc: Pc)
    requires Inv(s) && t in s.threads
    requires HoldsWriter(s.threads[t]) ==> HoldsWriter(pc) && pc.slot == s.threads[t].slot
    requires Window(s.threads[t]) ==> Window(pc)
    requires PcOk(At(s, t, pc), t, pc)
    ensures Inv(At(s, t, pc))
  {
    var n := At(s, t, pc);
    forall k | 0 <= k < |n.heap| ensures SlotOk(n, k) {
      assert SlotOk(s, k);
      assert Current(n, k) == Current(s, k);
    }
    forall u | u in n.threads ensures PcOk(n, u, n.threads[u]) {
      if u != t {
        assert PcOk(s, u, s.threads[u]);
        SameBus(s, n, u, s.threads[u]);
      }
    }
  }

  /** What a thread relies on does not depend on where other threads are. */
  lemma SameBus(s: Bus, n: Bus, t: Tid, pc: Pc)
    requires n == s.(threads := n.threads) && PcOk(s, t, pc)
    ensures PcOk(n, t, pc)
  {
  }

  lemma OpenSlotKeeps(s: Bus, event: Event)
    requires Inv(s)
    ensures var (o, k) := OpenSlot(s, event); Inv(o) && Known(o, event, k) && Current(o, k) && o.threads == s.threads
    ensures OpenSlot(s, event).0.arena == s.arena && OpenSlot(s, event).0.issued == s.issued
  {
    var (o, k) := OpenSlot(s, event);
    if event !in s.slots {
      NoEventNoIds(s, event);
      forall j | 0 <= j < |o.heap| ensures SlotOk(o, j) {
        if j < |s.heap| {
          assert SlotOk(s, j);
          assert o.heap[j] == s.heap[j];
          assert Current(o, j) == Current(s, j);
        }
      }
      forall u | u in o.threads ensures PcOk(o, u, o.threads[u]) {
        assert PcOk(s, u, s.threads[u]);
        GrowHeap(s, o, u, s.threads[u]);
      }
    }
  }

  lemma NoEventNoIds(s: Bus, event: Event)
    requires Inv(s) && event !in s.slots
    ensures Ids(s, event) == []
  {
    if Ids(s, event) != [] {
      IdsMembers(s.arena, event, Ids(s, event)[0]);
      assert false;
    }
  }

  lemma GrowHeap(s: Bus, o: Bus, t: Tid, pc: Pc)
    requires PcOk(s, t, pc) && o.arena == s.arena && o.issued == s.issued
    requires exists event :: event !in s.slots && o.slots == s.slots[event := |s.heap|] && o.heap == s.heap + [Slot(event, [], None)]
    ensures PcOk(o, t, pc)
  {
    assert forall k :: 0 <= k < |s.heap| ==> o.heap[k] == s.heap[k] && (Current(s, k) ==> Current(o, k));
  }

  lemma GetSlotInv(s: Bus, t: Tid, n: Bus)
    requires Inv(s) && NextStep(s, t, GetSlot, n)
    ensures Inv(n)
  {
    var pc := s.threads[t];
    assert PcOk(s, t, pc);
    var (o, k) := OpenSlot(s, pc.event);
    OpenSlotKeeps(s, pc.event);
    assert PcOk(o, t, n.threads[t]);
    MoveKeeps(o, t, n.threads[t]);
  }

  predicate WriterMoves(s: Bus, t: Tid, k: SlotId, writer: Option<Tid>, pc: Pc) {
    && t in s.threads && k < |s.heap|
    && (|| (s.heap[k].writer == None && writer == Some(t) && HoldsWriter(pc) && pc.slot == k && !HoldsWriter(s.threads[t]))
        || (Owns(s, t, k) && writer == None && HoldsWriter(s.threads[t]) && !Window(s.threads[t]) && !HoldsWriter(pc)))
  }

  lemma WriterSlots(s: Bus, t: Tid, k: SlotId, writer: Option<Tid>, pc: Pc)
    requires SlotsOk(s) && WriterMoves(s, t, k, writer, pc)
    ensures SlotsOk(At(SetWriter(s, k, writer), t, pc))
  {
    var n := At(SetWriter(s, k, writer), t, pc);
    assert SlotOk(s, k);
    forall j | 0 <= j < |n.heap| ensures SlotOk(n, j) {
      assert SlotOk(s, j);
      assert Current(n, j) == Current(s, j);
    }
  }

  lemma WriterThreads(s: Bus, t: Tid, k: SlotId, writer: Option<Tid>, pc: Pc)
    requires ThreadsOk(s) && WriterMoves(s, t, k, writer, pc) && PcOk(At(SetWriter(s, k, writer), t, pc), t, pc)
    ensures ThreadsOk(At(SetWriter(s, k, writer), t, pc))
  {
    var n := At(SetWriter(s, k, writer), t, pc);
    SameSlots(s, n);
    forall u | u in n.threads && u != t ensures PcOk(n, u, n.threads[u]) {
      assert PcOk(s, u, s.threads[u]);
      assert forall j :: Owns(s, u, j) ==> Owns(n, u, j);
    }
  }

  /** Taking or releasing a writer lock matters to its owner only. */
  lemma WriterInv(s: Bus, t: Tid, k: SlotId, writer: Option<Tid>, pc: Pc)
    requires Inv(s) && WriterMoves(s, t, k, writer, pc) && PcOk(At(SetWriter(s, k, writer), t, pc), t, pc)
    ensures Inv(At(SetWriter(s, k, writer), t, pc))
  {
    var n := At(SetWriter(s, k, writer), t, pc);
    WriterSlots(s, t, k, writer, pc);
    WriterThreads(s, t, k, writer, pc);
    assert forall event <- n.slots :: Known(s, event, s.slots[event]);
  }

  /** Only writer fields differ. */
  lemma SameSlots(s: Bus, n: Bus)
    requires n.arena == s.arena && n.issued == s.issued && n.slots == s.slots && |n.heap| == |s.heap|
    requires forall j :: 0 <= j < |s.heap| ==> n.heap[j].snapshot == s.heap[j].snapshot && n.heap[j].event == s.heap[j].event
    ensures forall j :: Current(n, j) == Current(s, j)
    ensures forall id :: Gone(n, id) == Gone(s, id)
  {
  }

  lemma LockingInv(s: Bus, t: Tid, a: Step, n: Bus)
    requires Inv(s) && NextStep(s, t, a, n) && (a.Lock? || a.Release? || a.Unlock?)
    ensures Inv(n)
  {
    var pc := s.threads[t];
    assert PcOk(s, t, pc);
    SameSlots(s, n);
    WriterInv(s, t, pc.slot, if a.Lock? then Some(t) else None, n.threads[t]);
  }

  /** Whoever works on a slot that must be current, works on an event of its own. */
  lemma OwnEvent(s: Bus, t: Tid, u: Tid)
    requires ThreadsOk(s) && t in s.threads && u in s.threads && t != u
    requires NeedsCurrent(s.threads[t]) && NeedsCurrent(s.threads[u])
    ensures s.threads[t].event != s.threads[u].event
  {
    assert PcOk(s, t, s.threads[t]);
    assert PcOk(s, u, s.threads[u]);
  }

  lemma InsertOther(s: Bus, n: Bus, u: Tid, qc: Pc, event: Event)
    requires PcOk(s, u, qc) && n.heap == s.heap && n.slots == s.slots
    requires n.issued == s.issued + [event]
    requires forall x :: x != event ==> Ids(n, x) == Ids(s, x)
    requires forall id :: InArena(n.arena, id) <==> InArena(s.arena, id) || id == |s.issued|
    requires NeedsCurrent(qc) ==> qc.event != event
    ensures PcOk(n, u, qc)
  {
    assert forall k :: Current(n, k) == Current(s, k);
    assert forall id :: Gone(s, id) ==> Gone(n, id);
  }

  lemma InsertArena(s: Bus, t: Tid, n: Bus)
    requires Inv(s) && NextStep(s, t, Insert, n)
    ensures UniqueIds(n.arena) && n.issued == s.issued + [s.threads[t].event]
    ensures forall x :: Ids(n, x) == Ids(s, x) + if x == s.threads[t].event then [|s.issued|] else []
    ensures forall id :: InArena(n.arena, id) <==> InArena(s.arena, id) || id == |s.issued|
  {
    var e := Entry(|s.issued|, s.threads[t].event);
    forall x ensures Ids(n, x) == Ids(s, x) + if x == e.event then [e.id] else [] {
      IdsAppend(s.arena, e, x);
    }
    assert e in n.arena;
    assert forall x :: x in n.arena <==> x in s.arena || x == e;
  }

  lemma InsertSlots(s: Bus, t: Tid, n: Bus)
    requires Inv(s) && NextStep(s, t, Insert, n)
    ensures forall k :: 0 <= k < |n.heap| ==> SlotOk(n, k)
    ensures PcOk(n, t, n.threads[t])
  {
    var pc := s.threads[t];
    assert PcOk(s, t, pc);
    assert SlotOk(s, pc.slot);
    InsertArena(s, t, n);
    forall k | 0 <= k < |n.heap| ensures SlotOk(n, k) {
      assert SlotOk(s, k);
      assert Current(n, k) == Current(s, k);
    }
  }

  lemma InsertInv(s: Bus, t: Tid, n: Bus)
    requires Inv(s) && NextStep(s, t, Insert, n)
    ensures Inv(n)
  {
    var pc := s.threads[t];
    assert PcOk(s, t, pc);
    InsertArena(s, t, n);
    InsertSlots(s, t, n);
    forall u | u in n.threads && u != t ensures PcOk(n, u, n.threads[u]) {
      assert PcOk(s, u, s.threads[u]);
      if NeedsCurrent(s.threads[u]) { OwnEvent(s, t, u); }
      InsertOther(s, n, u, s.threads[u], pc.event);
    }
  }

  lemma TakeOther(s: Bus, n: Bus, u: Tid, qc: Pc, event: Event)
    requires PcOk(s, u, qc) && n.heap == s.heap && n.slots == s.slots && n.issued == s.issued
    requires forall x :: x != event ==> Ids(n, x) == Ids(s, x)
    requires forall id :: InArena(n.arena, id) ==> InArena(s.arena, id)
    requires NeedsCurrent(qc) ==> qc.event != event
    ensures PcOk(n, u, qc)
  {
    assert forall k :: Current(n, k) == Current(s, k);
    assert forall id :: Gone(s, id) ==> Gone(n, id);
  }

  lemma TakeArena(s: Bus, id: HandlerId, event: Event)
    requires Inv(s) && Entry(id, event) in s.arena
    ensures UniqueIds(Drop(s.arena, id))
    ensures forall e :: e in Drop(s.arena, id) <==> e in s.arena && e.id != id
  {
    DropUnique(s.arena, id);
    forall e ensures e in Drop(s.arena, id) <==> e in s.arena && e.id != id { DropMembers(s.arena, id, e); }
  }

  lemma TakeIds(s: Bus, id: HandlerId, event: Event, x: Event)
    requires Inv(s) && Entry(id, event) in s.arena
    ensures IdsOf(Drop(s.arena, id), x) == if x == event then Without(Ids(s, x), id) else Ids(s, x)
  {
    IdsDrop(s.arena, id, x);
    if x != event {
      OnlyEvent(s, Entry(id, event), x);
      WithoutAbsent(Ids(s, x), id);
    }
  }

  lemma TakeFrame(s: Bus, t: Tid, n: Bus)
    requires NextStep(s, t, Take, n) && EventIn(s.arena, s.threads[t].id).Some?
    ensures s.threads[t].RemTake? && n.arena == Drop(s.arena, s.threads[t].id)
    ensures n.heap == s.heap && n.slots == s.slots && n.issued == s.issued
    ensures var pc := s.threads[t];
            n.threads == s.threads[t := RemLoad(pc.id, pc.event, pc.slot, IdsOf(n.arena, pc.event) == [])]
  {
  }

  /** Whoever takes an entry out of the arena knows its event and holds its slot. */
  lemma TakerKnows(s: Bus, t: Tid)
    requires Inv(s) && t in s.threads && s.threads[t].RemTake? && EventIn(s.arena, s.threads[t].id).Some?
    ensures var pc := s.threads[t];
            Current(s, pc.slot) && Known(s, pc.event, pc.slot) && Entry(pc.id, pc.event) in s.arena && pc.id in Ids(s, pc.event)
  {
    var pc := s.threads[t];
    assert PcOk(s, t, pc);
    EventInArena(s.arena, pc.id);
    IdsMembers(s.arena, pc.event, pc.id);
  }

  lemma TakeFacts(s: Bus, t: Tid, n: Bus)
    requires Inv(s) && NextStep(s, t, Take, n) && EventIn(s.arena, s.threads[t].id).Some?
    ensures var pc := s.threads[t];
            && UniqueIds(n.arena) && Current(s, pc.slot) && Known(s, pc.event, pc.slot)
            && Entry(pc.id, pc.event) in s.arena && pc.id in Ids(s, pc.event)
            && (forall e :: e in n.arena <==> e in s.arena && e.id != pc.id)
            && (forall x :: Ids(n, x) == if x == pc.event then Without(Ids(s, x), pc.id) else Ids(s, x))
  {
    var pc := s.threads[t];
    TakeFrame(s, t, n);
    TakerKnows(s, t);
    TakeArena(s, pc.id, pc.event);
    forall x ensures Ids(n, x) == if x == pc.event then Without(Ids(s, x), pc.id) else Ids(s, x) {
      TakeIds(s, pc.id, pc.event, x);
    }
  }

  lemma OnlyEvent(s: Bus, e: Entry, event: Event)
    requires Inv(s) && e in s.arena && event != e.event
    ensures e.id !in Ids(s, event)
  {
    IdsMembers(s.arena, event, e.id);
  }

  lemma TakeSlot(s: Bus, t: Tid, n: Bus, k: SlotId)
    requires t in s.threads && s.threads[t].RemTake? && PcOk(s, t, s.threads[t]) && k < |s.heap| && SlotOk(s, k)
    requires Current(s, s.threads[t].slot)
    requires n.heap == s.heap && n.slots == s.slots && n.issued == s.issued
    requires t in n.threads && n.threads == s.threads[t := n.threads[t]] && n.threads[t].RemLoad? && n.threads[t].slot == s.threads[t].slot
    requires s.heap[k].event != s.threads[t].event ==> Ids(n, s.heap[k].event) == Ids(s, s.heap[k].event)
    ensures SlotOk(n, k)
  {
    assert Current(n, k) == Current(s, k);
    if k == s.threads[t].slot { assert s.heap[k].writer == Some(t); }
  }

  lemma TakeOwn(s: Bus, t: Tid, n: Bus)
    requires t in s.threads && s.threads[t].RemTake? && PcOk(s, t, s.threads[t])
    requires var pc := s.threads[t]; Current(s, pc.slot) && SlotOk(s, pc.slot) && pc.id in Ids(s, pc.event)
    requires n.heap == s.heap && n.slots == s.slots && n.issued == s.issued
    requires var pc := s.threads[t];
             !InArena(n.arena, pc.id) && Ids(n, pc.event) == Without(Ids(s, pc.event), pc.id)
    ensures var pc := s.threads[t]; PcOk(n, t, RemLoad(pc.id, pc.event, pc.slot, IdsOf(n.arena, pc.event) == []))
  {
    assert s.heap[s.threads[t].slot].snapshot == Ids(s, s.threads[t].event);
  }

  /** What has changed when the entry is out. */
  ghost predicate Took(s: Bus, t: Tid, n: Bus) {
    && t in s.threads && s.threads[t].RemTake? && PcOk(s, t, s.threads[t])
    && n.heap == s.heap && n.slots == s.slots && n.issued == s.issued
    && var pc := s.threads[t];
       && Current(s, pc.slot) && Known(s, pc.event, pc.slot) && InArena(s.arena, pc.id) && pc.id in Ids(s, pc.event)
       && n.threads == s.threads[t := RemLoad(pc.id, pc.event, pc.slot, IdsOf(n.arena, pc.event) == [])]
       && !InArena(n.arena, pc.id) && (forall id :: InArena(n.arena, id) ==> InArena(s.arena, id))
       && Ids(n, pc.event) == Without(Ids(s, pc.event), pc.id) && (forall x :: x != pc.event ==> Ids(n, x) == Ids(s, x))
  }

  lemma Takes(s: Bus, t: Tid, n: Bus)
    requires Inv(s) && NextStep(s, t, Take, n) && EventIn(s.arena, s.threads[t].id).Some?
    ensures Took(s, t, n)
  {
    TakeFrame(s, t, n);
    TakeFacts(s, t, n);
    EventInArena(s.arena, s.threads[t].id);
    assert PcOk(s, t, s.threads[t]);
  }

  lemma TakeSlots(s: Bus, t: Tid, n: Bus)
    requires SlotsOk(s) && Took(s, t, n)
    ensures SlotsOk(n)
  {
    forall k | 0 <= k < |n.heap| ensures SlotOk(n, k) {
      assert SlotOk(s, k);
      TakeSlot(s, t, n, k);
    }
  }

  lemma TakeThreads(s: Bus, t: Tid, n: Bus)
    requires SlotsOk(s) && ThreadsOk(s) && Took(s, t, n)
    ensures ThreadsOk(n)
  {
    forall u | u in n.threads ensures PcOk(n, u, n.threads[u]) {
      if u == t {
        assert SlotOk(s, s.threads[t].slot);
        TakeOwn(s, t, n);
      } else {
        assert PcOk(s, u, s.threads[u]);
        if NeedsCurrent(s.threads[u]) { TakerOwnEvent(s, t, u); }
        TakeOther(s, n, u, s.threads[u], s.threads[t].event);
      }
    }
  }

  lemma TakeArenaOk(s: Bus, t: Tid, n: Bus)
    requires ArenaOk(s) && Took(s, t, n) && UniqueIds(n.arena) && forall e <- n.arena :: e in s.arena
    ensures ArenaOk(n)
  {
    assert forall event <- n.slots :: Known(s, event, s.slots[event]);
  }

  lemma TakeInv(s: Bus, t: Tid, n: Bus)
    requires Inv(s) && NextStep(s, t, Take, n) && EventIn(s.arena, s.threads[t].id).Some?
    ensures Inv(n)
  {
    Takes(s, t, n);
    TakenFrom(s, t, n);
    TakeArenaOk(s, t, n);
    TakeSlots(s, t, n);
    TakeThreads(s, t, n);
  }

  lemma TakenFrom(s: Bus, t: Tid, n: Bus)
    requires Inv(s) && NextStep(s, t, Take, n) && EventIn(s.arena, s.threads[t].id).Some?
    ensures UniqueIds(n.arena) && forall e <- n.arena :: e in s.arena
  {
    TakeFacts(s, t, n);
  }

  lemma TakerOwnEvent(s: Bus, t: Tid, u: Tid)
    requires ThreadsOk(s) && t in s.threads && u in s.threads && t != u
    requires s.threads[t].RemTake? && InArena(s.arena, s.threads[t].id) && NeedsCurrent(s.threads[u])
    ensures s.threads[t].event != s.threads[u].event
  {
    assert PcOk(s, t, s.threads[t]);
    assert PcOk(s, u, s.threads[u]);
  }

  lemma StoreOther(s: Bus, n: Bus, u: Tid, qc: Pc, k: SlotId)
    requires PcOk(s, u, qc) && k < |s.heap| == |n.heap| && n.arena == s.arena && n.slots == s.slots && n.issued == s.issued
    requires n.heap == s.heap[k := s.heap[k].(snapshot := n.heap[k].snapshot)]
    requires forall id :: id in n.heap[k].snapshot ==> InArena(s.arena, id)
    requires !Owns(s, u, k)
    ensures PcOk(n, u, qc)
  {
    assert forall j :: Current(n, j) == Current(s, j);
    assert forall id :: Gone(s, id) ==> Gone(n, id);
  }

  lemma StoreSlots(s: Bus, t: Tid, n: Bus)
    requires Inv(s) && NextStep(s, t, Store, n)
    ensures forall k :: 0 <= k < |n.heap| ==> SlotOk(n, k)
    ensures PcOk(n, t, n.threads[t])
  {
    var pc := s.threads[t];
    assert PcOk(s, t, pc);
    assert SlotOk(s, pc.slot);
    assert pc.next == Ids(s, pc.event);
    IdsKnown(s, pc.event);
    forall k | 0 <= k < |n.heap| ensures SlotOk(n, k) {
      assert SlotOk(s, k);
      assert Current(n, k) == Current(s, k);
    }
    if pc.RemStore? { StoredGone(s, t, n); }
  }

  lemma StoreInv(s: Bus, t: Tid, n: Bus)
    requires Inv(s) && NextStep(s, t, Store, n)
    ensures Inv(n)
  {
    var pc := s.threads[t];
    assert PcOk(s, t, pc);
    StoreSlots(s, t, n);
    IdsKnown(s, pc.event);
    forall u | u in n.threads && u != t ensures PcOk(n, u, n.threads[u]) {
      assert PcOk(s, u, s.threads[u]);
      StoreOther(s, n, u, s.threads[u], pc.slot);
    }
  }

  lemma IdsKnown(s: Bus, event: Event)
    requires Inv(s)
    ensures forall id :: id in Ids(s, event) ==> IssuedFor(s, id, event) && InArena(s.arena, id)
  {
    forall id | id in Ids(s, event) ensures IssuedFor(s, id, event) && InArena(s.arena, id) {
      IdsMembers(s.arena, event, id);
    }
  }

  /** After the removal's store the id is in no snapshot: other slots are for other events,
      or forgotten and empty. */
  lemma StoredGone(s: Bus, t: Tid, n: Bus)
    requires Inv(s) && NextStep(s, t, Store, n) && s.threads[t].RemStore?
    ensures Gone(n, s.threads[t].id)
  {
    var pc := s.threads[t];
    assert PcOk(s, t, pc);
    forall k | 0 <= k < |n.heap| ensures pc.id !in n.heap[k].snapshot {
      assert SlotOk(s, k);
      if k == pc.slot {
        WithoutMembers(s.heap[k].snapshot, pc.id, pc.id);
      }
    }
  }

  lemma UnlinkOther(s: Bus, n: Bus, u: Tid, qc: Pc, k: SlotId, event: Event)
    requires PcOk(s, u, qc) && Known(s, event, k) && n.arena == s.arena && n.issued == s.issued && n.heap == s.heap
    requires n.slots == s.slots - {event} && Current(s, k)
    requires NeedsCurrent(qc) ==> qc.event != event
    requires forall id :: InArena(s.arena, id) ==> !IssuedFor(s, id, event)
    ensures PcOk(n, u, qc)
  {
    assert forall j :: 0 <= j < |s.heap| && s.heap[j].event != event ==> Current(n, j) == Current(s, j);
    assert forall id :: Gone(s, id) ==> Gone(n, id);
  }

  /** The emptied slot of the event is taken out of the map. */
  ghost predicate Unlinks(s: Bus, t: Tid, n: Bus) {
    && t in s.threads && s.threads[t].RemUnlink? && PcOk(s, t, s.threads[t])
    && n.arena == s.arena && n.issued == s.issued && n.heap == s.heap
    && var pc := s.threads[t];
       && n.slots == s.slots - {pc.event} && n.threads == s.threads[t := RemUnlock(pc.id, pc.slot)]
       && s.heap[pc.slot].snapshot == [] && forall e <- s.arena :: e.event != pc.event
  }

  lemma UnlinkFrame(s: Bus, t: Tid, n: Bus)
    requires Inv(s) && NextStep(s, t, Unlink, n) && s.threads[t].unregistered && s.heap[s.threads[t].slot].snapshot == []
    ensures Unlinks(s, t, n)
  {
    var pc := s.threads[t];
    assert PcOk(s, t, pc);
    forall e | e in s.arena ensures e.event != pc.event { IdsMembers(s.arena, pc.event, e.id); }
  }

  lemma UnlinkSlots(s: Bus, t: Tid, n: Bus)
    requires SlotsOk(s) && Unlinks(s, t, n)
    ensures SlotsOk(n)
  {
    var pc := s.threads[t];
    forall k | 0 <= k < |n.heap| ensures SlotOk(n, k) {
      assert SlotOk(s, k);
      if s.heap[k].event != pc.event { assert Current(n, k) == Current(s, k); }
    }
  }

  lemma UnlinkThreads(s: Bus, t: Tid, n: Bus)
    requires ArenaOk(s) && ThreadsOk(s) && Unlinks(s, t, n)
    ensures ThreadsOk(n)
  {
    var pc := s.threads[t];
    forall u | u in n.threads && u != t ensures PcOk(n, u, n.threads[u]) {
      assert PcOk(s, u, s.threads[u]);
      if NeedsCurrent(s.threads[u]) { OwnEvent(s, t, u); }
      UnlinkOther(s, n, u, s.threads[u], pc.slot, pc.event);
    }
  }

  lemma UnlinkInv(s: Bus, t: Tid, n: Bus)
    requires Inv(s) && NextStep(s, t, Unlink, n)
    ensures Inv(n)
  {
    var pc := s.threads[t];
    if !(pc.unregistered && s.heap[pc.slot].snapshot == []) {
      assert PcOk(s, t, pc);
      MoveKeeps(s, t, n.threads[t]);
    } else {
      UnlinkFrame(s, t, n);
      UnlinkSlots(s, t, n);
      UnlinkThreads(s, t, n);
      assert forall event <- n.slots :: Known(s, event, s.slots[event]);
    }
  }

  predicate OnlyReads(s: Bus, t: Tid, a: Step) {
    match a
    case GetSlot | Lock | Release | Unlock | Insert | Store | Unlink => false
    case Take => t in s.threads && s.threads[t].RemTake? && EventIn(s.arena, s.threads[t].id) == None
    case _ => true
  }

  lemma ReadingMoves(s: Bus, t: Tid, a: Step, n: Bus)
    requires NextStep(s, t, a, n) && OnlyReads(s, t, a)
    ensures t in s.threads && t in n.threads && n == At(s, t, n.threads[t])
  {
  }

  /** Steps that only read shared state. */
  lemma ReadingInv(s: Bus, t: Tid, a: Step, n: Bus)
    requires Inv(s) && NextStep(s, t, a, n) && OnlyReads(s, t, a)
    ensures Inv(n)
  {
    ReadingMoves(s, t, a, n);
    var pc := s.threads[t];
    assert PcOk(s, t, pc);
    if a == Lookup { EventInArena(s.arena, pc.id); }
    MoveKeeps(s, t, n.threads[t]);
  }

  lemma NextInv(s: Bus, t: Tid, a: Step, n: Bus)
    requires Inv(s) && NextStep(s, t, a, n)
    ensures Inv(n)
  {
    if OnlyReads(s, t, a) {
      ReadingInv(s, t, a, n);
    } else {
      match a {
        case GetSlot => GetSlotInv(s, t, n);
        case Lock => LockingInv(s, t, a, n);
        case Release => LockingInv(s, t, a, n);
        case Unlock => LockingInv(s, t, a, n);
        case Insert => InsertInv(s, t, n);
        case Store => StoreInv(s, t, n);
        case Unlink => UnlinkInv(s, t, n);
        case Take => TakeInv(s, t, n);
      }
    }
  }

  // ---- Agreement ----------------------------------------------------------------------------

  lemma {:induction false} RunInv(run: seq<Bus>, i: nat)
    requires Run(run) && i < |run|
    ensures Inv(run[i])
  {
    if i == 0 {
      InitInv(run[0]);
    } else {
      RunInv(run, i - 1);
      var t, a := StepAt(run, i - 1);
      NextInv(run[i - 1], t, a, run[i]);
    }
  }

  lemma StepAt(run: seq<Bus>, i: nat) returns (t: Tid, a: Step)
    requires Run(run) && i + 1 < |run|
    ensures NextStep(run[i], t, a, run[i + 1])
  {
    assert Linked(run, i);
    t, a :| NextStep(run[i], t, a, run[i + 1]);
  }

  /** What a dispatch that runs alone finds for the event. */
  function View(s: Bus, event: Event): seq<HandlerId> {
    if event in s.slots && s.slots[event] < |s.heap| then s.heap[s.slots[event]].snapshot else []
  }

  /** Some writer has changed the arena for the event and not yet published. */
  ghost predicate Windowed(s: Bus, event: Event) {
    exists t :: t in s.threads && Window(s.threads[t]) && s.threads[t].event == event
  }

  /** One registration or one removal apart. */
  predicate OneApart(arena: seq<HandlerId>, view: seq<HandlerId>) {
    || (|arena| == |view| + 1 && arena[..|view|] == view)
    || exists id :: id in view && arena == Without(view, id)
  }

  lemma WindowedApart(s: Bus, t: Tid, event: Event)
    requires t in s.threads && Window(s.threads[t]) && s.threads[t].event == event && PcOk(s, t, s.threads[t])
    ensures event in s.slots && View(s, event) != Ids(s, event) && OneApart(Ids(s, event), View(s, event))
  {
    var pc := s.threads[t];
    if pc.RemLoad? || pc.RemStore? {
      WithoutShrinks(View(s, event), pc.id);
      assert pc.id in View(s, event) && Ids(s, event) == Without(View(s, event), pc.id);
    }
  }

  lemma Agreement(s: Bus, event: Event)
    requires Inv(s)
    ensures Ids(s, event) != [] ==> event in s.slots
    ensures if Windowed(s, event) then View(s, event) != Ids(s, event) && OneApart(Ids(s, event), View(s, event))
            else View(s, event) == Ids(s, event)
  {
    if Windowed(s, event) {
      var t :| t in s.threads && Window(s.threads[t]) && s.threads[t].event == event;
      WindowedApart(s, t, event);
    } else {
      QuietAgrees(s, event);
    }
  }

  lemma QuietAgrees(s: Bus, event: Event)
    requires Inv(s) && !Windowed(s, event)
    ensures View(s, event) == Ids(s, event) && (Ids(s, event) != [] ==> event in s.slots)
  {
    if event !in s.slots {
      NoEventNoIds(s, event);
    } else {
      var k := s.slots[event];
      assert Known(s, event, k) && SlotOk(s, k);
      var writer := s.heap[k].writer;
      assert writer.Some? ==> PcOk(s, writer.value, s.threads[writer.value]);
    }
  }

  /** The bus agrees with its arena in every reachable state: a registered event has a slot;
      outside a writer's window the slot's snapshot is exactly the arena's ids for the event in
      registration order; inside, exactly one registration or removal is still to be published. */
  lemma BusAgreement(run: seq<Bus>, i: nat, event: Event)
    requires Run(run) && i < |run|
    ensures var s := run[i];
            && (Ids(s, event) != [] ==> event in s.slots)
            && (if Windowed(s, event) then View(s, event) != Ids(s, event) && OneApart(Ids(s, event), View(s, event))
                else View(s, event) == Ids(s, event))
  {
    RunInv(run, i);
    Agreement(run[i], event);
  }

  // ---- Nothing is lost, nothing comes back ---------------------------------------------------

  /** Only the arena removal of that very id takes a registration away. */
  lemma OnlyTakeRemoves(s: Bus, t: Tid, a: Step, n: Bus, e: Entry)
    requires Inv(s) && NextStep(s, t, a, n) && e in s.arena
    ensures e in n.arena || (a == Take && s.threads[t].RemTake? && s.threads[t].id == e.id)
  {
    if a == Take && EventIn(s.arena, s.threads[t].id).Some? {
      TakeFacts(s, t, n);
    }
  }

  ghost predicate RemovalOf(s: Bus, id: HandlerId) {
    exists t :: t in s.threads && s.threads[t].RemTake? && s.threads[t].id == id
  }

  predicate Registers(pc: Pc, e: Entry) {
    || (pc.RegLoad? && pc.event == e.event && pc.id == e.id)
    || (pc.RegStore? && pc.event == e.event && pc.id == e.id)
    || (pc.RegUnlock? && pc.event == e.event && pc.id == e.id)
    || (pc.RegDone? && pc.event == e.event && pc.id == e.id)
  }

  lemma RegisterStep(s: Bus, u: Tid, a: Step, n: Bus, t: Tid, e: Entry)
    requires Inv(s) && NextStep(s, u, a, n) && t in n.threads && Registers(n.threads[t], e)
    ensures t in s.threads && (Registers(s.threads[t], e) || e in n.arena)
  {
    if t != u {
      assert n.threads[t] == s.threads[t];
    }
  }

  /** A registration that has returned its id is in the arena unless a removal of that id ran. */
  lemma {:induction false} NoRegistrationLost(run: seq<Bus>, j: nat, t: Tid, e: Entry)
    requires Run(run) && j < |run| && t in run[j].threads && Registers(run[j].threads[t], e)
    requires forall i :: 0 <= i < j ==> !RemovalOf(run[i], e.id)
    ensures e in run[j].arena
    decreases j
  {
    if j == 0 {
      assert false;
    } else {
      var u, a := StepAt(run, j - 1);
      RunInv(run, j - 1);
      RegisterStep(run[j - 1], u, a, run[j], t, e);
      if Registers(run[j - 1].threads[t], e) {
        NoRegistrationLost(run, j - 1, t, e);
        OnlyTakeRemoves(run[j - 1], u, a, run[j], e);
        assert !RemovalOf(run[j - 1], e.id);
      }
    }
  }

  lemma GoneStep(s: Bus, t: Tid, a: Step, n: Bus, id: HandlerId)
    requires Inv(s) && NextStep(s, t, a, n) && Gone(s, id)
    ensures Gone(n, id)
  {
    var pc := s.threads[t];
    assert PcOk(s, t, pc);
    if a == Store {
      IdsKnown(s, pc.event);
    } else if a == Take && EventIn(s.arena, pc.id).Some? {
      TakeFacts(s, t, n);
    }
  }

  lemma {:induction false} GoneForEver(run: seq<Bus>, i: nat, j: nat, id: HandlerId)
    requires Run(run) && i <= j < |run| && Gone(run[i], id)
    ensures Gone(run[j], id)
    decreases j
  {
    if i < j {
      GoneForEver(run, i, j - 1, id);
      RunInv(run, j - 1);
      var t, a := StepAt(run, j - 1);
      GoneStep(run[j - 1], t, a, run[j], id);
    }
  }

  /** Once a removal has returned true, its id is in no snapshot and never comes back. */
  lemma RemovedNeverReappears(run: seq<Bus>, i: nat, j: nat, t: Tid, event: Event)
    requires Run(run) && i <= j < |run| && t in run[i].threads
    requires run[i].threads[t].RemDone? && run[i].threads[t].removed
    ensures var id := run[i].threads[t].id; id !in View(run[j], event) && id !in Ids(run[j], event)
  {
    var id := run[i].threads[t].id;
    RunInv(run, i);
    assert PcOk(run[i], t, run[i].threads[t]);
    GoneForEver(run, i, j, id);
    IdsMembers(run[j].arena, event, id);
  }

  // ---- What a removal answers ----------------------------------------------------------------

  /** A removal of `id` on its way. */
  predicate Removes(pc: Pc, id: HandlerId) {
    && (pc.RemLookup? || pc.RemSlot? || pc.RemLock? || pc.RemTake? || pc.RemMiss?
        || pc.RemLoad? || pc.RemStore? || pc.RemUnlink? || pc.RemUnlock?)
    && pc.id == id
  }

  /** Thread `t` has called the removal of `id` in state `i` and has its answer in state `j`. */
  ghost predicate RemovalSpan(run: seq<Bus>, i: nat, j: nat, t: Tid, id: HandlerId, removed: bool) {
    && Run(run) && i < j < |run|
    && (forall k :: i <= k <= j ==> t in run[k].threads)
    && run[i].threads[t] == RemLookup(id)
    && (forall k :: i <= k < j ==> Removes(run[k].threads[t], id))
    && run[j].threads[t] == RemDone(id, removed)
  }

  /** The step takes the entry of `id` out of the arena, and nothing else. */
  ghost predicate Leaves(s: Bus, n: Bus, id: HandlerId) {
    && InArena(s.arena, id) && !InArena(n.arena, id)
    && (forall e :: e in n.arena <==> e in s.arena && e.id != id)
    && (forall event :: Ids(n, event) == Without(Ids(s, event), id))
  }

  predicate Moved(s: Bus, n: Bus, t: Tid) {
    t in s.threads && t in n.threads && s.threads[t] != n.threads[t]
  }

  /** That step is one of thread `t`. */
  ghost predicate TakesOut(run: seq<Bus>, k: nat, t: Tid, id: HandlerId) {
    k + 1 < |run| && Moved(run[k], run[k + 1], t) && Leaves(run[k], run[k + 1], id)
  }

  predicate HasTaken(pc: Pc) {
    pc.RemLoad? || pc.RemStore? || pc.RemUnlink? || pc.RemUnlock? || (pc.RemDone? && pc.removed)
  }

  predicate HasMissed(pc: Pc) {
    pc.RemMiss? || (pc.RemDone? && !pc.removed)
  }

  lemma StaysInArena(s: Bus, t: Tid, a: Step, n: Bus, id: HandlerId)
    requires Inv(s) && NextStep(s, t, a, n) && InArena(s.arena, id) && !InArena(n.arena, id)
    ensures a == Take && s.threads[t].RemTake? && s.threads[t].id == id && EventIn(s.arena, id).Some?
  {
    var e :| e in s.arena && e.id == id;
    OnlyTakeRemoves(s, t, a, n, e);
    EventInArena(s.arena, id);
  }

  lemma TakeLeaves(s: Bus, t: Tid, n: Bus)
    requires Inv(s) && NextStep(s, t, Take, n) && EventIn(s.arena, s.threads[t].id).Some?
    ensures Leaves(s, n, s.threads[t].id) && HasTaken(n.threads[t])
  {
    var id := s.threads[t].id;
    TakeFrame(s, t, n);
    TakeFacts(s, t, n);
    EventInArena(s.arena, id);
    forall event ensures Ids(n, event) == Without(Ids(s, event), id) {
      if event != s.threads[t].event {
        OnlyEvent(s, Entry(id, s.threads[t].event), event);
        WithoutAbsent(Ids(s, event), id);
      }
    }
  }

  lemma OwnRemovalStep(s: Bus, t: Tid, a: Step, n: Bus, id: HandlerId)
    requires Inv(s) && NextStep(s, t, a, n) && Removes(s.threads[t], id) && !HasMissed(s.threads[t])
    ensures HasTaken(n.threads[t]) <==> HasTaken(s.threads[t]) || Leaves(s, n, id)
    ensures HasMissed(n.threads[t]) ==> !InArena(s.arena, id)
  {
    EventInArena(s.arena, id);
    if a == Take && EventIn(s.arena, id).Some? {
      TakeLeaves(s, t, n);
    } else if InArena(s.arena, id) && !InArena(n.arena, id) {
      StaysInArena(s, t, a, n, id);
    }
  }

  lemma MissedStep(s: Bus, t: Tid, a: Step, n: Bus, id: HandlerId)
    requires NextStep(s, t, a, n) && Removes(s.threads[t], id) && HasMissed(s.threads[t])
    ensures n.arena == s.arena && HasMissed(n.threads[t])
  {
  }

  lemma RemovalStep(s: Bus, u: Tid, a: Step, n: Bus, t: Tid, id: HandlerId)
    requires Inv(s) && NextStep(s, u, a, n) && t in s.threads && t in n.threads && Removes(s.threads[t], id)
    ensures HasTaken(n.threads[t]) <==> HasTaken(s.threads[t]) || (Moved(s, n, t) && Leaves(s, n, id))
    ensures HasMissed(n.threads[t]) ==> HasMissed(s.threads[t]) || !InArena(s.arena, id)
  {
    if u != t {
      assert n.threads[t] == s.threads[t];
    } else if HasMissed(s.threads[t]) {
      MissedStep(s, t, a, n, id);
    } else {
      OwnRemovalStep(s, t, a, n, id);
      assert s.threads[t] != n.threads[t];
    }
  }

  lemma RemovalStepAt(run: seq<Bus>, m: nat, t: Tid, id: HandlerId)
    requires Run(run) && m + 1 < |run| && t in run[m].threads && t in run[m + 1].threads && Removes(run[m].threads[t], id)
    ensures HasTaken(run[m + 1].threads[t]) <==> HasTaken(run[m].threads[t]) || TakesOut(run, m, t, id)
    ensures HasMissed(run[m + 1].threads[t]) ==> HasMissed(run[m].threads[t]) || !InArena(run[m].arena, id)
  {
    RunInv(run, m);
    var u, a := StepAt(run, m);
    RemovalStep(run[m], u, a, run[m + 1], t, id);
  }

  lemma {:induction false} RemovalSoFar(run: seq<Bus>, i: nat, m: nat, t: Tid, id: HandlerId)
    requires Run(run) && i <= m < |run| && forall k :: i <= k <= m ==> t in run[k].threads
    requires run[i].threads[t] == RemLookup(id) && forall k :: i <= k < m ==> Removes(run[k].threads[t], id)
    ensures HasTaken(run[m].threads[t]) <==> exists k :: i <= k < m && TakesOut(run, k, t, id)
    ensures HasMissed(run[m].threads[t]) ==> exists k :: i <= k < m && !InArena(run[k].arena, id)
    decreases m
  {
    if i < m {
      RemovalSoFar(run, i, m - 1, t, id);
      RemovalStepAt(run, m - 1, t, id);
    }
  }

  /** An id that has been issued and is not in the arena never comes back to it. */
  lemma {:induction false} NeverBack(run: seq<Bus>, i: nat, j: nat, id: HandlerId)
    requires Run(run) && i <= j < |run| && id < |run[i].issued| && !InArena(run[i].arena, id)
    ensures id < |run[j].issued| && !InArena(run[j].arena, id)
    decreases j
  {
    if i < j {
      NeverBack(run, i, j - 1, id);
      RunInv(run, j - 1);
      var t, a := StepAt(run, j - 1);
      NotBackStep(run[j - 1], t, a, run[j], id);
    }
  }

  lemma NotBackStep(s: Bus, t: Tid, a: Step, n: Bus, id: HandlerId)
    requires Inv(s) && NextStep(s, t, a, n) && id < |s.issued| && !InArena(s.arena, id)
    ensures id < |n.issued| && !InArena(n.arena, id)
  {
    if a == Insert {
      InsertArena(s, t, n);
    } else if a == Take && EventIn(s.arena, s.threads[t].id).Some? {
      TakeFacts(s, t, n);
    }
  }

  /** An id leaves the arena at most once in a whole run. */
  lemma LeavesOnce(run: seq<Bus>, k: nat, l: nat, id: HandlerId)
    requires Run(run) && k < l && l + 1 < |run| && InArena(run[k].arena, id) && !InArena(run[k + 1].arena, id)
    ensures !InArena(run[l].arena, id)
  {
    RunInv(run, k);
    var e :| e in run[k].arena && e.id == id;
    assert IssuedFor(run[k], id, e.event);
    var t, a := StepAt(run, k);
    assert |run[k].issued| <= |run[k + 1].issued|;
    NeverBack(run, k + 1, l, id);
  }

  /** A removal answers true exactly if it has taken the id out of the arena itself, and nothing else with
      it; and false only if the id was not in the arena at some instant between call and return. */
  lemma RemovalAnswersTruly(run: seq<Bus>, i: nat, j: nat, t: Tid, id: HandlerId, removed: bool)
    requires RemovalSpan(run, i, j, t, id, removed)
    ensures removed <==> exists k :: i <= k < j && TakesOut(run, k, t, id)
    ensures forall k, l :: i <= k < l < j && TakesOut(run, k, t, id) ==> !TakesOut(run, l, t, id)
    ensures !removed ==> exists k :: i <= k < j && !InArena(run[k].arena, id)
  {
    RemovalSoFar(run, i, j, t, id);
    forall k, l | i <= k < l < j && TakesOut(run, k, t, id) ensures !TakesOut(run, l, t, id) {
      LeavesOnce(run, k, l, id);
    }
  }

  /** So a removal of a handler that nobody else takes away answers true. */
  lemma RemovalOfRegisteredSucceeds(run: seq<Bus>, i: nat, j: nat, t: Tid, id: HandlerId, removed: bool)
    requires RemovalSpan(run, i, j, t, id, removed) && InArena(run[i].arena, id)
    requires forall k :: i <= k < j && InArena(run[k].arena, id) && !InArena(run[k + 1].arena, id) ==> TakesOut(run, k, t, id)
    ensures removed
  {
    if m :| i <= m < j && !InArena(run[m].arena, id) {
      var k := LastInArena(run, i, m, id);
      assert TakesOut(run, k, t, id);
    }
    RemovalAnswersTruly(run, i, j, t, id, removed);
  }

  lemma {:induction false} LastInArena(run: seq<Bus>, i: nat, m: nat, id: HandlerId) returns (k: nat)
    requires i <= m < |run| && InArena(run[i].arena, id) && !InArena(run[m].arena, id)
    ensures i <= k < m && InArena(run[k].arena, id) && !InArena(run[k + 1].arena, id)
    decreases m - i
  {
    k := i;
    if InArena(run[i + 1].arena, id) { k := LastInArena(run, i + 1, m, id); }
  }

  /** And of two removals of one id at most one answers true. */
  lemma OnlyOneRemovalSucceeds(run: seq<Bus>, i: nat, j: nat, t: Tid, p: nat, q: nat, u: Tid, id: HandlerId, removed: bool)
    requires RemovalSpan(run, i, j, t, id, true) && RemovalSpan(run, p, q, u, id, removed) && t != u
    ensures !removed
  {
    if removed {
      var k := TookItOut(run, i, j, t, id);
      var l := TookItOut(run, p, q, u, id);
      TakenOnce(run, k, t, l, u, id);
      assert false;
    }
  }

  lemma TookItOut(run: seq<Bus>, i: nat, j: nat, t: Tid, id: HandlerId) returns (k: nat)
    requires RemovalSpan(run, i, j, t, id, true)
    ensures TakesOut(run, k, t, id)
  {
    RemovalAnswersTruly(run, i, j, t, id, true);
    k :| i <= k < j && TakesOut(run, k, t, id);
  }

  lemma TakenOnce(run: seq<Bus>, k: nat, t: Tid, l: nat, u: Tid, id: HandlerId)
    requires Run(run) && TakesOut(run, k, t, id) && TakesOut(run, l, u, id)
    ensures k == l && t == u
  {
    if k < l {
      LeavesOnce(run, k, l, id);
    } else if l < k {
      LeavesOnce(run, l, k, id);
    } else {
      OneMoves(run, k, t, u);
    }
  }

  lemma OneMoves(run: seq<Bus>, k: nat, t: Tid, u: Tid)
    requires Run(run) && k + 1 < |run| && Moved(run[k], run[k + 1], t) && Moved(run[k], run[k + 1], u)
    ensures t == u
  {
    var v, a := StepAt(run, k);
    MovesOne(run[k], v, a, run[k + 1]);
  }

  lemma MovesOne(s: Bus, t: Tid, a: Step, n: Bus)
    requires NextStep(s, t, a, n)
    ensures t in n.threads && n.threads == s.threads[t := n.threads[t]]
  {
  }

  /** When a removal has published, its event keeps its slot exactly if it has a handler left. */
  lemma EmptiedSlotLeaves(run: seq<Bus>, i: nat, t: Tid)
    requires Run(run) && i + 1 < |run| && Moved(run[i], run[i + 1], t) && run[i].threads[t].RemUnlink?
    ensures var event := run[i].threads[t].event; event in run[i + 1].slots <==> Ids(run[i + 1], event) != []
  {
    RunInv(run, i);
    var u, a := StepAt(run, i);
    MovesOne(run[i], u, a, run[i + 1]);
    var s, event := run[i], run[i].threads[t].event;
    assert PcOk(s, t, s.threads[t]);
    Agreement(s, event);
    if Windowed(s, event) {
      var w :| w in s.threads && Window(s.threads[w]) && s.threads[w].event == event;
      OwnEvent(s, t, w);
    }
  }

  // ---- Dispatch -----------------------------------------------------------------------------

  predicate Dispatching(pc: Pc, event: Event) {
    (pc.DispSlot? || pc.DispLoad?) && pc.event == event
  }

  /** Thread `t` runs one dispatch of `event` in the states from `i` up to `j`. */
  ghost predicate DispatchSpan(run: seq<Bus>, i: nat, j: nat, t: Tid, event: Event, handlers: seq<HandlerId>) {
    && Run(run) && i < j < |run|
    && (forall k :: i <= k <= j ==> t in run[k].threads)
    && run[i].threads[t] == DispSlot(event)
    && (forall k :: i <= k < j ==> Dispatching(run[k].threads[t], event))
    && run[j].threads[t] == DispDone(event, handlers)
  }

  /** A slot stops being current only when it is unlinked, and then the event has no slot. */
  lemma SlotLeaves(s: Bus, t: Tid, a: Step, n: Bus, event: Event, k: SlotId)
    requires Inv(s) && NextStep(s, t, a, n) && Known(s, event, k)
    ensures Known(n, event, k)
    ensures Current(s, k) ==> Current(n, k) || event !in n.slots
  {
  }

  lemma WatchStep(run: seq<Bus>, m: nat, t: Tid, event: Event, k: SlotId)
    requires Run(run) && m + 1 < |run| && t in run[m].threads && t in run[m + 1].threads
    requires Dispatching(run[m].threads[t], event) && run[m + 1].threads[t] == DispLoad(event, k)
    ensures run[m].threads[t] == run[m + 1].threads[t] || (Known(run[m + 1], event, k) && Current(run[m + 1], k))
    ensures Known(run[m], event, k) ==>
              && Known(run[m + 1], event, k)
              && (Current(run[m], k) ==> Current(run[m + 1], k) || event !in run[m + 1].slots)
  {
    var u, a := StepAt(run, m);
    RunInv(run, m);
    if Known(run[m], event, k) { SlotLeaves(run[m], u, a, run[m + 1], event, k); }
  }

  lemma ReturnStep(run: seq<Bus>, m: nat, t: Tid, event: Event, handlers: seq<HandlerId>)
    requires Run(run) && m + 1 < |run| && t in run[m].threads && t in run[m + 1].threads
    requires Dispatching(run[m].threads[t], event) && run[m + 1].threads[t] == DispDone(event, handlers)
    ensures var s := run[m];
            if s.threads[t].DispSlot? then View(s, event) == handlers
            else && s.threads[t].slot < |s.heap| && s.heap[s.threads[t].slot].snapshot == handlers
                 && (!Current(s, s.threads[t].slot) ==> handlers == [])
  {
    var u, a := StepAt(run, m);
    RunInv(run, m);
    var s := run[m];
    assert u == t;
    if s.threads[t].DispLoad? { assert SlotOk(s, s.threads[t].slot); }
  }

  /** The slot a dispatch holds is current, or was unlinked since the call. */
  ghost predicate Watched(run: seq<Bus>, i: nat, m: nat, event: Event, k: SlotId)
    requires m < |run|
  {
    Known(run[m], event, k) && (Current(run[m], k) || exists p :: i <= p <= m && event !in run[p].slots)
  }

  lemma {:induction false} WatchSlot(run: seq<Bus>, i: nat, m: nat, t: Tid, event: Event)
    requires Run(run) && i <= m < |run|
    requires forall k :: i <= k <= m ==> t in run[k].threads && Dispatching(run[k].threads[t], event)
    requires run[i].threads[t] == DispSlot(event)
    ensures run[m].threads[t].DispLoad? ==> Watched(run, i, m, event, run[m].threads[t].slot)
    decreases m
  {
    if i < m && run[m].threads[t].DispLoad? {
      WatchSlot(run, i, m - 1, t, event);
      WatchStep(run, m - 1, t, event, run[m].threads[t].slot);
    }
  }

  /** Every dispatch sees the published list of some instant between its call and its return,
      even when its slot is unlinked under it. */
  lemma DispatchLinearizes(run: seq<Bus>, i: nat, j: nat, t: Tid, event: Event, handlers: seq<HandlerId>)
    requires DispatchSpan(run, i, j, t, event, handlers)
    ensures exists k :: i <= k < j && View(run[k], event) == handlers && (k == j - 1 || event !in run[k].slots)
  {
    WatchSlot(run, i, j - 1, t, event);
    ReturnStep(run, j - 1, t, event, handlers);
    var last := run[j - 1];
    var pc := last.threads[t];
    if pc.DispLoad? {
      assert Watched(run, i, j - 1, event, pc.slot);
      if Current(last, pc.slot) {
        assert View(last, event) == handlers;
      } else {
        var p :| i <= p <= j - 1 && event !in run[p].slots;
        assert View(run[p], event) == handlers;
      }
    } else {
      assert View(last, event) == handlers;
    }
  }

  /** Only a store to the event's own slot changes what is published for it. */
  lemma OnlyStorePublishes(s: Bus, t: Tid, a: Step, n: Bus, event: Event)
    requires Inv(s) && NextStep(s, t, a, n)
    ensures View(n, event) == View(s, event) || (a == Store && s.threads[t].event == event)
  {
    var pc := s.threads[t];
    assert PcOk(s, t, pc);
    if event in s.slots { assert Known(s, event, s.slots[event]); }
  }

  lemma StoreClosesWindow(s: Bus, t: Tid, n: Bus, event: Event)
    requires Inv(s) && NextStep(s, t, Store, n) && s.threads[t].event == event
    ensures !Windowed(n, event)
  {
    forall w | w in n.threads && w != t && Window(n.threads[w]) ensures n.threads[w].event != event {
      assert s.threads[w] == n.threads[w];
      OwnEvent(s, t, w);
    }
  }

  /** Inside a window nothing is published. */
  lemma WindowFreezesView(s: Bus, t: Tid, a: Step, n: Bus, event: Event)
    requires Inv(s) && NextStep(s, t, a, n) && Windowed(n, event)
    ensures View(n, event) == View(s, event)
  {
    OnlyStorePublishes(s, t, a, n, event);
    if a == Store && s.threads[t].event == event { StoreClosesWindow(s, t, n, event); }
  }

  lemma {:induction false} FrozenSince(run: seq<Bus>, m: nat, j: nat, event: Event)
    requires Run(run) && m <= j < |run|
    requires forall k :: m < k <= j ==> Windowed(run[k], event)
    ensures View(run[j], event) == View(run[m], event)
    decreases j
  {
    if m < j {
      FrozenSince(run, m, j - 1, event);
      RunInv(run, j - 1);
      var t, a := StepAt(run, j - 1);
      assert Windowed(run[j], event);
      WindowFreezesView(run[j - 1], t, a, run[j], event);
    }
  }

  lemma LastClosed(run: seq<Bus>, i: nat, k: nat, j: nat, event: Event) returns (m: nat)
    requires i <= k <= j < |run| && !Windowed(run[k], event)
    ensures k <= m <= j && !Windowed(run[m], event)
    ensures forall p :: m < p <= j ==> Windowed(run[p], event)
    decreases j - k
  {
    m := k;
    var q := k;
    while q < j
      invariant k <= m <= q <= j && !Windowed(run[m], event)
      invariant forall p :: m < p <= q ==> Windowed(run[p], event)
    {
      q := q + 1;
      if !Windowed(run[q], event) { m := q; }
    }
  }

  /** The view of an instant is the arena's list of the last instant without a window. */
  lemma ViewOfLastClosed(run: seq<Bus>, open: nat, j: nat, event: Event) returns (k: nat)
    requires Run(run) && open <= j < |run| && !Windowed(run[open], event)
    ensures open <= k <= j && Ids(run[k], event) == View(run[j], event)
  {
    k := LastClosed(run, open, open, j, event);
    FrozenSince(run, k, j, event);
    BusAgreement(run, k, event);
  }

  lemma NoSlotNoIds(run: seq<Bus>, v: nat, event: Event)
    requires Run(run) && v < |run| && event !in run[v].slots
    ensures Ids(run[v], event) == [] == View(run[v], event)
  {
    RunInv(run, v);
    NoEventNoIds(run[v], event);
  }

  lemma MissesWhileWindowed(run: seq<Bus>, i: nat, j: nat, event: Event, v: nat, k: nat)
    requires Run(run) && i <= v < j < |run| && i <= k < j && forall p :: i <= p < j ==> Windowed(run[p], event)
    ensures Ids(run[k], event) != View(run[v], event)
  {
    FrozenSince(run, i, k, event);
    FrozenSince(run, i, v, event);
    BusAgreement(run, k, event);
  }

  /** The list of a dispatch equals the arena's at some instant of the dispatch if and only if
      the whole dispatch does not fall into writers' windows.  It may: see `DispatchMayMissArena`. */
  lemma DispatchMatchesArena(run: seq<Bus>, i: nat, j: nat, t: Tid, event: Event, handlers: seq<HandlerId>)
    requires DispatchSpan(run, i, j, t, event, handlers)
    ensures (exists k :: i <= k < j && Ids(run[k], event) == handlers)
       <==> (exists k :: i <= k < j && !Windowed(run[k], event))
  {
    DispatchLinearizes(run, i, j, t, event, handlers);
    var v :| i <= v < j && View(run[v], event) == handlers && (v == j - 1 || event !in run[v].slots);
    if open :| i <= open < j && !Windowed(run[open], event) {
      if v == j - 1 {
        var k := ViewOfLastClosed(run, open, v, event);
      } else {
        NoSlotNoIds(run, v, event);
      }
    } else {
      forall k | i <= k < j ensures Ids(run[k], event) != handlers {
        assert forall p :: i <= p < j ==> Windowed(run[p], event);
        MissesWhileWindowed(run, i, j, event, v, k);
      }
    }
  }

  lemma Extend(run: seq<Bus>, t: Tid, a: Step, n: Bus)
    requires Run(run) && NextStep(run[|run| - 1], t, a, n)
    ensures Run(run + [n])
  {
    var longer := run + [n];
    forall i: nat ensures Linked(longer, i) {
      assert Linked(run, i);
      if i < |run| - 1 { assert longer[i] == run[i] && longer[i + 1] == run[i + 1]; }
    }
  }

  const Quiet: Bus := Bus([], [], map[], [], map[0 := Idle, 1 := Idle])
  const Called: Bus := At(Quiet, 0, RegSlot(7))
  const Opened: Bus := At(OpenSlot(Called, 7).0, 0, RegLock(7, 0))
  const Locked: Bus := At(SetWriter(Opened, 0, Some(0)), 0, RegCheck(7, 0))
  const Checked: Bus := At(Locked, 0, RegInsert(7, 0))
  const Inserted: Bus := At(Checked, 0, RegLoad(7, 0, 0)).(arena := [Entry(0, 7)], issued := [7])

  lemma PausedRegistration() returns (run: seq<Bus>)
    ensures Run(run) && |run| == 6 && run[5] == Inserted
  {
    run := [Quiet];
    assert NextStep(Quiet, 0, CallRegister(7), Called);
    Extend(run, 0, CallRegister(7), Called);
    run := run + [Called];
    assert NextStep(Called, 0, GetSlot, Opened);
    Extend(run, 0, GetSlot, Opened);
    run := run + [Opened];
    assert NextStep(Opened, 0, Lock, Locked);
    Extend(run, 0, Lock, Locked);
    run := run + [Locked];
    assert NextStep(Locked, 0, CheckCurrent, Checked);
    Extend(run, 0, CheckCurrent, Checked);
    run := run + [Checked];
    assert Checked.arena + [Entry(0, 7)] == [Entry(0, 7)] && Checked.issued + [7] == [7];
    assert NextStep(Checked, 0, Insert, Inserted);
    Extend(run, 0, Insert, Inserted);
    run := run + [Inserted];
  }

  lemma PausedDispatch() returns (run: seq<Bus>)
    ensures Run(run) && |run| == 9
    ensures forall k :: 6 <= k <= 8 ==> 1 in run[k].threads && run[k].arena == [Entry(0, 7)]
    ensures run[6].threads[1] == DispSlot(7) && run[7].threads[1] == DispLoad(7, 0) && run[8].threads[1] == DispDone(7, [])
  {
    run := PausedRegistration();
    var s6 := At(Inserted, 1, DispSlot(7));
    assert NextStep(Inserted, 1, CallDispatch(7), s6);
    Extend(run, 1, CallDispatch(7), s6);
    run := run + [s6];
    var s7 := At(s6, 1, DispLoad(7, 0));
    assert NextStep(s6, 1, FindSlot, s7);
    Extend(run, 1, FindSlot, s7);
    run := run + [s7];
    var s8 := At(s7, 1, DispDone(7, []));
    assert NextStep(s7, 1, LoadFull, s8);
    Extend(run, 1, LoadFull, s8);
    run := run + [s8];
  }

  /** A registration pauses between its arena insertion and its publication; a dispatch that
      starts and ends in that pause returns the empty list although the arena holds the handler
      throughout. */
  lemma DispatchMayMissArena() returns (run: seq<Bus>)
    ensures DispatchSpan(run, 6, 8, 1, 7, [])
    ensures forall k :: 6 <= k <= 8 ==> Ids(run[k], 7) == [0]
  {
    run := PausedDispatch();
    IdsAppend([], Entry(0, 7), 7);
    assert [] + [Entry(0, 7)] == [Entry(0, 7)];
  }
}
