/** The hot reload among other threads.  The transaction is taken section by section, one lock section
    or one access to a gate at a time; in between, operations of the staged plugin's own contexts and
    anything other plugins may do. */
module ReloadProtocol {
  import opened Wrappers
  import opened CapabilityGate
  import opened FiberStates
  import opened Sequences
  import opened ServiceRegistry
  import opened DependencyGraph
  import opened Scopes
  import opened Invocation
  import opened Reload

  type Tid = nat

  /** Where the transaction is.  From `Holding` it holds the staged record, from `ScopesOver` also the
      scopes, and while it publishes also the services. */
  datatype Pc =
    | Begun | StateChecked | RecordRead | OldRead | HandlersValid | TargetsLookedAt | ServicesValid | ScopesValid
    | Holding | ProvidersOver | ScopesOver | EntriesOver | Publishing
    | Cut | OldRetired | OldFenced | ServicesOver
    | UndoingEntries(primary: Reload.Error)
    | UndoingScopes(primary: Reload.Error)
    | UndoingProviders(primary: Reload.Error, cleanup: seq<Reload.Error>)
    | Panicked
    | Ended(outcome: Result<(), Reload.Error>)

  /** An operation of a context of the staged plugin: the scope it acts in is the one it saw when it
      was admitted.  From its check to its insertion the registration of a service holds the record. */
  datatype Op = Outside | Looked(scope: ScopeId, admitted: bool) | Inside(scope: ScopeId)
              | Providing(scope: ScopeId, symbol: Symbol, value: Value)

  /** The activation of the staged plugin. */
  datatype Stage = InStart | SealedStart | Started

  /** `incoming` and `outgoing` are the records as the transaction has read them, `before` is history:
      the arena as it was when the scopes were moved.  `released` lists the activation barriers that have
      been released, and with which answer. */
  datatype World = World(now: Whole, pc: Pc, incoming: Fiber, outgoing: Fiber, before: Arena, stage: Stage, ops: map<Tid, Op>,
                         released: seq<(nat, bool)>)

  predicate RecordHeld(pc: Pc) {
    || pc.Holding? || pc.ProvidersOver? || ScopesHeld(pc) || pc.UndoingProviders?
  }

  predicate ScopesHeld(pc: Pc) {
    BeforeCut(pc) || AfterCut(pc)
  }

  /** The scopes have been moved and could still be moved back. */
  predicate BeforeCut(pc: Pc) {
    pc.ScopesOver? || EntriesAway(pc) || pc.UndoingScopes?
  }

  predicate EntriesAway(pc: Pc) {
    pc.EntriesOver? || pc.Publishing? || pc.UndoingEntries?
  }

  predicate ProvidersAway(pc: Pc) {
    pc.ProvidersOver? || BeforeCut(pc) || pc.UndoingProviders?
  }

  /** The selector has been switched, and the rest is still to follow. */
  predicate AfterCut(pc: Pc) {
    ServicesPending(pc) || pc.ServicesOver?
  }

  predicate ServicesPending(pc: Pc) {
    pc.Cut? || pc.OldRetired? || pc.OldFenced?
  }

  predicate ServicesHeld(pc: Pc) {
    pc.Publishing? || ServicesPending(pc)
  }

  predicate Done(pc: Pc) {
    pc.Ended? && pc.outcome.Ok?
  }

  /** The exchange has been won and all locks are free again. */
  predicate Over(pc: Pc) {
    Done(pc) || pc.Panicked?
  }

  predicate NobodyProvides(w: World) {
    forall t <- w.ops :: !w.ops[t].Providing?
  }

  predicate RecordFree(w: World) {
    !RecordHeld(w.pc) && NobodyProvides(w)
  }

  /** The record has been read and the staged plugin is not yet adopted. */
  predicate Knows(pc: Pc) {
    || pc.RecordRead? || pc.OldRead? || pc.HandlersValid? || pc.TargetsLookedAt? || pc.ServicesValid? || pc.ScopesValid?
    || RecordHeld(pc) || pc.Panicked?
  }

  predicate Present(x: Whole, s: Swap) {
    s.staged in x.fibers && s.replaced in x.fibers
  }

  function MoveOf(s: Swap, f: Fiber): ScopeRevision {
    ScopeRevision(s.staging, s.target, s.staged, s.replaced, f.childScopes)
  }

  function ServicesOf(s: Swap, f: Fiber): Revision {
    Revision(s.staging, s.target, f.provided, s.replaced, s.staged)
  }

  function EntriesAt(r: Registrations, f: Fiber, scope: ScopeId): Registrations {
    Registrations(HandlersAt(r.handlers, f.invocationHandlers, scope), MiddlewareAt(r.middleware, f.invocationMiddleware, scope))
  }

  function Republished(st: State, p: Revision): State {
    if AllMovable(st.entries, p) then Bumped(st.(entries := Moved(st.entries, p))) else st
  }

  function HalfTaken(st: State, p: Revision): State {
    st.(entries := TakenOut(st.entries, p, Fresh(p.symbols)))
  }

  // ---- The transaction, section by section -----------------------------------------------------------

  datatype ReloadStep =
    | CheckState(running: bool) | ReadRecord | ReadOld | CheckHandlers | LookAtTargets(clash: bool) | CheckServices | CheckScopes
    | TakeRecord | CommitProviders | CommitScopes | CommitEntries | LockServices | Exchange | RetireOld | FenceOld | CommitServices | Adopt
    | UndoEntries | UndoScopes | UndoProviders

  function Fails(w: World, e: Reload.Error): World {
    w.(pc := Ended(Err(e)))
  }

  predicate CheckAt(pc: Pc, a: ReloadStep) {
    match a
    case CheckState(_) => pc.Begun?
    case ReadRecord => pc.StateChecked?
    case ReadOld => pc.RecordRead?
    case CheckHandlers => pc.OldRead?
    case LookAtTargets(_) => pc.HandlersValid?
    case CheckServices => pc.TargetsLookedAt?
    case CheckScopes => pc.ServicesValid?
    case TakeRecord => pc.ScopesValid?
    case _ => false
  }

  ghost predicate Passes(w: World, s: Swap, a: ReloadStep)
    requires Present(w.now, s)
  {
    var x, f := w.now, w.now.fibers[s.staged];
    match a
    case CheckState(running) => running && x.fibers[s.replaced].state == Reloading
    case CheckHandlers => RevisionOk(x.entries.handlers, w.outgoing.invocationHandlers, w.incoming.invocationHandlers, s.target, x.active)
    // One look per service, each in a section of its own; any of them may find a stranger.
    case LookAtTargets(clash) => !clash
    case CheckServices => AllMovable(x.services.entries, ServicesOf(s, w.incoming))
    case CheckScopes => ScopePrepared(x.arena, MoveOf(s, w.incoming))
    case ReadRecord => f.state == FiberState.Active && IsStaged(x, f.gate)
    case TakeRecord => f.state == FiberState.Active && IsStaged(x, f.gate)
    case _ => true
  }

  function CheckError(a: ReloadStep): Reload.Error {
    match a
    case CheckState(running) => if running then InvalidFiberState else ShuttingDown
    case CheckHandlers => DuplicateInvocation
    case LookAtTargets(_) => DuplicateService
    case CheckServices => ServicesChanged
    case CheckScopes => ScopesChanged
    case _ => PublicationFailed
  }

  function Checked(a: ReloadStep): Pc {
    match a
    case CheckState(_) => StateChecked
    case ReadRecord => RecordRead
    case ReadOld => OldRead
    case CheckHandlers => HandlersValid
    case LookAtTargets(_) => TargetsLookedAt
    case CheckServices => ServicesValid
    case CheckScopes => ScopesValid
    case _ => Holding
  }

  /** Before anything is touched.  The record can be read or taken while nobody holds it. */
  ghost predicate NextCheck(w: World, s: Swap, a: ReloadStep, n: World) {
    && Present(w.now, s) && CheckAt(w.pc, a) && (a.ReadRecord? || a.TakeRecord? ==> NobodyProvides(w))
    && n == if !Passes(w, s, a) then Fails(w, CheckError(a))
            else w.(pc := Checked(a), incoming := if a.ReadRecord? then w.now.fibers[s.staged] else w.incoming,
                    outgoing := if a.ReadOld? then w.now.fibers[s.replaced] else w.outgoing)
  }

  /** What can be taken back. */
  ghost predicate NextMove(w: World, s: Swap, a: ReloadStep, n: World) {
    Present(w.now, s) &&
    var x, f, i := w.now, w.now.fibers[s.staged], w.incoming;
    match a
    case CommitProviders =>
      && w.pc.Holding?
      && n == if CanMove(x.declared, s.staging, s.target, i.provisions, s.staged)
              then w.(pc := ProvidersOver, now := x.(declared := MoveAll(x.declared, s.staging, s.target, i.provisions, s.staged)))
              else Fails(w, ProvidersChanged)
    case CommitScopes =>
      && w.pc.ProvidersOver?
      && n == if CanCommit(x.arena, MoveOf(s, i))
              then w.(pc := ScopesOver, before := x.arena, now := x.(arena := ScopesMoved(x.arena, MoveOf(s, i))))
              else w.(pc := UndoingProviders(ScopesChanged, []))
    case CommitEntries => w.pc.ScopesOver? && n == w.(pc := EntriesOver, now := x.(entries := EntriesAt(x.entries, i, s.target)))
    case LockServices =>
      && w.pc.EntriesOver?
      && n == w.(pc := if !AllMovable(x.services.entries, ServicesOf(s, i)) then UndoingEntries(ServicesChanged)
                       else if f.gate in x.retired || f.gate.selector != x.fibers[s.replaced].gate.selector then UndoingEntries(PublicationFailed)
                       else Publishing)
    case UndoEntries =>
      w.pc.UndoingEntries? && n == w.(pc := UndoingScopes(w.pc.primary), now := x.(entries := EntriesAt(x.entries, i, s.staging)))
    case UndoScopes =>
      && w.pc.UndoingScopes?
      && n == if CanRollBack(x.arena, MoveOf(s, i))
              then w.(pc := UndoingProviders(w.pc.primary, []), now := x.(arena := ScopesBack(x.arena, MoveOf(s, i))))
              else w.(pc := UndoingProviders(w.pc.primary, [ScopesChanged]))
    case UndoProviders =>
      && w.pc.UndoingProviders?
      && n == if CanMove(x.declared, s.target, s.staging, i.provisions, s.staged)
              then Fails(w, ReloadFailed(w.pc.primary, w.pc.cleanup))
                   .(now := x.(declared := MoveAll(x.declared, s.target, s.staging, i.provisions, s.staged)))
              else Fails(w, ReloadFailed(w.pc.primary, w.pc.cleanup + [ProvidersChanged]))
    case _ => false
  }

  /** The exchange, and what follows it. */
  predicate NextCut(w: World, s: Swap, a: ReloadStep, n: World) {
    Present(w.now, s) &&
    var x, f, i := w.now, w.now.fibers[s.staged], w.incoming;
    var was := x.fibers[s.replaced].gate;
    match a
    case Exchange =>
      && w.pc.Publishing?
      && n == if Visible(x.active, was) then w.(pc := Cut, now := x.(active := Select(x.active, f.gate)))
              else w.(pc := UndoingEntries(PublicationFailed))
    case RetireOld => w.pc.Cut? && n == w.(pc := OldRetired, now := x.(retired := x.retired + {was}))
    case FenceOld => w.pc.OldRetired? && n == w.(pc := OldFenced, now := x.(draining := x.draining + {was}))
    case CommitServices =>
      // A symbol that is listed twice finds nothing the second time: a panic, which frees all locks.
      && w.pc.OldFenced?
      && n == if Distinct(i.provided) then w.(pc := ServicesOver, now := x.(services := Republished(x.services, ServicesOf(s, i))))
              else w.(pc := Pc.Panicked, now := x.(services := HalfTaken(x.services, ServicesOf(s, i))))
    case Adopt =>
      w.pc.ServicesOver? && n == w.(pc := Ended(Ok(())), now := x.(fibers := x.fibers[s.staged := Adopted(f, s.target)]),
                                    released := Release(f, w.released))
    case _ => false
  }

  ghost predicate NextReload(w: World, s: Swap, a: ReloadStep, n: World) {
    NextCheck(w, s, a, n) || NextMove(w, s, a, n) || NextCut(w, s, a, n)
  }

  // ---- The staged plugin ---------------------------------------------------------------------------------

  datatype Resource =
    | AHandler(id: EntryId, key: InvocationKey)
    | AMiddleware(id: EntryId, key: InvocationKey, order: nat) | AScope(id: ScopeId) | Unplaced

  predicate ListedOnce(t: Arena) {
    forall id <- t :: Distinct(t[id].children)
  }

  predicate FreshScope(t: Arena, f: Fiber, id: ScopeId) {
    id !in t && id !in f.childScopes && forall x <- t :: id !in t[x].children
  }

  predicate FreshEntry(r: Registrations, f: Fiber, id: EntryId) {
    && id !in f.invocationHandlers && id !in f.invocationMiddleware
    && (forall h <- r.handlers :: h.id != id) && (forall m <- r.middleware :: m.id != id)
  }

  /** What a registration asks of the registries. */
  predicate Fits(x: Whole, s: Swap, scope: ScopeId, r: Resource)
    requires s.staged in x.fibers
  {
    var f := x.fibers[s.staged];
    match r
    case AHandler(id, key) =>
      && FreshEntry(x.entries, f, id)
      && forall h <- x.entries.handlers :: h.scope == scope && h.key == key ==> !Visible(x.active, h.gate) && h.gate != f.gate
    case AMiddleware(id, _, _) => FreshEntry(x.entries, f, id)
    case AScope(id) => FreshScope(x.arena, f, id) && scope in x.arena && x.arena[scope].state == ScopeState.Active
    case Unplaced => true
  }

  function Enlisted(x: Whole, s: Swap, scope: ScopeId, r: Resource): Whole
    requires s.staged in x.fibers && Fits(x, s, scope, r)
  {
    var f := x.fibers[s.staged];
    match r
    case AHandler(id, key) =>
      x.(entries := x.entries.(handlers := x.entries.handlers + [Handler(id, scope, key, f.gate)]),
         fibers := x.fibers[s.staged := f.(invocationHandlers := f.invocationHandlers + [id])])
    case AMiddleware(id, key, order) =>
      x.(entries := x.entries.(middleware := x.entries.middleware + [Middleware(id, scope, key, f.gate, order)]),
         fibers := x.fibers[s.staged := f.(invocationMiddleware := f.invocationMiddleware + [id])])
    case AScope(id) =>
      x.(arena := Scopes.Created(x.arena, scope, id), fibers := x.fibers[s.staged := f.(childScopes := f.childScopes + [id])])
    case Unplaced => x
  }

  /** What the registration of a service checks, and what it then does. */
  predicate MayProvide(x: Whole, s: Swap, scope: ScopeId, symbol: Symbol) {
    && s.staged in x.fibers && !x.fibers[s.staged].sealed && Mutable(x.fibers[s.staged].state)
    && symbol in x.fibers[s.staged].provisions && Key(scope, symbol) !in x.services.entries
  }

  function Provided(x: Whole, s: Swap, scope: ScopeId, symbol: Symbol, value: Value): Whole
    requires s.staged in x.fibers
  {
    var f := x.fibers[s.staged];
    x.(services := Inserted(x.services, Key(scope, symbol), Entry(s.staged, scope, value, f.gate)),
       fibers := x.fibers[s.staged := f.(provided := f.provided + [symbol])])
  }

  datatype PluginStep =
    | Seal | GoActive | Look(t: Tid) | Enter(t: Tid) | Append(t: Tid, what: Resource, refused: bool)
    | Provide(t: Tid, symbol: Symbol, value: Value) | Insert(t: Tid) | Dispose

  function WithFiber(w: World, s: Swap, f: Fiber): World {
    w.(now := w.now.(fibers := w.now.fibers[s.staged := f]))
  }

  /** Registration goes through. */
  predicate Registers(x: Whole, s: Swap, scope: ScopeId, r: Resource) {
    s.staged in x.fibers && !x.fibers[s.staged].sealed && Mutable(x.fibers[s.staged].state) && Fits(x, s, scope, r)
  }

  function Closed(x: Whole, gate: Gate): Whole {
    x.(active := if Visible(x.active, gate) then x.active[gate.selector := NONE] else x.active,
       retired := x.retired + {gate}, draining := x.draining + {gate})
  }

  predicate NextPlugin(w: World, s: Swap, a: PluginStep, n: World) {
    Present(w.now, s) && (a.Enter? || a.Insert? || RecordFree(w)) &&
    var x, f := w.now, w.now.fibers[s.staged];
    match a
    case Seal =>
      w.stage == InStart && f.state == Starting && n == WithFiber(w, s, f.(sealed := true)).(stage := SealedStart)
    case GoActive =>
      // The state is written over whatever is there.
      && w.stage == SealedStart && Elements(f.provisions) == Elements(f.provided)
      && n == WithFiber(w, s, f.(state := FiberState.Active)).(stage := Started)
    case Look(t) =>
      t in w.ops && w.ops[t] == Outside && n == w.(ops := w.ops[t := Looked(f.scope, Mutable(f.state))])
    case Enter(t) =>
      && t in w.ops && w.ops[t].Looked?
      && n == w.(ops := w.ops[t := if f.gate in x.draining || !w.ops[t].admitted then Outside else Inside(w.ops[t].scope)])
    case Append(t, what, refused) =>
      && t in w.ops && w.ops[t].Inside?
      && n == w.(ops := w.ops[t := Outside],
                 now := if !refused && Registers(x, s, w.ops[t].scope, what) then Enlisted(x, s, w.ops[t].scope, what) else x)
    case Provide(t, symbol, value) =>
      && t in w.ops && w.ops[t].Inside?
      && var scope := w.ops[t].scope;
         n == w.(ops := w.ops[t := if MayProvide(x, s, scope, symbol) then Providing(scope, symbol, value) else Outside])
    case Insert(t) =>
      && t in w.ops && w.ops[t].Providing?
      && var p := w.ops[t]; n == w.(ops := w.ops[t := Outside], now := Provided(x, s, p.scope, p.symbol, p.value))
    case Dispose =>
      && CanTransition(f.state, FiberState.Disposing)
      && var g := f.(state := FiberState.Disposing, sealed := false, reloadOwned := false, activation := None);
         n == w.(now := Closed(x.(fibers := x.fibers[s.staged := g]), f.gate))
  }

  // ---- Everybody else -----------------------------------------------------------------------------------

  /** What is left of a plugin under disposal. */
  predicate Remains(f: Fiber, g: Fiber) {
    && g.gate == f.gate && g.scope == f.scope && g.provisions == f.provisions
    && (forall id <- g.invocationHandlers :: id in f.invocationHandlers) && (forall id <- g.invocationMiddleware :: id in f.invocationMiddleware)
    && (forall c <- g.childScopes :: c in f.childScopes)
  }

  /** The staged record is its own plugin's and the transaction's; once it is disposed of, its disposal
      takes things off it.  The replaced plugin keeps its generation, as its lifecycle lock is held. */
  predicate TheirRecords(x: Whole, s: Swap, y: Whole)
    requires Present(x, s)
  {
    && Present(y, s) && y.fibers[s.replaced].gate == x.fibers[s.replaced].gate
    && (y.fibers[s.staged] == x.fibers[s.staged]
        || (x.fibers[s.staged].gate in x.retired && Remains(x.fibers[s.staged], y.fibers[s.staged])))
  }

  /** Scopes come, go and move as they like; the staged plugin's own stay where they are, or end. */
  predicate TheirArena(t: Arena, own: seq<ScopeId>, u: Arena) {
    ListedOnce(u) && forall c <- own :: c in u ==> c in t && u[c].parent == t[c].parent
  }

  ghost predicate TheirProviders(d: Declared, f: FiberId, kept: bool, e: Declared) {
    kept ==> SameFor(f, d, e)
  }

  /** Nobody provides in the staged plugin's name; but a provider that has checked before it may insert
      over what it provides, and withdraw that again. */
  predicate TheirServices(st: State, f: FiberId, tt: State) {
    forall key <- tt.entries :: tt.entries[key].owner == f ==> key in st.entries && st.entries[key] == tt.entries[key]
  }

  predicate OwnHandler(f: Fiber, h: Handler) {
    h.id in f.invocationHandlers || h.gate == f.gate
  }

  predicate OwnMiddleware(f: Fiber, m: Middleware) {
    m.id in f.invocationMiddleware || m.gate == f.gate
  }

  predicate TheirEntries(r: Registrations, f: Fiber, kept: bool, q: Registrations) {
    && (forall h <- q.handlers :: OwnHandler(f, h) ==> h in r.handlers) && (forall m <- q.middleware :: OwnMiddleware(f, m) ==> m in r.middleware)
    && (kept ==> (forall h <- r.handlers :: OwnHandler(f, h) ==> h in q.handlers) && forall m <- r.middleware :: OwnMiddleware(f, m) ==> m in q.middleware)
  }

  /** The staged gate is its plugin's and the transaction's.  Of its selector, others can only hide the
      old generation, by closing it. */
  predicate TheirGates(x: Whole, s: Swap, y: Whole)
    requires Present(x, s)
  {
    var gate, was := x.fibers[s.staged].gate, x.fibers[s.replaced].gate;
    && x.retired <= y.retired && x.draining <= y.draining
    && (gate in y.retired ==> gate in x.retired) && (gate in y.draining ==> gate in x.draining)
    && (|| ActiveOf(y.active, gate.selector) == ActiveOf(x.active, gate.selector)
        || (gate.selector == was.selector && Visible(x.active, was) && ActiveOf(y.active, gate.selector) == NONE))
  }

  /** Anything that other threads may do in one go. */
  ghost predicate TheirMove(x: Whole, s: Swap, y: Whole) {
    Present(x, s) &&
    var f := x.fibers[s.staged];
    var kept := f.gate !in x.retired;
    && TheirRecords(x, s, y) && TheirGates(x, s, y)
    && TheirArena(x.arena, f.childScopes, y.arena) && TheirProviders(x.declared, s.staged, kept, y.declared)
    && TheirServices(x.services, s.staged, y.services) && TheirEntries(x.entries, f, kept, y.entries)
  }

  /** Under the locks that are free. */
  ghost predicate NextOthers(w: World, s: Swap, y: Whole, n: World) {
    && TheirMove(w.now, s, y) && n == w.(now := y)
    && (!RecordFree(w) ==> Present(y, s) && y.fibers[s.staged] == w.now.fibers[s.staged])
    && (ScopesHeld(w.pc) ==> y.arena == w.now.arena) && (ServicesHeld(w.pc) ==> y.services == w.now.services)
  }

  datatype Step = OfReload(r: ReloadStep) | OfPlugin(p: PluginStep) | Others(y: Whole)

  ghost predicate Next(w: World, s: Swap, a: Step, n: World) {
    match a
    case OfReload(r) => NextReload(w, s, r, n)
    case OfPlugin(p) => NextPlugin(w, s, p, n)
    case Others(y) => NextOthers(w, s, y, n)
  }

  ghost predicate Init(w: World, s: Swap) {
    && Present(w.now, s) && s.staged != s.replaced && s.staging != s.target && w.pc.Begun? && w.stage == InStart
    && (forall t <- w.ops :: w.ops[t] == Outside) && ListedOnce(w.now.arena)
    && (forall key <- w.now.services.entries :: w.now.services.entries[key].owner != s.staged)
    && var f, gate, was := w.now.fibers[s.staged], w.now.fibers[s.staged].gate, w.now.fibers[s.replaced].gate;
       && f.state == Starting && !f.sealed && f.scope == s.staging
       && f.provided == [] && f.invocationHandlers == [] && f.invocationMiddleware == [] && f.childScopes == []
       && gate != was && gate.generation != NONE && was.generation != NONE
       && gate !in w.now.retired && gate !in w.now.draining && !Visible(w.now.active, gate)
  }

  // ---- What always holds -----------------------------------------------------------------------------------

  function StagedGate(x: Whole, s: Swap): Gate
    requires Present(x, s)
  {
    x.fibers[s.staged].gate
  }

  function OldGate(x: Whole, s: Swap): Gate
    requires Present(x, s)
  {
    x.fibers[s.replaced].gate
  }

  /** The staged plugin has not been disposed of. */
  predicate Alive(x: Whole, s: Swap)
    requires Present(x, s)
  {
    StagedGate(x, s) !in x.retired
  }

  /** Who is who does not change, and a plugin acts in the staging scope or, once adopted, in the target. */
  predicate Fixed(w: World, s: Swap) {
    && Present(w.now, s) && s.staged != s.replaced && s.staging != s.target
    && StagedGate(w.now, s) != OldGate(w.now, s) && StagedGate(w.now, s).generation != NONE && OldGate(w.now, s).generation != NONE
    && w.now.fibers[s.staged].scope == (if Done(w.pc) then s.target else s.staging)
    && forall t <- w.ops :: w.ops[t] == Outside || w.ops[t].scope == s.staging || (Done(w.pc) && w.ops[t].scope == s.target)
  }

  /** The staged generation is shown by the exchange and not before. */
  predicate ShownByCut(w: World, s: Swap)
    requires Present(w.now, s)
  {
    if AfterCut(w.pc) then Visible(w.now.active, StagedGate(w.now, s)) else Over(w.pc) || !Visible(w.now.active, StagedGate(w.now, s))
  }

  /** A plugin that is alive is sealed once it has started, and stays so until it is adopted; what the
      transaction has read of it stays true. */
  predicate StageOk(w: World, s: Swap)
    requires Present(w.now, s)
  {
    var f := w.now.fibers[s.staged];
    && (RecordHeld(w.pc) ==> Alive(w.now, s))
    && (Alive(w.now, s) && !Done(w.pc) ==>
          match w.stage
          case InStart => f.state == Starting && !f.sealed
          case SealedStart => f.state == Starting && f.sealed
          case Started => f.state == FiberState.Active && f.sealed)
    && (Alive(w.now, s) && Knows(w.pc) ==> w.stage == Started && w.incoming == f)
  }

  /** Whatever is registered in the name of a live plugin is on its list. */
  predicate ServicesListed(x: Whole, s: Swap)
    requires Present(x, s)
  {
    forall key <- x.services.entries :: x.services.entries[key].owner == s.staged ==>
      key.symbol in x.fibers[s.staged].provided && (key.scope == s.staging || key.scope == s.target)
  }

  predicate ServicesOnlyAt(x: Whole, s: Swap, scope: ScopeId) {
    forall key <- x.services.entries :: x.services.entries[key].owner == s.staged ==> key.scope == scope
  }

  predicate ServicesOk(w: World, s: Swap)
    requires Present(w.now, s)
  {
    && (Alive(w.now, s) ==> ServicesListed(w.now, s))
    && (Alive(w.now, s) && !Over(w.pc) && !w.pc.ServicesOver? ==> ServicesOnlyAt(w.now, s, s.staging))
    && (w.pc.ServicesOver? ==> ServicesOnlyAt(w.now, s, s.target))
    && (ServicesHeld(w.pc) ==> AllMovable(w.now.services.entries, ServicesOf(s, w.incoming))
                               && StagedGate(w.now, s).selector == OldGate(w.now, s).selector)
  }

  /** Who is between check and insertion is alone at the record, and what it inserts is not there in the
      plugin's own name. */
  predicate ProvidingOk(w: World, s: Swap)
    requires Present(w.now, s)
  {
    && (forall t <- w.ops :: w.ops[t].Providing? ==>
          && !RecordHeld(w.pc) && !w.now.fibers[s.staged].sealed
          && !OwnedAt(w.now.services.entries, s.staged, Key(w.ops[t].scope, w.ops[t].symbol)))
    && (forall t, u :: t in w.ops && u in w.ops && w.ops[t].Providing? && w.ops[u].Providing? ==> t == u)
  }

  /** Its entries are where the transaction has put them. */
  predicate EntriesSound(x: Whole, s: Swap, scope: ScopeId)
    requires Present(x, s)
  {
    var f := x.fibers[s.staged];
    && (forall h <- x.entries.handlers :: h.id in f.invocationHandlers ==> h.gate == f.gate && h.scope == scope)
    && (forall m <- x.entries.middleware :: m.id in f.invocationMiddleware ==> m.gate == f.gate && m.scope == scope)
  }

  predicate EntriesOk(w: World, s: Swap)
    requires Present(w.now, s)
  {
    Alive(w.now, s) && !Done(w.pc) ==> EntriesSound(w.now, s, if EntriesMoved(w.pc) then s.target else s.staging)
  }

  predicate EntriesMoved(pc: Pc) {
    EntriesAway(pc) || AfterCut(pc) || pc.Panicked?
  }

  /** Its providers can be moved back, as long as they are away. */
  ghost predicate ProvidersOk(w: World, s: Swap) {
    ProvidersAway(w.pc) || AfterCut(w.pc) ==> CanMove(w.now.declared, s.target, s.staging, w.incoming.provisions, s.staged)
  }

  predicate ArenaOk(w: World, s: Swap)
    requires Present(w.now, s)
  {
    && (Alive(w.now, s) && !Done(w.pc) ==> Distinct(w.now.fibers[s.staged].childScopes))
    && (!ScopesHeld(w.pc) && !w.pc.Ended? && !w.pc.UndoingProviders? && !w.pc.Panicked? ==> ListedOnce(w.now.arena))
    && (ScopesHeld(w.pc) ==>
          ListedOnce(w.before) && CanCommit(w.before, MoveOf(s, w.incoming)) && w.now.arena == ScopesMoved(w.before, MoveOf(s, w.incoming)))
  }

  /** Nothing is left to report of an undoing. */
  predicate OutcomeOk(pc: Pc) {
    && (pc.UndoingEntries? ==> !pc.primary.ReloadFailed?) && (pc.UndoingScopes? ==> !pc.primary.ReloadFailed?)
    && (pc.UndoingProviders? ==> pc.cleanup == [] && !pc.primary.ReloadFailed?)
    && (pc.Ended? && pc.outcome.Err? ==> UndoneCleanly(pc.outcome.error))
  }

  ghost predicate Inv(w: World, s: Swap) {
    && Fixed(w, s) && ShownByCut(w, s) && StageOk(w, s) && ServicesOk(w, s) && EntriesOk(w, s) && ProvidersOk(w, s) && ArenaOk(w, s)
    && ProvidingOk(w, s) && OutcomeOk(w.pc)
  }

  lemma InitInv(w: World, s: Swap)
    requires Init(w, s)
    ensures Inv(w, s)
  {
  }

  // ---- The transaction keeps it

  /** A check that changes nothing but where the transaction is and what it has read. */
  lemma QuietInv(w: World, s: Swap, n: World)
    requires Inv(w, s) && n == w.(pc := n.pc, incoming := n.incoming, outgoing := n.outgoing)
    requires !RecordHeld(w.pc) && !w.pc.Ended? && !w.pc.Panicked?
    requires !Over(n.pc) && !ProvidersAway(n.pc) && !ScopesHeld(n.pc) && OutcomeOk(n.pc)
    requires RecordHeld(n.pc) ==> Alive(n.now, s) && NobodyProvides(n)
    requires Alive(n.now, s) && Knows(n.pc) ==> n.stage == Started && n.incoming == n.now.fibers[s.staged]
    ensures Inv(n, s)
  {
  }

  lemma CheckFrame(w: World, s: Swap, a: ReloadStep, n: World)
    requires NextCheck(w, s, a, n)
    ensures n == w.(pc := n.pc, incoming := n.incoming, outgoing := n.outgoing)
    ensures !RecordHeld(w.pc) && !w.pc.Ended? && !w.pc.Panicked?
    ensures !Over(n.pc) && !ProvidersAway(n.pc) && !ScopesHeld(n.pc) && OutcomeOk(n.pc)
    ensures RecordHeld(n.pc) ==> n.pc.Holding? && a == TakeRecord && NobodyProvides(n)
  {
  }

  /** Only the reading of the record makes it known, and only the taking of it has it held. */
  lemma CheckKnows(w: World, s: Swap, a: ReloadStep, n: World)
    requires NextCheck(w, s, a, n) && a != ReadRecord && a != TakeRecord
    ensures n.incoming == w.incoming && !RecordHeld(n.pc) && (Knows(n.pc) ==> Knows(w.pc))
  {
  }

  lemma ReadKnows(w: World, s: Swap, n: World)
    requires Present(w.now, s) && StageOk(w, s) && !Done(w.pc) && NextCheck(w, s, ReadRecord, n)
    ensures !RecordHeld(n.pc) && (Alive(n.now, s) && Knows(n.pc) ==> n.stage == Started && n.incoming == n.now.fibers[s.staged])
  {
  }

  lemma TakeKnows(w: World, s: Swap, n: World)
    requires NextCheck(w, s, TakeRecord, n)
    ensures n.incoming == w.incoming && Knows(w.pc) && (RecordHeld(n.pc) ==> Alive(n.now, s))
  {
  }

  lemma CheckReads(w: World, s: Swap, a: ReloadStep, n: World)
    requires Present(w.now, s) && StageOk(w, s) && NextCheck(w, s, a, n) && !Done(w.pc)
    requires n == w.(pc := n.pc, incoming := n.incoming, outgoing := n.outgoing)
    ensures RecordHeld(n.pc) ==> Alive(n.now, s)
    ensures Alive(n.now, s) && Knows(n.pc) ==> n.stage == Started && n.incoming == n.now.fibers[s.staged]
  {
    if a == ReadRecord {
      ReadKnows(w, s, n);
    } else if a == TakeRecord {
      TakeKnows(w, s, n);
    } else {
      CheckKnows(w, s, a, n);
    }
  }

  lemma CheckInv(w: World, s: Swap, a: ReloadStep, n: World)
    requires Inv(w, s) && NextCheck(w, s, a, n)
    ensures Inv(n, s)
  {
    CheckFrame(w, s, a, n);
    CheckReads(w, s, a, n);
    QuietInv(w, s, n);
  }

  /** Nothing that the plugin's record and gate speak of has changed. */
  lemma SamePlugin(w: World, s: Swap, n: World)
    requires Fixed(w, s) && ShownByCut(w, s) && StageOk(w, s) && ProvidingOk(w, s)
    requires RecordHeld(w.pc) && !Over(n.pc) && (AfterCut(w.pc) <==> AfterCut(n.pc))
    requires n.now.fibers == w.now.fibers && n.now.active == w.now.active && n.ops == w.ops && n.stage == w.stage && n.incoming == w.incoming
    requires StagedGate(w.now, s) in n.now.retired ==> StagedGate(w.now, s) in w.now.retired
    ensures Fixed(n, s) && ShownByCut(n, s) && StageOk(n, s) && Alive(w.now, s) && Alive(n.now, s) && ProvidingOk(n, s)
  {
  }

  lemma SameServices(w: World, s: Swap, n: World)
    requires Present(w.now, s) && ServicesOk(w, s) && Alive(w.now, s) && !Over(w.pc) && !w.pc.ServicesOver? && !n.pc.ServicesOver?
    requires n.now.fibers == w.now.fibers && n.now.services == w.now.services && n.incoming == w.incoming
    requires ServicesHeld(n.pc) ==> AllMovable(n.now.services.entries, ServicesOf(s, n.incoming))
                                    && StagedGate(n.now, s).selector == OldGate(n.now, s).selector
    ensures ServicesOk(n, s)
  {
  }

  lemma SameEntries(w: World, s: Swap, n: World)
    requires Present(w.now, s) && EntriesOk(w, s) && Alive(w.now, s) && !Done(w.pc)
    requires n.now.fibers == w.now.fibers && n.now.entries == w.now.entries
    requires EntriesMoved(w.pc) <==> EntriesMoved(n.pc)
    ensures EntriesOk(n, s)
  {
  }

  lemma SameRest(w: World, s: Swap, n: World)
    requires Inv(w, s) && RecordHeld(w.pc) && !Over(n.pc) && !AfterCut(w.pc) && !AfterCut(n.pc)
    requires n.now == w.now.(declared := n.now.declared, arena := n.now.arena) && n == w.(pc := n.pc, now := n.now, before := n.before)
    requires ServicesHeld(n.pc) ==> AllMovable(n.now.services.entries, ServicesOf(s, n.incoming))
                                    && StagedGate(n.now, s).selector == OldGate(n.now, s).selector
    requires EntriesAway(w.pc) <==> EntriesAway(n.pc)
    ensures Fixed(n, s) && ShownByCut(n, s) && StageOk(n, s) && ServicesOk(n, s) && EntriesOk(n, s) && Alive(w.now, s) && ProvidingOk(n, s)
  {
    SamePlugin(w, s, n);
    SameServices(w, s, n);
    SameEntries(w, s, n);
  }

  lemma ProvidersCanReturn(d: Declared, from: ScopeId, to: ScopeId, symbols: seq<Symbol>, f: FiberId)
    requires CanMove(d, from, to, symbols, f)
    ensures CanMove(MoveAll(d, from, to, symbols, f), to, from, symbols, f)
  {
    var e := MoveAll(d, from, to, symbols, f);
    MoveAllIsMoved(d, from, to, symbols, f);
    ProvidersRollbackSucceeds(d, from, to, symbols, f, e, e);
  }

  lemma CommitProvidersFrame(w: World, s: Swap, n: World)
    requires NextMove(w, s, CommitProviders, n)
    ensures w.pc.Holding? && n.now == w.now.(declared := n.now.declared) && n == w.(pc := n.pc, now := n.now)
    ensures n.pc == Ended(Err(ProvidersChanged)) || ProvidersTaken(w, s, n)
  {
  }

  ghost predicate ProvidersTaken(w: World, s: Swap, n: World) {
    && n.pc.ProvidersOver? && CanMove(w.now.declared, s.staging, s.target, w.incoming.provisions, s.staged)
    && n.now.declared == MoveAll(w.now.declared, s.staging, s.target, w.incoming.provisions, s.staged)
  }

  lemma CommitProvidersInv(w: World, s: Swap, n: World)
    requires Inv(w, s) && w.pc.Holding? && n.now == w.now.(declared := n.now.declared) && n == w.(pc := n.pc, now := n.now)
    requires n.pc == Ended(Err(ProvidersChanged)) || ProvidersTaken(w, s, n)
    ensures Inv(n, s)
  {
    SameRest(w, s, n);
    if n.pc.ProvidersOver? { ProvidersCanReturn(w.now.declared, s.staging, s.target, w.incoming.provisions, s.staged); }
  }

  /** A step that changes nothing of the arena it could still be held to. */
  lemma ArenaInv(w: World, s: Swap, n: World)
    requires Inv(w, s) && RecordHeld(w.pc) && !Over(n.pc) && !AfterCut(w.pc) && !AfterCut(n.pc)
    requires n.now == w.now.(arena := n.now.arena) && n == w.(pc := n.pc, now := n.now, before := n.before)
    requires ProvidersAway(n.pc) ==> ProvidersAway(w.pc)
    requires EntriesAway(w.pc) <==> EntriesAway(n.pc)
    requires ServicesHeld(n.pc) ==> AllMovable(n.now.services.entries, ServicesOf(s, n.incoming))
                                    && StagedGate(n.now, s).selector == OldGate(n.now, s).selector
    requires ScopesHeld(n.pc) ==>
               ListedOnce(n.before) && CanCommit(n.before, MoveOf(s, n.incoming)) && n.now.arena == ScopesMoved(n.before, MoveOf(s, n.incoming))
    requires !ScopesHeld(n.pc) ==> n.pc.UndoingProviders?
    requires OutcomeOk(n.pc)
    ensures Inv(n, s)
  {
    SameRest(w, s, n);
  }

  lemma CommitScopesFrame(w: World, s: Swap, n: World)
    requires NextMove(w, s, CommitScopes, n)
    ensures w.pc.ProvidersOver? && n.now == w.now.(arena := n.now.arena) && n == w.(pc := n.pc, now := n.now, before := n.before)
    ensures n.pc == UndoingProviders(ScopesChanged, []) || ScopesTaken(w, s, n)
  {
  }

  predicate ScopesTaken(w: World, s: Swap, n: World) {
    && n.pc.ScopesOver? && n.before == w.now.arena
    && CanCommit(n.before, MoveOf(s, w.incoming)) && n.now.arena == ScopesMoved(n.before, MoveOf(s, w.incoming))
  }

  lemma CommitScopesInv(w: World, s: Swap, n: World)
    requires Inv(w, s) && w.pc.ProvidersOver? && n.now == w.now.(arena := n.now.arena) && n == w.(pc := n.pc, now := n.now, before := n.before)
    requires n.pc == UndoingProviders(ScopesChanged, []) || ScopesTaken(w, s, n)
    ensures Inv(n, s)
  {
    ArenaInv(w, s, n);
  }

  lemma EntriesArrive(r: Registrations, f: Fiber, scope: ScopeId)
    ensures forall h <- EntriesAt(r, f, scope).handlers ::
              exists g <- r.handlers :: h == if g.id in f.invocationHandlers then g.(scope := scope) else g
    ensures forall m <- EntriesAt(r, f, scope).middleware ::
              exists g <- r.middleware :: m == if g.id in f.invocationMiddleware then g.(scope := scope) else g
  {
    var q := EntriesAt(r, f, scope);
    forall h | h in q.handlers ensures exists g <- r.handlers :: h == if g.id in f.invocationHandlers then g.(scope := scope) else g {
      var i :| 0 <= i < |q.handlers| && q.handlers[i] == h;
      assert r.handlers[i] in r.handlers;
    }
    forall m | m in q.middleware ensures exists g <- r.middleware :: m == if g.id in f.invocationMiddleware then g.(scope := scope) else g {
      var i :| 0 <= i < |q.middleware| && q.middleware[i] == m;
      assert r.middleware[i] in r.middleware;
    }
  }

  lemma EntriesSoundAt(x: Whole, s: Swap, from: ScopeId, to: ScopeId)
    requires Present(x, s) && EntriesSound(x, s, from)
    ensures EntriesSound(x.(entries := EntriesAt(x.entries, x.fibers[s.staged], to)), s, to)
  {
    EntriesArrive(x.entries, x.fibers[s.staged], to);
  }

  lemma CommitEntriesInv(w: World, s: Swap, n: World)
    requires Inv(w, s) && NextMove(w, s, CommitEntries, n)
    ensures Inv(n, s)
  {
    SamePlugin(w, s, n);
    SameServices(w, s, n);
    EntriesSoundAt(w.now, s, s.staging, s.target);
  }

  lemma UndoEntriesInv(w: World, s: Swap, n: World)
    requires Inv(w, s) && NextMove(w, s, UndoEntries, n)
    ensures Inv(n, s)
  {
    SamePlugin(w, s, n);
    SameServices(w, s, n);
    EntriesSoundAt(w.now, s, s.target, s.staging);
  }

  lemma UndoScopesFrame(w: World, s: Swap, n: World)
    requires CanCommit(w.before, MoveOf(s, w.incoming)) && w.now.arena == ScopesMoved(w.before, MoveOf(s, w.incoming))
    requires NextMove(w, s, UndoScopes, n)
    ensures n.pc == UndoingProviders(w.pc.primary, []) && n.now == w.now.(arena := n.now.arena) && n == w.(pc := n.pc, now := n.now)
  {
    ScopesRollbackSucceeds(w.before, MoveOf(s, w.incoming));
  }

  lemma UndoScopesInv(w: World, s: Swap, n: World)
    requires Inv(w, s) && w.pc.UndoingScopes? && n.pc == UndoingProviders(w.pc.primary, [])
    requires n.now == w.now.(arena := n.now.arena) && n == w.(pc := n.pc, now := n.now)
    ensures Inv(n, s)
  {
    ArenaInv(w, s, n);
  }

  lemma LockServicesInv(w: World, s: Swap, n: World)
    requires Inv(w, s) && NextMove(w, s, LockServices, n)
    ensures Inv(n, s)
  {
    ArenaInv(w, s, n);
  }

  lemma UndoProvidersFrame(w: World, s: Swap, n: World)
    requires CanMove(w.now.declared, s.target, s.staging, w.incoming.provisions, s.staged) && NextMove(w, s, UndoProviders, n)
    ensures n.pc == Ended(Err(ReloadFailed(w.pc.primary, w.pc.cleanup)))
    ensures n.now == w.now.(declared := n.now.declared) && n == w.(pc := n.pc, now := n.now)
  {
  }

  lemma UndoProvidersInv(w: World, s: Swap, n: World)
    requires Inv(w, s) && NextMove(w, s, UndoProviders, n)
    ensures Inv(n, s)
  {
    UndoProvidersFrame(w, s, n);
    SameRest(w, s, n);
  }

  lemma MoveInv(w: World, s: Swap, a: ReloadStep, n: World)
    requires Inv(w, s) && NextMove(w, s, a, n)
    ensures Inv(n, s)
  {
    match a {
      case CommitProviders =>
        CommitProvidersFrame(w, s, n);
        CommitProvidersInv(w, s, n);
      case CommitScopes =>
        CommitScopesFrame(w, s, n);
        CommitScopesInv(w, s, n);
      case CommitEntries => CommitEntriesInv(w, s, n);
      case LockServices => LockServicesInv(w, s, n);
      case UndoEntries => UndoEntriesInv(w, s, n);
      case UndoScopes =>
        UndoScopesFrame(w, s, n);
        UndoScopesInv(w, s, n);
      case UndoProviders => UndoProvidersInv(w, s, n);
    }
  }

  lemma ServicesArrive(x: Whole, s: Swap)
    requires Present(x, s) && s.staging != s.target && ServicesListed(x, s) && ServicesOnlyAt(x, s, s.staging)
    requires AllMovable(x.services.entries, ServicesOf(s, x.fibers[s.staged]))
    ensures var y := x.(services := Republished(x.services, ServicesOf(s, x.fibers[s.staged])));
            ServicesListed(y, s) && ServicesOnlyAt(y, s, s.target)
  {
    var p := ServicesOf(s, x.fibers[s.staged]);
    var moved := Moved(x.services.entries, p);
    assert forall key <- moved :: !MovesTo(p, key) ==> key in x.services.entries && moved[key] == x.services.entries[key] && !MovesFrom(p, key);
  }

  lemma ExchangeInv(w: World, s: Swap, n: World)
    requires Inv(w, s) && NextCut(w, s, Exchange, n)
    ensures Inv(n, s)
  {
    assert n == w.(pc := n.pc, now := w.now.(active := n.now.active));
    SameServices(w, s, n);
    SameEntries(w, s, n);
  }

  lemma FenceInv(w: World, s: Swap, a: ReloadStep, n: World)
    requires Inv(w, s) && NextCut(w, s, a, n) && (a == RetireOld || a == FenceOld)
    ensures Inv(n, s)
  {
    assert n.now == w.now.(retired := n.now.retired, draining := n.now.draining);
    SamePlugin(w, s, n);
    SameServices(w, s, n);
    SameEntries(w, s, n);
  }

  lemma CommitServicesInv(w: World, s: Swap, n: World)
    requires Inv(w, s) && NextCut(w, s, CommitServices, n) && !n.pc.Panicked?
    ensures Inv(n, s)
  {
    SamePlugin(w, s, n);
    SameEntries(w, s, n);
    ServicesArrive(w.now, s);
  }

  lemma PanicStage(w: World, s: Swap, n: World)
    requires Fixed(w, s) && StageOk(w, s) && ProvidingOk(w, s) && w.pc.OldFenced?
    requires n == w.(pc := Pc.Panicked, now := w.now.(services := n.now.services))
    ensures Fixed(n, s) && ShownByCut(n, s) && StageOk(n, s) && ProvidingOk(n, s) && Alive(w.now, s)
  {
  }

  lemma PanicInv(w: World, s: Swap, n: World)
    requires Inv(w, s) && NextCut(w, s, CommitServices, n) && n.pc.Panicked?
    ensures Inv(n, s)
  {
    assert n == w.(pc := Pc.Panicked, now := w.now.(services := n.now.services));
    PanicStage(w, s, n);
    SameEntries(w, s, n);
    assert forall key <- n.now.services.entries :: key in w.now.services.entries && n.now.services.entries[key] == w.now.services.entries[key];
  }

  /** Of an adopted plugin no more is said here than where its services can be. */
  lemma EndedInv(n: World, s: Swap)
    requires Fixed(n, s) && Done(n.pc) && ServicesListed(n.now, s) && ProvidingOk(n, s)
    ensures Inv(n, s)
  {
  }

  lemma AdoptInv(w: World, s: Swap, n: World)
    requires Inv(w, s) && NextCut(w, s, Adopt, n)
    ensures Inv(n, s)
  {
    AdoptFixed(w, s, n);
    EndedInv(n, s);
  }

  lemma AdoptFixed(w: World, s: Swap, n: World)
    requires Fixed(w, s) && ServicesListed(w.now, s) && ProvidingOk(w, s) && NextCut(w, s, Adopt, n)
    ensures Fixed(n, s) && Done(n.pc) && ServicesListed(n.now, s) && ProvidingOk(n, s)
  {
  }

  lemma CutInv(w: World, s: Swap, a: ReloadStep, n: World)
    requires Inv(w, s) && NextCut(w, s, a, n)
    ensures Inv(n, s)
  {
    match a {
      case Exchange => ExchangeInv(w, s, n);
      case RetireOld => FenceInv(w, s, a, n);
      case FenceOld => FenceInv(w, s, a, n);
      case CommitServices => if n.pc.Panicked? { PanicInv(w, s, n); } else { CommitServicesInv(w, s, n); }
      case Adopt => AdoptInv(w, s, n);
    }
  }

  // ---- The plugin keeps it

  lemma LifeInv(w: World, s: Swap, a: PluginStep, n: World)
    requires Inv(w, s) && NextPlugin(w, s, a, n) && (a == Seal || a == GoActive || a == Dispose)
    ensures Inv(n, s)
  {
  }

  lemma OpInv(w: World, s: Swap, a: PluginStep, n: World)
    requires Inv(w, s) && NextPlugin(w, s, a, n) && (a.Look? || a.Enter?)
    ensures Inv(n, s)
  {
  }

  lemma ProvideInv(w: World, s: Swap, a: PluginStep, n: World)
    requires Inv(w, s) && NextPlugin(w, s, a, n) && a.Provide?
    ensures Inv(n, s)
  {
  }

  lemma ProvidedListed(x: Whole, s: Swap, scope: ScopeId, symbol: Symbol, value: Value)
    requires Present(x, s) && s.staged != s.replaced && ServicesListed(x, s) && (scope == s.staging || scope == s.target)
    ensures var y := Provided(x, s, scope, symbol, value);
            && Present(y, s) && ServicesListed(y, s)
            && (scope == s.staging && ServicesOnlyAt(x, s, s.staging) ==> ServicesOnlyAt(y, s, s.staging))
  {
    var f := x.fibers[s.staged];
    assert (f.provided + [symbol])[|f.provided|] == symbol;
    assert forall y <- f.provided :: y in f.provided + [symbol];
  }

  lemma InsertInv(w: World, s: Swap, t: Tid, n: World)
    requires Inv(w, s) && NextPlugin(w, s, Insert(t), n)
    ensures Inv(n, s)
  {
    var p, f := w.ops[t], w.now.fibers[s.staged];
    if Alive(w.now, s) { ProvidedListed(w.now, s, p.scope, p.symbol, p.value); }
    assert NobodyProvides(n);
    assert n.now == w.now.(fibers := w.now.fibers[s.staged := f.(provided := f.provided + [p.symbol])], services := n.now.services);
    assert n == w.(now := n.now, ops := n.ops);
  }

  lemma EnlistEntry(x: Whole, s: Swap, r: Resource)
    requires Present(x, s) && (r.AHandler? || r.AMiddleware?) && Fits(x, s, s.staging, r) && EntriesSound(x, s, s.staging)
    ensures EntriesSound(Enlisted(x, s, s.staging, r), s, s.staging)
  {
  }

  lemma EnlistScope(x: Whole, s: Swap, scope: ScopeId, r: Resource)
    requires Present(x, s) && r.AScope? && Fits(x, s, scope, r)
    ensures ListedOnce(x.arena) ==> ListedOnce(Enlisted(x, s, scope, r).arena)
    ensures Distinct(x.fibers[s.staged].childScopes) ==> Distinct(Enlisted(x, s, scope, r).fibers[s.staged].childScopes)
  {
    assert r.id !in x.arena[scope].children;
  }

  lemma EnlistFrame(x: Whole, s: Swap, scope: ScopeId, r: Resource)
    requires Present(x, s) && Fits(x, s, scope, r) && s.staged != s.replaced
    ensures var y, f := Enlisted(x, s, scope, r), x.fibers[s.staged];
            && Present(y, s) && y.active == x.active && y.retired == x.retired && y.draining == x.draining && y.declared == x.declared
            && var g := y.fibers[s.staged];
               && g.gate == f.gate && g.scope == f.scope && g.state == f.state && g.sealed == f.sealed
               && y.fibers[s.replaced] == x.fibers[s.replaced]
               && g.provided == f.provided && y.services == x.services
               && (!r.AHandler? ==> g.invocationHandlers == f.invocationHandlers && y.entries.handlers == x.entries.handlers)
               && (!r.AMiddleware? ==> g.invocationMiddleware == f.invocationMiddleware && y.entries.middleware == x.entries.middleware)
               && (!r.AScope? ==> g.childScopes == f.childScopes && y.arena == x.arena)
  {
  }

  /** While a live plugin can register, the transaction has read nothing yet. */
  lemma AppendSound(w: World, s: Swap, scope: ScopeId, r: Resource)
    requires Inv(w, s) && !RecordHeld(w.pc) && Registers(w.now, s, scope, r) && (Done(w.pc) || scope == s.staging)
    ensures var y := Enlisted(w.now, s, scope, r);
            Present(y, s) && (Alive(y, s) && !Done(w.pc) ==> EntriesSound(y, s, s.staging))
  {
    EnlistFrame(w.now, s, scope, r);
    if Alive(w.now, s) && !Done(w.pc) {
      if r.AHandler? || r.AMiddleware? { EnlistEntry(w.now, s, r); }
    }
  }

  lemma AppendStage(w: World, s: Swap, t: Tid, scope: ScopeId, r: Resource, n: World)
    requires Inv(w, s) && RecordFree(w) && t in w.ops && Registers(w.now, s, scope, r)
    requires n == w.(ops := w.ops[t := Outside], now := Enlisted(w.now, s, scope, r))
    ensures Fixed(n, s) && ShownByCut(n, s) && StageOk(n, s) && ProvidingOk(n, s) && ServicesOk(n, s)
    ensures Alive(w.now, s) && !Done(w.pc) ==> w.stage == InStart && !Knows(w.pc)
  {
    EnlistFrame(w.now, s, scope, r);
  }

  lemma AppendInv(w: World, s: Swap, t: Tid, r: Resource, refused: bool, n: World)
    requires Inv(w, s) && NextPlugin(w, s, Append(t, r, refused), n)
    ensures Inv(n, s)
  {
    var scope := w.ops[t].scope;
    if !refused && Registers(w.now, s, scope, r) {
      AppendStage(w, s, t, scope, r, n);
      EnlistFrame(w.now, s, scope, r);
      AppendSound(w, s, scope, r);
      if r.AScope? { EnlistScope(w.now, s, scope, r); }
    }
  }

  lemma PluginInv(w: World, s: Swap, a: PluginStep, n: World)
    requires Inv(w, s) && NextPlugin(w, s, a, n)
    ensures Inv(n, s)
  {
    match a {
      case Seal => LifeInv(w, s, a, n);
      case GoActive => LifeInv(w, s, a, n);
      case Dispose => LifeInv(w, s, a, n);
      case Look(_) => OpInv(w, s, a, n);
      case Enter(_) => OpInv(w, s, a, n);
      case Append(t, r, refused) => AppendInv(w, s, t, r, refused, n);
      case Provide(_, _, _) => ProvideInv(w, s, a, n);
      case Insert(t) => InsertInv(w, s, t, n);
    }
  }

  // ---- The others keep it

  lemma TheirServicesSound(x: Whole, s: Swap, y: Whole)
    requires TheirMove(x, s, y) && Alive(x, s)
    ensures ServicesListed(x, s) ==> ServicesListed(y, s)
    ensures forall scope :: ServicesOnlyAt(x, s, scope) ==> ServicesOnlyAt(y, s, scope)
  {
  }

  lemma TheirEntriesSound(x: Whole, s: Swap, y: Whole, scope: ScopeId)
    requires TheirMove(x, s, y) && Alive(x, s) && EntriesSound(x, s, scope)
    ensures EntriesSound(y, s, scope)
  {
    var f := x.fibers[s.staged];
    forall h | h in y.entries.handlers && h.id in f.invocationHandlers ensures h.gate == f.gate && h.scope == scope { assert OwnHandler(f, h); }
    forall m | m in y.entries.middleware && m.id in f.invocationMiddleware ensures m.gate == f.gate && m.scope == scope { assert OwnMiddleware(f, m); }
  }

  /** Whether a provider can be moved depends on its own part of the lists only. */
  lemma SameForMoves(d: Declared, e: Declared, from: ScopeId, to: ScopeId, symbols: seq<Symbol>, f: FiberId)
    requires SameFor(f, d, e) && CanMove(d, from, to, symbols, f)
    ensures CanMove(e, from, to, symbols, f)
  {
    forall symbol | symbol in symbols ensures AttachedOnlyAt(e, from, symbol, f) && f !in ProvidersAt(e, Key(to, symbol)) {
      assert AttachedOnlyAt(d, from, symbol, f);
      assert Count(ProvidersAt(e, Key(from, symbol)), f) == 1 && Count(ProvidersAt(e, Key(to, symbol)), f) == 0;
      forall key | key in e && key.symbol == symbol && key.scope != from ensures f !in e[key] {
        assert Count(ProvidersAt(d, key), f) == Count(ProvidersAt(e, key), f);
        assert ProvidersAt(e, key) == e[key] && (key in d ==> ProvidersAt(d, key) == d[key]);
      }
    }
  }

  lemma TheirStageInv(w: World, s: Swap, y: Whole, n: World)
    requires Inv(w, s) && NextOthers(w, s, y, n)
    ensures Fixed(n, s) && ShownByCut(n, s) && StageOk(n, s)
  {
  }

  lemma TheirProvidingInv(w: World, s: Swap, y: Whole, n: World)
    requires Present(w.now, s) && ProvidingOk(w, s) && NextOthers(w, s, y, n)
    ensures Present(n.now, s) && ProvidingOk(n, s)
  {
  }

  lemma TheirListsInv(w: World, s: Swap, y: Whole, n: World)
    requires Inv(w, s) && NextOthers(w, s, y, n) && Fixed(n, s) && StageOk(n, s)
    ensures ServicesOk(n, s) && EntriesOk(n, s) && ArenaOk(n, s)
  {
    if Alive(w.now, s) {
      TheirServicesSound(w.now, s, y);
      if !Done(w.pc) { TheirEntriesSound(w.now, s, y, if EntriesMoved(w.pc) then s.target else s.staging); }
    }
  }

  lemma OthersInv(w: World, s: Swap, y: Whole, n: World)
    requires Inv(w, s) && NextOthers(w, s, y, n)
    ensures Inv(n, s)
  {
    TheirStageInv(w, s, y, n);
    TheirListsInv(w, s, y, n);
    TheirProvidingInv(w, s, y, n);
    if ProvidersAway(w.pc) || AfterCut(w.pc) {
      SameForMoves(w.now.declared, y.declared, s.target, s.staging, w.incoming.provisions, s.staged);
    }
  }

  lemma NextInv(w: World, s: Swap, a: Step, n: World)
    requires Inv(w, s) && Next(w, s, a, n)
    ensures Inv(n, s)
  {
    match a {
      case OfReload(r) =>
        if NextCheck(w, s, r, n) { CheckInv(w, s, r, n); }
        else if NextMove(w, s, r, n) { MoveInv(w, s, r, n); }
        else { CutInv(w, s, r, n); }
      case OfPlugin(p) => PluginInv(w, s, p, n);
      case Others(y) => OthersInv(w, s, y, n);
    }
  }
}
