/** Hot reload.  A plugin's replacement is staged in a hidden scope; one transaction moves its
    provider declarations, scopes, invocation entries and services to the live scope and switches
    the generation.  Either everything is moved and the new generation is live, or everything is as
    it was. */
module Reload {
  import opened Wrappers
  import opened CapabilityGate
  import opened FiberStates
  import opened Sequences
  import opened ServiceRegistry
  import opened DependencyGraph
  import opened Scopes
  import opened Invocation

  datatype Fiber = Fiber(state: FiberState, scope: ScopeId, gate: Gate, provided: seq<Symbol>, provisions: seq<Symbol>,
                         handlers: seq<nat>, invocationHandlers: seq<EntryId>, invocationMiddleware: seq<EntryId>,
                         childScopes: seq<ScopeId>, staged: bool, reloadOwned: bool, sealed: bool, activation: Option<nat>)

  /** `ReloadFailed` carries what the undoing reported, too; `Panic` is no answer but a panic. */
  datatype Error =
    | ShuttingDown | FiberNotFound | InvalidFiberState | PublicationFailed | DuplicateInvocation | DuplicateService
    | ServicesChanged | ProvidersChanged | ScopesChanged
    | ReloadFailed(primary: Error, cleanup: seq<Error>)
    | Panic

  /** Everything the transaction touches. */
  datatype Whole = Whole(fibers: map<FiberId, Fiber>, arena: Arena, declared: Declared, entries: Registrations, services: State,
                         active: Active, retired: set<Gate>, draining: set<Gate>)

  datatype Swap = Swap(replaced: FiberId, staged: FiberId, staging: ScopeId, target: ScopeId)

  predicate BothExist(w: Whole, s: Swap) {
    s.replaced in w.fibers && s.staged in w.fibers
  }

  function ServiceMove(w: Whole, s: Swap): Revision
    requires s.staged in w.fibers
  {
    Revision(s.staging, s.target, w.fibers[s.staged].provided, s.replaced, s.staged)
  }

  function ScopeMove(w: Whole, s: Swap): ScopeRevision
    requires s.staged in w.fibers
  {
    ScopeRevision(s.staging, s.target, s.staged, s.replaced, w.fibers[s.staged].childScopes)
  }

  predicate IsStaged(w: Whole, gate: Gate) {
    gate !in w.retired && !Visible(w.active, gate)
  }

  /** What the records say before anything is touched. */
  predicate Prepared(w: Whole, s: Swap)
    requires BothExist(w, s)
  {
    var incoming, outgoing := w.fibers[s.staged], w.fibers[s.replaced];
    && outgoing.state == Reloading && incoming.state == FiberState.Active && IsStaged(w, incoming.gate)
    && RevisionOk(w.entries.handlers, outgoing.invocationHandlers, incoming.invocationHandlers, s.target, w.active)
    && AllMovable(w.services.entries, ServiceMove(w, s))
  }

  predicate ScopePrepared(t: Arena, p: ScopeRevision) {
    && p.staging in t && t[p.staging].state == ScopeState.Active && p.staged in t[p.staging].fibers
    && p.target in t && t[p.target].state == ScopeState.Active && p.replaced in t[p.target].fibers
    && ParentIs(t, p.children, p.staging)
  }

  /** Exactly when the transaction goes through. */
  ghost predicate Commits(w: Whole, s: Swap) {
    && BothExist(w, s) && Prepared(w, s)
    && CanMove(w.declared, s.staging, s.target, w.fibers[s.staged].provisions, s.staged)
    && CanCommit(w.arena, ScopeMove(w, s))
    && w.fibers[s.staged].gate.selector == w.fibers[s.replaced].gate.selector && Visible(w.active, w.fibers[s.replaced].gate)
  }

  /** The same, up to the order in which lists name their members. */
  ghost predicate Unchanged(w: Whole, n: Whole) {
    && n.fibers == w.fibers && SameScopes(w.arena, n.arena) && SameProviders(w.declared, n.declared)
    && n.entries == w.entries && n.services == w.services
    && n.active == w.active && n.retired == w.retired && n.draining == w.draining
  }

  function Adopted(incoming: Fiber, target: ScopeId): Fiber {
    incoming.(scope := target, staged := false, reloadOwned := false, sealed := false, activation := None)
  }

  /** The record of a plugin that has been adopted, field by field: bound to the target, no longer hidden,
      its owner's alone, open, and its tasks released. */
  predicate IsAdopted(was: Fiber, now: Fiber, target: ScopeId) {
    && now.scope == target && !now.staged && !now.reloadOwned && !now.sealed && now.activation == None
    && now.state == was.state && now.gate == was.gate && now.provided == was.provided && now.provisions == was.provisions
    && now.handlers == was.handlers && now.invocationHandlers == was.invocationHandlers
    && now.invocationMiddleware == was.invocationMiddleware && now.childScopes == was.childScopes
  }

  /** Of all records that one alone has changed. */
  predicate OnlyAdopted(was: map<FiberId, Fiber>, s: Swap, now: map<FiberId, Fiber>)
    requires s.staged in was
  {
    && now.Keys == was.Keys && IsAdopted(was[s.staged], now[s.staged], s.target)
    && forall f <- was :: f != s.staged ==> now[f] == was[f]
  }

  /** A barrier that was held has been released once more than before, with true; nothing else was sent. */
  ghost predicate ReleasesOnly(held: Option<nat>, before: seq<(nat, bool)>, after: seq<(nat, bool)>) {
    forall barrier: nat, answer: bool ::
      multiset(after)[(barrier, answer)] == multiset(before)[(barrier, answer)] + if held == Some(barrier) && answer then 1 else 0
  }

  /** A failure whose undoing reported nothing. */
  predicate UndoneCleanly(e: Error) {
    e.ReloadFailed? ==> e.cleanup == []
  }

  /** The new generation is the live one, the old one accepts no more, and all that was staged is at
      the target. */
  ghost predicate Switched(w: Whole, s: Swap, n: Whole)
    requires BothExist(w, s) && AllMovable(w.services.entries, ServiceMove(w, s))
  {
    var incoming, outgoing := w.fibers[s.staged], w.fibers[s.replaced];
    && n.active == Select(w.active, incoming.gate) && n.retired == w.retired + {outgoing.gate} && n.draining == w.draining + {outgoing.gate}
    && n.fibers == w.fibers[s.staged := Adopted(incoming, s.target)]
    && n.arena == ScopesMoved(w.arena, ScopeMove(w, s))
    && IsMoved(w.declared, s.staging, s.target, incoming.provisions, s.staged, n.declared)
    && n.entries == Registrations(HandlersAt(w.entries.handlers, incoming.invocationHandlers, s.target),
                                  MiddlewareAt(w.entries.middleware, incoming.invocationMiddleware, s.target))
    && n.services == Bumped(w.services.(entries := Moved(w.services.entries, ServiceMove(w, s))))
  }

  /** The same half done: the record is not adopted, and of the services only the first few are taken
      from where they were staged, to nowhere. */
  ghost predicate Abandoned(w: Whole, s: Swap, n: Whole)
    requires BothExist(w, s)
  {
    var incoming, outgoing, p := w.fibers[s.staged], w.fibers[s.replaced], ServiceMove(w, s);
    && n.active == Select(w.active, incoming.gate) && n.retired == w.retired + {outgoing.gate} && n.draining == w.draining + {outgoing.gate}
    && n.fibers == w.fibers
    && n.arena == ScopesMoved(w.arena, ScopeMove(w, s))
    && IsMoved(w.declared, s.staging, s.target, incoming.provisions, s.staged, n.declared)
    && n.entries == Registrations(HandlersAt(w.entries.handlers, incoming.invocationHandlers, s.target),
                                  MiddlewareAt(w.entries.middleware, incoming.invocationMiddleware, s.target))
    && n.services == w.services.(entries := TakenOut(w.services.entries, p, Fresh(p.symbols)))
  }

  /** What registration gives: each scope and gate once, and the staged entries registered where they
      are staged. */
  ghost predicate WellStaged(w: Whole, s: Swap) {
    BothExist(w, s) ==>
      var incoming, outgoing := w.fibers[s.staged], w.fibers[s.replaced];
      && Distinct(incoming.childScopes)
      && (s.staging in w.arena ==> Distinct(w.arena[s.staging].children))
      && Registered(w.entries, incoming.invocationHandlers, incoming.invocationMiddleware, s.staging)
      && incoming.gate.generation != NONE && outgoing.gate.generation != NONE && incoming.gate != outgoing.gate
  }

  /** The order in which the checks are made. */
  function Rank(e: Error): nat {
    match e
    case ShuttingDown => 0
    case FiberNotFound => 1
    case InvalidFiberState => 2
    case PublicationFailed => 3
    case DuplicateInvocation => 4
    case DuplicateService => 5
    case ServicesChanged => 6
    case ScopesChanged => 7
    case _ => 8
  }

  predicate ProvidesElsewhere(w: Whole, s: Swap, symbol: Symbol) {
    var key := Key(s.target, symbol);
    key in w.services.entries && w.services.entries[key].owner != s.replaced
  }

  predicate NotStaged(w: Whole, s: Swap, symbol: Symbol) {
    var key := Key(s.staging, symbol);
    key !in w.services.entries || w.services.entries[key].owner != s.staged
  }

  predicate NotListed(t: Arena, scope: ScopeId, f: FiberId) {
    scope !in t || t[scope].state != ScopeState.Active || f !in t[scope].fibers
  }

  /** What each of them objects to. */
  predicate Objects(w: Whole, s: Swap, running: bool, e: Error) {
    match e
    case ShuttingDown => !running
    case FiberNotFound => s.replaced !in w.fibers || s.staged !in w.fibers
    case InvalidFiberState => BothExist(w, s) && w.fibers[s.replaced].state != Reloading
    case PublicationFailed =>
      && BothExist(w, s)
      && var f := w.fibers[s.staged]; f.state != FiberState.Active || f.gate in w.retired || Visible(w.active, f.gate)
    case DuplicateInvocation =>
      && BothExist(w, s)
      && !RevisionOk(w.entries.handlers, w.fibers[s.replaced].invocationHandlers, w.fibers[s.staged].invocationHandlers, s.target, w.active)
    case DuplicateService => BothExist(w, s) && exists symbol <- w.fibers[s.staged].provided :: ProvidesElsewhere(w, s, symbol)
    case ServicesChanged => BothExist(w, s) && exists symbol <- w.fibers[s.staged].provided :: NotStaged(w, s, symbol)
    case ScopesChanged =>
      && BothExist(w, s)
      && (NotListed(w.arena, s.staging, s.staged) || NotListed(w.arena, s.target, s.replaced)
          || exists c <- w.fibers[s.staged].childScopes :: c !in w.arena || w.arena[c].parent != Some(s.staging))
    case _ => false
  }

  lemma ServicesObject(w: Whole, s: Swap)
    requires BothExist(w, s)
    ensures AllMovable(w.services.entries, ServiceMove(w, s)) <==>
              !Objects(w, s, true, DuplicateService) && !Objects(w, s, true, ServicesChanged)
  {
    var p := ServiceMove(w, s);
    if AllMovable(w.services.entries, p) {
      forall symbol | symbol in p.symbols ensures !ProvidesElsewhere(w, s, symbol) && !NotStaged(w, s, symbol) {
        assert Movable(w.services.entries, p, symbol);
      }
    } else {
      var symbol :| symbol in p.symbols && !Movable(w.services.entries, p, symbol);
      assert ProvidesElsewhere(w, s, symbol) || NotStaged(w, s, symbol);
    }
  }

  lemma ScopesObject(w: Whole, s: Swap)
    requires BothExist(w, s)
    ensures ScopePrepared(w.arena, ScopeMove(w, s)) <==> !Objects(w, s, true, ScopesChanged)
  {
  }

  /** Nothing is touched unless no check objects. */
  lemma PreparedExactly(w: Whole, s: Swap, running: bool)
    ensures running && BothExist(w, s) && Prepared(w, s) && ScopePrepared(w.arena, ScopeMove(w, s)) <==>
              forall e :: !Objects(w, s, running, e)
  {
    if BothExist(w, s) {
      ServicesObject(w, s);
      ScopesObject(w, s);
    }
    if forall e :: !Objects(w, s, running, e) {
      assert !Objects(w, s, running, ShuttingDown) && !Objects(w, s, running, FiberNotFound);
      assert !Objects(w, s, running, InvalidFiberState) && !Objects(w, s, running, PublicationFailed);
      assert !Objects(w, s, running, DuplicateInvocation);
    }
  }

  /** The first check to object. */
  ghost predicate FirstObjection(w: Whole, s: Swap, running: bool, e: Error) {
    Objects(w, s, running, e) && forall f :: Objects(w, s, running, f) ==> Rank(e) <= Rank(f)
  }

  /** Why a step of the transaction is refused after the checks; the undoing has reported nothing. */
  ghost predicate RefusedFor(w: Whole, s: Swap, e: Error)
    requires BothExist(w, s)
  {
    var incoming, outgoing := w.fibers[s.staged], w.fibers[s.replaced];
    var movable := CanMove(w.declared, s.staging, s.target, incoming.provisions, s.staged);
    match e
    case ProvidersChanged => !movable
    case ReloadFailed(ScopesChanged, cleanup) => cleanup == [] && movable && !CanCommit(w.arena, ScopeMove(w, s))
    case ReloadFailed(PublicationFailed, cleanup) =>
      && cleanup == [] && movable && CanCommit(w.arena, ScopeMove(w, s))
      && !(incoming.gate.selector == outgoing.gate.selector && Visible(w.active, outgoing.gate))
    case _ => false
  }

  class Runtime {
    const gates: Gates
    const services: ServiceRegistry
    const dependencies: DependencyGraph
    const scopes: ScopeRegistry
    const invocations: InvocationRegistry
    var fibers: map<FiberId, Fiber>
    /** Activation barriers released, and with which answer. */
    var released: seq<(nat, bool)>

    ghost function Abstract(): Whole
      reads this, gates, services, dependencies, scopes, invocations
    {
      Whole(fibers, scopes.scopes, dependencies.declared, invocations.Entries(), services.Abstract(),
            gates.active, gates.retired, gates.draining)
    }

    ghost predicate Valid()
      reads this, services
    {
      services.Valid()
    }

    constructor (max: nat)
      ensures Valid() && fresh(gates) && fresh(services) && fresh(dependencies) && fresh(scopes) && fresh(invocations)
    {
      gates := new Gates();
      services := new ServiceRegistry(max);
      dependencies := new DependencyGraph();
      scopes := new ScopeRegistry();
      invocations := new InvocationRegistry();
      fibers := map[];
      released := [];
    }

    /** The checks that come before anything is touched. */
    method Prepare(s: Swap, running: bool) returns (r: Result<(), Error>)
      requires Valid()
      ensures r.Ok? <==>
                running && BothExist(Abstract(), s) && Prepared(Abstract(), s)
                && ScopePrepared(scopes.scopes, ScopeMove(Abstract(), s))
      ensures r.Err? ==> !r.error.ReloadFailed? && !r.error.Panic? && FirstObjection(Abstract(), s, running, r.error)
    {
      var inRecords := CheckRecords(s, running);
      PreparedExactly(Abstract(), s, running);
      if inRecords.Some? { return Err(inRecords.value); }
      assert Rank(FiberNotFound) < 5 && !Objects(Abstract(), s, running, FiberNotFound);
      var inServices := CheckServices(s);
      if inServices.Some? { return Err(inServices.value); }
      ScopesObject(Abstract(), s);
      if !ScopePrepared(scopes.scopes, ScopeRevision(s.staging, s.target, s.staged, s.replaced, fibers[s.staged].childScopes)) {
        return Err(ScopesChanged);
      }
      return Ok(());
    }

    method CheckRecords(s: Swap, running: bool) returns (r: Option<Error>)
      ensures r.Some? ==> Rank(r.value) < 5 && FirstObjection(Abstract(), s, running, r.value)
      ensures r.None? ==> forall e :: Rank(e) < 5 ==> !Objects(Abstract(), s, running, e)
    {
      if !running { return Some(ShuttingDown); }
      if s.replaced !in fibers || s.staged !in fibers { return Some(FiberNotFound); }
      var outgoing, incoming := fibers[s.replaced], fibers[s.staged];
      if outgoing.state != Reloading { return Some(InvalidFiberState); }
      if incoming.state != FiberState.Active || incoming.gate in gates.retired || Visible(gates.active, incoming.gate) {
        return Some(PublicationFailed);
      }
      var valid := invocations.ValidateRevision(outgoing.invocationHandlers, incoming.invocationHandlers, s.target, gates);
      return if valid then None else Some(DuplicateInvocation);
    }

    method CheckServices(s: Swap) returns (r: Option<Error>)
      requires BothExist(Abstract(), s)
      ensures match r
              case Some(e) =>
                (e == DuplicateService && Objects(Abstract(), s, true, DuplicateService))
                || (e == ServicesChanged && Objects(Abstract(), s, true, ServicesChanged) && !Objects(Abstract(), s, true, DuplicateService))
              case None => !Objects(Abstract(), s, true, DuplicateService) && !Objects(Abstract(), s, true, ServicesChanged)
    {
      var incoming := fibers[s.staged];
      for i := 0 to |incoming.provided|
        invariant forall symbol <- incoming.provided[..i] :: !ProvidesElsewhere(Abstract(), s, symbol)
      {
        assert incoming.provided[..i + 1] == incoming.provided[..i] + [incoming.provided[i]];
        var key := Key(s.target, incoming.provided[i]);
        if key in services.entries && services.entries[key].owner != s.replaced {
          assert ProvidesElsewhere(Abstract(), s, incoming.provided[i]);
          return Some(DuplicateService);
        }
      }
      var movable := services.PrepareRevision(Revision(s.staging, s.target, incoming.provided, s.replaced, s.staged));
      ServicesObject(Abstract(), s);
      return if movable then None else Some(ServicesChanged);
    }

    /** The checks, then the steps. */
    method CommitStagedRevision(s: Swap, running: bool) returns (r: Result<seq<nat>, Error>)
      requires Valid() && WellStaged(Abstract(), s)
      modifies this, gates, services, dependencies, scopes, invocations
      ensures Valid()
      ensures r.Ok? <==> running && Commits(old(Abstract()), s) && Distinct(old(fibers)[s.staged].provided)
      ensures r == Err(Panic) <==> running && Commits(old(Abstract()), s) && !Distinct(old(fibers)[s.staged].provided)
      ensures r.Ok? ==> Switched(old(Abstract()), s, Abstract()) && r.value == old(fibers)[s.staged].handlers
      ensures r == Err(Panic) ==> Abandoned(old(Abstract()), s, Abstract()) && released == old(released)
      ensures r.Err? && r != Err(Panic) ==> Unchanged(old(Abstract()), Abstract()) && released == old(released)
      ensures r.Ok? ==> OnlyAdopted(old(fibers), s, fibers) && ReleasesOnly(old(fibers)[s.staged].activation, old(released), released)
      ensures r.Err? ==> UndoneCleanly(r.error)
      ensures r.Err? && r != Err(Panic) ==>
                || FirstObjection(old(Abstract()), s, running, r.error)
                || (&& (forall e :: !Objects(old(Abstract()), s, running, e)) && BothExist(old(Abstract()), s)
                    && RefusedFor(old(Abstract()), s, r.error))
    {
      PreparedExactly(Abstract(), s, running);
      var _ :- Prepare(s, running);
      r := Apply(s);
    }

    /** The reversible steps, the publication, and what undoes the former if the latter fails. */
    method Apply(s: Swap) returns (r: Result<seq<nat>, Error>)
      requires Valid() && WellStaged(Abstract(), s) && BothExist(Abstract(), s) && Prepared(Abstract(), s)
      modifies this, gates, services, dependencies, scopes, invocations
      ensures Valid()
      ensures r.Ok? <==> Commits(old(Abstract()), s) && Distinct(old(fibers)[s.staged].provided)
      ensures r == Err(Panic) <==> Commits(old(Abstract()), s) && !Distinct(old(fibers)[s.staged].provided)
      ensures r.Ok? ==> Switched(old(Abstract()), s, Abstract()) && r.value == old(fibers)[s.staged].handlers
      ensures r == Err(Panic) ==> Abandoned(old(Abstract()), s, Abstract()) && released == old(released)
      ensures r.Err? && r != Err(Panic) ==> Unchanged(old(Abstract()), Abstract()) && released == old(released)
      ensures r.Ok? ==> OnlyAdopted(old(fibers), s, fibers) && ReleasesOnly(old(fibers)[s.staged].activation, old(released), released)
      ensures r.Err? && r != Err(Panic) ==> RefusedFor(old(Abstract()), s, r.error)
    {
      var outgoing, incoming := fibers[s.replaced], fibers[s.staged];
      var topology := MoveTopology(s, incoming);
      if topology.Some? { return Err(topology.value); }
      var published := MoveEntriesAndPublish(s, incoming, outgoing);
      if published.Panicked? { return Err(Panic); }
      if !published.Committed? {
        var cleanup := UndoTopology(s, incoming, old(scopes.scopes), old(dependencies.declared));
        return Err(ReloadFailed(if published.Changed? then ServicesChanged else PublicationFailed, cleanup));
      }
      Adopt(s, incoming);
      return Ok(incoming.handlers);
    }

    /** The record of the staged plugin becomes that of the live one, and its tasks may start. */
    method Adopt(s: Swap, incoming: Fiber)
      requires s.staged in fibers && incoming == fibers[s.staged]
      modifies this
      ensures fibers == old(fibers)[s.staged := Adopted(incoming, s.target)]
      ensures OnlyAdopted(old(fibers), s, fibers) && ReleasesOnly(incoming.activation, old(released), released)
    {
      fibers := fibers[s.staged := Adopted(incoming, s.target)];
      released := Release(incoming, released);
      ReleasedOnce(incoming, old(released));
    }

    function MoveOf(s: Swap, incoming: Fiber): ScopeRevision {
      ScopeRevision(s.staging, s.target, s.staged, s.replaced, incoming.childScopes)
    }

    /** Providers and scopes, or neither. */
    method MoveTopology(s: Swap, incoming: Fiber) returns (failure: Option<Error>)
      modifies dependencies, scopes
      ensures failure == None <==> && CanMove(old(dependencies.declared), s.staging, s.target, incoming.provisions, s.staged)
                                   && CanCommit(old(scopes.scopes), MoveOf(s, incoming))
      ensures failure == None ==> && IsMoved(old(dependencies.declared), s.staging, s.target, incoming.provisions, s.staged, dependencies.declared)
                                  && scopes.scopes == ScopesMoved(old(scopes.scopes), MoveOf(s, incoming))
      ensures failure.Some? ==> scopes.scopes == old(scopes.scopes) && SameProviders(old(dependencies.declared), dependencies.declared)
      ensures failure.Some? ==> failure.value == if CanMove(old(dependencies.declared), s.staging, s.target, incoming.provisions, s.staged)
                                                 then ReloadFailed(ScopesChanged, []) else ProvidersChanged
    {
      var moved := dependencies.MoveProviders(s.staging, s.target, incoming.provisions, s.staged);
      if !moved { return Some(ProvidersChanged); }
      var committed := scopes.CommitLocked(MoveOf(s, incoming));
      if !committed {
        var cleanup := UndoProviders(s, incoming, old(dependencies.declared));
        return Some(ReloadFailed(ScopesChanged, cleanup));
      }
      return None;
    }

    method UndoTopology(s: Swap, incoming: Fiber, ghost arena: Arena, ghost declared: Declared) returns (cleanup: seq<Error>)
      requires CanCommit(arena, MoveOf(s, incoming)) && scopes.scopes == ScopesMoved(arena, MoveOf(s, incoming))
      requires Distinct(incoming.childScopes) && Distinct(arena[s.staging].children)
      requires CanMove(declared, s.staging, s.target, incoming.provisions, s.staged)
      requires IsMoved(declared, s.staging, s.target, incoming.provisions, s.staged, dependencies.declared)
      modifies dependencies, scopes
      ensures cleanup == [] && SameScopes(arena, scopes.scopes) && SameProviders(declared, dependencies.declared)
    {
      var scopesLeft := UndoScopes(MoveOf(s, incoming), arena);
      var providersLeft := UndoProviders(s, incoming, declared);
      return scopesLeft + providersLeft;
    }

    method UndoScopes(p: ScopeRevision, ghost was: Arena) returns (cleanup: seq<Error>)
      requires CanCommit(was, p) && scopes.scopes == ScopesMoved(was, p)
      requires Distinct(p.children) && Distinct(was[p.staging].children)
      modifies scopes
      ensures cleanup == [] && SameScopes(was, scopes.scopes)
    {
      ScopesRollbackSucceeds(was, p);
      ScopesRollbackRestores(was, p);
      var ok := scopes.RollbackLocked(p);
      return if ok then [] else [ScopesChanged];
    }

    /** Invocation entries go first and come back if the publication is refused; a panic undoes nothing. */
    method MoveEntriesAndPublish(s: Swap, incoming: Fiber, outgoing: Fiber) returns (published: CommitResult)
      requires Valid()
      requires Registered(invocations.Entries(), incoming.invocationHandlers, incoming.invocationMiddleware, s.staging)
      requires incoming.gate.generation != NONE && outgoing.gate.generation != NONE && incoming.gate != outgoing.gate
      modifies gates, services, invocations
      ensures Valid()
      ensures var p := Revision(s.staging, s.target, incoming.provided, s.replaced, s.staged);
              && published == Outcome(old(services.entries), p, incoming.gate, outgoing.gate, old(gates.active), old(gates.retired))
              && services.Abstract() == match published
                                        case Committed => Bumped(old(services.Abstract()).(entries := Moved(old(services.entries), p)))
                                        case Panicked => old(services.Abstract()).(entries := TakenOut(old(services.entries), p, Fresh(p.symbols)))
                                        case _ => old(services.Abstract())
      ensures published.Committed? || published.Panicked? ==>
                && invocations.Entries() == Registrations(HandlersAt(old(invocations.handlers), incoming.invocationHandlers, s.target),
                                                          MiddlewareAt(old(invocations.middleware), incoming.invocationMiddleware, s.target))
                && gates.active == Select(old(gates.active), incoming.gate)
                && gates.retired == old(gates.retired) + {outgoing.gate} && gates.draining == old(gates.draining) + {outgoing.gate}
      ensures !published.Committed? && !published.Panicked? ==>
                && invocations.Entries() == old(invocations.Entries())
                && gates.active == old(gates.active) && gates.retired == old(gates.retired) && gates.draining == old(gates.draining)
    {
      MoveBack(invocations.Entries(), incoming.invocationHandlers, incoming.invocationMiddleware, s.staging, s.target);
      invocations.CommitRevision(incoming.invocationHandlers, incoming.invocationMiddleware, s.target);
      published := services.CommitRevisionAndPublish(
        Revision(s.staging, s.target, incoming.provided, s.replaced, s.staged), incoming.gate, outgoing.gate, gates);
      if !published.Committed? && !published.Panicked? {
        invocations.CommitRevision(incoming.invocationHandlers, incoming.invocationMiddleware, s.staging);
      }
    }

    method UndoProviders(s: Swap, incoming: Fiber, ghost was: Declared) returns (cleanup: seq<Error>)
      requires CanMove(was, s.staging, s.target, incoming.provisions, s.staged)
      requires IsMoved(was, s.staging, s.target, incoming.provisions, s.staged, dependencies.declared)
      modifies dependencies
      ensures cleanup == [] && SameProviders(was, dependencies.declared)
    {
      ghost var moved := dependencies.declared;
      ProvidersRollbackSucceeds(was, s.staging, s.target, incoming.provisions, s.staged, moved, moved);
      var ok := dependencies.MoveProviders(s.target, s.staging, incoming.provisions, s.staged);
      ProvidersRollbackRestores(was, s.staging, s.target, incoming.provisions, s.staged, moved, dependencies.declared);
      return if ok then [] else [ProvidersChanged];
    }
  }

  function Release(incoming: Fiber, released: seq<(nat, bool)>): seq<(nat, bool)> {
    match incoming.activation
    case None => released
    case Some(barrier) => released + [(barrier, true)]
  }

  lemma ReleasedOnce(incoming: Fiber, released: seq<(nat, bool)>)
    ensures ReleasesOnly(incoming.activation, released, Release(incoming, released))
  {
  }

  // ---- What a commit leaves behind -----------------------------------------------------------------

  /** Nothing of the staged plugin is left in the staging scope, in any of the four registries; only its
      generation is visible, and its record, alone of all, is that of an adopted plugin. */
  lemma NothingLeftInStaging(w: Whole, s: Swap, n: Whole)
    requires WellStaged(w, s) && Commits(w, s) && Switched(w, s, n)
    ensures var incoming, outgoing := w.fibers[s.staged], w.fibers[s.replaced];
            && Visible(n.active, incoming.gate) && !Visible(n.active, outgoing.gate) && outgoing.gate in n.draining
            && s.staged !in n.arena[s.staging].fibers && Count(n.arena[s.target].fibers, s.staged) == 1
            && (forall c <- incoming.childScopes :: c in n.arena && n.arena[c].parent == Some(s.target)
                                                  && c !in n.arena[s.staging].children && c in n.arena[s.target].children)
            && (forall symbol <- incoming.provisions :: s.staged !in ProvidersAt(n.declared, Key(s.staging, symbol))
                                                      && Count(ProvidersAt(n.declared, Key(s.target, symbol)), s.staged) == 1)
            && (forall symbol <- incoming.provided ::
                  Key(s.staging, symbol) !in n.services.entries && Key(s.target, symbol) in n.services.entries
                  && n.services.entries[Key(s.target, symbol)].owner == s.staged
                  && n.services.entries[Key(s.target, symbol)].scope == s.target)
            && (forall h <- n.entries.handlers :: h.id in incoming.invocationHandlers ==> h.scope == s.target)
            && (forall m <- n.entries.middleware :: m.id in incoming.invocationMiddleware ==> m.scope == s.target)
            && OnlyAdopted(w.fibers, s, n.fibers)
  {
    var p := ScopeMove(w, s);
    var incoming := w.fibers[s.staged];
    ScopesOfCommit(w.arena, p);
    forall symbol | symbol in incoming.provisions
      ensures s.staged !in ProvidersAt(n.declared, Key(s.staging, symbol))
      ensures Count(ProvidersAt(n.declared, Key(s.target, symbol)), s.staged) == 1
    {
      MovedCount(w.declared, s.staging, s.target, incoming.provisions, s.staged, n.declared, symbol, s.staging);
      MovedCount(w.declared, s.staging, s.target, incoming.provisions, s.staged, n.declared, symbol, s.target);
    }
    ServicesOfCommit(w.services.entries, ServiceMove(w, s));
  }

  lemma ScopesOfCommit(t: Arena, p: ScopeRevision)
    requires CanCommit(t, p)
    ensures var u := ScopesMoved(t, p);
            && p.staging != p.target
            && p.staged !in u[p.staging].fibers && Count(u[p.target].fibers, p.staged) == 1
            && forall c <- p.children :: c in u && u[c].parent == Some(p.target)
                 && c !in u[p.staging].children && c in u[p.target].children
  {
    ScopesRollbackSucceeds(t, p);
    assert p.staged in t[p.staging].fibers;
  }

  lemma ServicesOfCommit(entries: map<Key, Entry>, p: Revision)
    requires AllMovable(entries, p) && p.from != p.to
    ensures forall symbol <- p.symbols ::
              && Key(p.from, symbol) !in Moved(entries, p) && Key(p.to, symbol) in Moved(entries, p)
              && Moved(entries, p)[Key(p.to, symbol)] == entries[Key(p.from, symbol)].(scope := p.to)
              && entries[Key(p.from, symbol)].owner == p.stagedOwner
  {
    forall symbol | symbol in p.symbols
      ensures Key(p.from, symbol) !in Moved(entries, p) && Key(p.to, symbol) in Moved(entries, p)
      ensures entries[Key(p.from, symbol)].owner == p.stagedOwner
    {
      assert Movable(entries, p, symbol);
    }
  }

  /** Whoever resolves a replaced service from the target gets the staged plugin's, as soon as the
      transaction is through. */
  lemma TargetResolvesToStaged(w: Whole, s: Swap, n: Whole, symbol: Symbol, above: seq<ScopeId>)
    requires WellStaged(w, s) && Commits(w, s) && Switched(w, s, n) && symbol in w.fibers[s.staged].provided
    requires w.services.entries[Key(s.staging, symbol)].gate == w.fibers[s.staged].gate
    ensures var found := WalkEntry(n.services.entries, n.active, [s.target] + above, symbol);
            found.Some? && found.value.owner == s.staged && found.value.gate == w.fibers[s.staged].gate
  {
    ScopesOfCommit(w.arena, ScopeMove(w, s));
    ServicesOfCommit(w.services.entries, ServiceMove(w, s));
  }
}
