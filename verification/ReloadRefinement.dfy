/** The hot reload as others see it: one atomic step, or none.  Where the transaction is under way, the
    registries are understood as if it had not begun, and from the exchange on as if it were through; the
    sections of the transaction then change nothing but the order of lists.  The exception is a panic in
    the section that moves the services, which leaves the rest undone. */
module ReloadRefinement {
  import opened Wrappers
  import opened CapabilityGate
  import opened FiberStates
  import opened Sequences
  import opened ServiceRegistry
  import opened DependencyGraph
  import opened Scopes
  import opened Invocation
  import opened Reload
  import opened ReloadProtocol
  import Resolution
  import ScopeDisposal

  // ---- The transaction as one atomic step ------------------------------------------------------------------

  /** The registries as they are to be understood: what has been moved counts as moved only from the
      exchange on, and from then on as moved completely. */
  function Meant(w: World, s: Swap): Whole {
    var x, i := w.now, w.incoming;
    Whole(if AfterCut(w.pc) then x.fibers[s.staged := Adopted(i, s.target)] else x.fibers,
          if BeforeCut(w.pc) then w.before else x.arena,
          if ProvidersAway(w.pc) then MoveAll(x.declared, s.target, s.staging, i.provisions, s.staged) else x.declared,
          if EntriesAway(w.pc) then EntriesAt(x.entries, i, s.staging) else x.entries,
          if ServicesPending(w.pc) then Republished(x.services, ServicesOf(s, i)) else x.services,
          x.active, x.retired, x.draining)
  }

  /** What the whole transaction comes to; the fencing of the old generation follows it. */
  function Swapped(x: Whole, s: Swap): Whole
    requires Present(x, s)
  {
    var i := x.fibers[s.staged];
    Whole(x.fibers[s.staged := Adopted(i, s.target)], ScopesMoved(x.arena, MoveOf(s, i)),
          MoveAll(x.declared, s.staging, s.target, i.provisions, s.staged), EntriesAt(x.entries, i, s.target),
          Republished(x.services, ServicesOf(s, i)), Select(x.active, i.gate), x.retired, x.draining)
  }

  /** At that instant everything can be moved and the exchange goes through. */
  ghost predicate Ripe(x: Whole, s: Swap) {
    Present(x, s) &&
    var i, was := x.fibers[s.staged], OldGate(x, s);
    && i.state == FiberState.Active && IsStaged(x, i.gate) && i.gate.selector == was.selector && Visible(x.active, was)
    && AllMovable(x.services.entries, ServicesOf(s, i)) && CanCommit(x.arena, MoveOf(s, i))
    && CanMove(x.declared, s.staging, s.target, i.provisions, s.staged)
  }

  ghost predicate SwapsAtOnce(x: Whole, s: Swap, y: Whole) {
    Ripe(x, s) && Unchanged(Swapped(x, s), y)
  }

  /** Moving there and back is nothing but a change of order. */
  lemma AwayAndBack(d: Declared, from: ScopeId, to: ScopeId, symbols: seq<Symbol>, f: FiberId)
    requires CanMove(d, from, to, symbols, f)
    ensures var e := MoveAll(d, from, to, symbols, f);
            CanMove(e, to, from, symbols, f) && SameProviders(d, MoveAll(e, to, from, symbols, f))
  {
    var e := MoveAll(d, from, to, symbols, f);
    var back := MoveAll(e, to, from, symbols, f);
    MoveAllIsMoved(d, from, to, symbols, f);
    MoveAllIsMoved(e, to, from, symbols, f);
    ProvidersRollbackSucceeds(d, from, to, symbols, f, e, e);
    ProvidersRollbackRestores(d, from, to, symbols, f, e, back);
  }

  lemma CheckMeans(w: World, s: Swap, a: ReloadStep, n: World)
    requires Inv(w, s) && NextCheck(w, s, a, n)
    ensures Meant(n, s) == Meant(w, s)
  {
    CheckFrame(w, s, a, n);
  }

  lemma CommitProvidersMeans(w: World, s: Swap, n: World)
    requires NextMove(w, s, CommitProviders, n)
    ensures Unchanged(Meant(w, s), Meant(n, s))
  {
    if n.pc.ProvidersOver? { AwayAndBack(w.now.declared, s.staging, s.target, w.incoming.provisions, s.staged); }
  }

  lemma CommitScopesMeans(w: World, s: Swap, n: World)
    requires NextMove(w, s, CommitScopes, n)
    ensures Meant(n, s) == Meant(w, s)
  {
  }

  lemma EntriesThere(r: Registrations, s: Swap, f: Fiber)
    requires forall h <- r.handlers :: h.id in f.invocationHandlers ==> h.scope == s.staging
    requires forall m <- r.middleware :: m.id in f.invocationMiddleware ==> m.scope == s.staging
    ensures EntriesAt(EntriesAt(r, f, s.target), f, s.staging) == r
  {
    MoveBack(r, f.invocationHandlers, f.invocationMiddleware, s.staging, s.target);
  }

  lemma CommitEntriesMeans(w: World, s: Swap, n: World)
    requires Inv(w, s) && NextMove(w, s, CommitEntries, n)
    ensures Meant(n, s) == Meant(w, s)
  {
    EntriesThere(w.now.entries, s, w.incoming);
  }

  lemma ScopesThere(before: Arena, p: ScopeRevision, now: Arena)
    requires CanCommit(before, p) && now == ScopesMoved(before, p) && Distinct(p.children) && Distinct(before[p.staging].children)
    ensures CanRollBack(now, p) && SameScopes(before, ScopesBack(now, p))
  {
    ScopesRollbackSucceeds(before, p);
    ScopesRollbackRestores(before, p);
  }

  lemma MovedArena(w: World, s: Swap)
    requires Inv(w, s) && w.pc.UndoingScopes?
    ensures var p := MoveOf(s, w.incoming);
            CanCommit(w.before, p) && w.now.arena == ScopesMoved(w.before, p) && Distinct(p.children) && Distinct(w.before[p.staging].children)
  {
  }

  lemma ArenaMeant(w: World, s: Swap, n: World)
    requires w.pc.UndoingScopes? && n == w.(pc := UndoingProviders(w.pc.primary, []), now := w.now.(arena := n.now.arena))
    ensures Meant(w, s).arena == w.before && Meant(n, s) == Meant(w, s).(arena := n.now.arena)
  {
  }

  lemma ArenaOnly(m: Whole, k: Whole)
    requires k == m.(arena := k.arena) && SameScopes(m.arena, k.arena)
    ensures Unchanged(m, k)
  {
  }

  lemma UndoScopesMeans(w: World, s: Swap, n: World)
    requires Inv(w, s) && NextMove(w, s, UndoScopes, n)
    ensures Unchanged(Meant(w, s), Meant(n, s))
  {
    MovedArena(w, s);
    UndoScopesFrame(w, s, n);
    ScopesThere(w.before, MoveOf(s, w.incoming), w.now.arena);
    ArenaMeant(w, s, n);
    ArenaOnly(Meant(w, s), Meant(n, s));
  }

  lemma LockServicesMeans(w: World, s: Swap, n: World)
    requires NextMove(w, s, LockServices, n)
    ensures Meant(n, s) == Meant(w, s)
  {
    assert EntriesAway(w.pc) && EntriesAway(n.pc) && n == w.(pc := n.pc);
  }

  lemma UndoEntriesMeans(w: World, s: Swap, n: World)
    requires NextMove(w, s, UndoEntries, n)
    ensures Meant(n, s) == Meant(w, s)
  {
  }

  lemma UndoProvidersMeans(w: World, s: Swap, n: World)
    requires CanMove(w.now.declared, s.target, s.staging, w.incoming.provisions, s.staged) && NextMove(w, s, UndoProviders, n)
    ensures Meant(n, s) == Meant(w, s)
  {
    UndoProvidersFrame(w, s, n);
  }

  /** Every step of the transaction that is not its exchange changes nothing but the order of lists. */
  lemma MoveMeans(w: World, s: Swap, a: ReloadStep, n: World)
    requires Inv(w, s) && NextMove(w, s, a, n)
    ensures Unchanged(Meant(w, s), Meant(n, s))
  {
    match a {
      case CommitProviders => CommitProvidersMeans(w, s, n);
      case CommitScopes => CommitScopesMeans(w, s, n);
      case CommitEntries => CommitEntriesMeans(w, s, n);
      case UndoScopes => UndoScopesMeans(w, s, n);
      case LockServices => LockServicesMeans(w, s, n);
      case UndoEntries => UndoEntriesMeans(w, s, n);
      case UndoProviders => UndoProvidersMeans(w, s, n);
    }
  }

  lemma RipeToPublish(w: World, s: Swap)
    requires Inv(w, s) && w.pc.Publishing? && Visible(w.now.active, OldGate(w.now, s))
    ensures Ripe(Meant(w, s), s)
  {
    AwayAndBack(w.now.declared, s.target, s.staging, w.incoming.provisions, s.staged);
  }

  lemma PartsMatch(x: Whole, s: Swap, y: Whole)
    requires Present(x, s)
    requires var z := Swapped(x, s);
             && y.fibers == z.fibers && y.arena == z.arena && SameProviders(z.declared, y.declared) && y.entries == z.entries
             && y.services == z.services && y.active == z.active && y.retired == z.retired && y.draining == z.draining
    ensures Unchanged(Swapped(x, s), y)
  {
  }

  /** The exchange is the whole transaction. */
  lemma ExchangeMeans(w: World, s: Swap, n: World)
    requires Inv(w, s) && NextCut(w, s, Exchange, n) && n.pc.Cut?
    ensures SwapsAtOnce(Meant(w, s), s, Meant(n, s))
  {
    var m := Meant(w, s);
    RipeToPublish(w, s);
    assert m.fibers == w.now.fibers && m.fibers[s.staged] == w.incoming;
    AwayAndBack(w.now.declared, s.target, s.staging, w.incoming.provisions, s.staged);
    EntriesFromThere(w.now.entries, s, w.incoming);
    assert n.now == w.now.(active := Select(w.now.active, w.incoming.gate)) && n.incoming == w.incoming;
    PartsMatch(m, s, Meant(n, s));
  }

  lemma EntriesFromThere(r: Registrations, s: Swap, f: Fiber)
    requires forall h <- r.handlers :: h.id in f.invocationHandlers ==> h.scope == s.target
    requires forall m <- r.middleware :: m.id in f.invocationMiddleware ==> m.scope == s.target
    ensures EntriesAt(EntriesAt(r, f, s.staging), f, s.target) == r
  {
    MoveBack(r, f.invocationHandlers, f.invocationMiddleware, s.target, s.staging);
  }

  lemma AfterCutMeans(w: World, s: Swap, a: ReloadStep, n: World)
    requires Present(w.now, s) && w.incoming == w.now.fibers[s.staged] && NextCut(w, s, a, n) && !n.pc.Cut? && !n.pc.Panicked?
    ensures var m := Meant(w, s);
            Meant(n, s) == m.(retired := if a == RetireOld then m.retired + {OldGate(w.now, s)} else m.retired,
                              draining := if a == FenceOld then m.draining + {OldGate(w.now, s)} else m.draining)
  {
    match a {
      case Exchange => assert n.now == w.now;
      case RetireOld => assert n.now == w.now.(retired := n.now.retired);
      case FenceOld => assert n.now == w.now.(draining := n.now.draining);
      case CommitServices => assert n.now == w.now.(services := n.now.services);
      case Adopt => assert n.now == w.now.(fibers := n.now.fibers);
    }
  }

  /** A panic leaves the swap half done: the record is not adopted, and the services that were taken are
      nowhere. */
  ghost predicate HalfDone(w: World, s: Swap, m: Whole, k: Whole) {
    k == m.(fibers := w.now.fibers, services := HalfTaken(w.now.services, ServicesOf(s, w.incoming)))
  }

  lemma PanicMeans(w: World, s: Swap, n: World)
    requires NextCut(w, s, CommitServices, n) && n.pc.Panicked?
    ensures HalfDone(w, s, Meant(w, s), Meant(n, s)) && !Distinct(w.incoming.provided)
  {
    assert n == w.(pc := n.pc, now := w.now.(services := n.now.services));
  }

  lemma CountMoved(d: Declared, from: ScopeId, to: ScopeId, symbols: seq<Symbol>, f: FiberId, key: Key, g: FiberId)
    ensures var e := MoveAll(d, from, to, symbols, f);
            Count(ProvidersAt(e, key), g) ==
              if g != f || key.symbol !in symbols then Count(ProvidersAt(d, key), g)
              else if key.scope == to then Count(ProvidersAt(d, key), g) + 1
              else if key.scope == from then 0 else Count(ProvidersAt(d, key), g)
  {
    MoveAllIsMoved(d, from, to, symbols, f);
    WithoutCounts(ProvidersAt(d, key), f);
    assert ProvidersAt(MoveAll(d, from, to, symbols, f), key) == MovedAt(d, from, to, symbols, f, key);
    assert multiset(ProvidersAt(d, key) + [f])[g] == Count(ProvidersAt(d, key), g) + if g == f then 1 else 0;
  }

  lemma TheirProvidersMean(d: Declared, e: Declared, from: ScopeId, to: ScopeId, symbols: seq<Symbol>, f: FiberId)
    requires SameFor(f, d, e)
    ensures SameFor(f, MoveAll(d, from, to, symbols, f), MoveAll(e, from, to, symbols, f))
  {
    var dd, ee := MoveAll(d, from, to, symbols, f), MoveAll(e, from, to, symbols, f);
    forall key: Key ensures Count(ProvidersAt(dd, key), f) == Count(ProvidersAt(ee, key), f) {
      CountMoved(d, from, to, symbols, f, key, f);
      CountMoved(e, from, to, symbols, f, key, f);
      assert Count(ProvidersAt(d, key), f) == Count(ProvidersAt(e, key), f);
    }
  }

  lemma EntryArrives(r: Registrations, f: Fiber, scope: ScopeId)
    ensures forall h <- r.handlers :: (if h.id in f.invocationHandlers then h.(scope := scope) else h) in EntriesAt(r, f, scope).handlers
    ensures forall m <- r.middleware :: (if m.id in f.invocationMiddleware then m.(scope := scope) else m) in EntriesAt(r, f, scope).middleware
  {
    var q := EntriesAt(r, f, scope);
    forall h | h in r.handlers ensures (if h.id in f.invocationHandlers then h.(scope := scope) else h) in q.handlers {
      var i :| 0 <= i < |r.handlers| && r.handlers[i] == h;
      assert q.handlers[i] in q.handlers;
    }
    forall m | m in r.middleware ensures (if m.id in f.invocationMiddleware then m.(scope := scope) else m) in q.middleware {
      var i :| 0 <= i < |r.middleware| && r.middleware[i] == m;
      assert q.middleware[i] in q.middleware;
    }
  }

  lemma TheirHandlersMean(r: Registrations, f: Fiber, q: Registrations, scope: ScopeId, kept: bool)
    requires TheirEntries(r, f, kept, q)
    ensures forall h <- EntriesAt(q, f, scope).handlers :: OwnHandler(f, h) ==> h in EntriesAt(r, f, scope).handlers
    ensures forall m <- EntriesAt(q, f, scope).middleware :: OwnMiddleware(f, m) ==> m in EntriesAt(r, f, scope).middleware
  {
    EntriesArrive(q, f, scope);
    EntryArrives(r, f, scope);
    forall h | h in EntriesAt(q, f, scope).handlers && OwnHandler(f, h) ensures h in EntriesAt(r, f, scope).handlers {
      var g :| g in q.handlers && h == if g.id in f.invocationHandlers then g.(scope := scope) else g;
      assert OwnHandler(f, g);
    }
    forall m | m in EntriesAt(q, f, scope).middleware && OwnMiddleware(f, m) ensures m in EntriesAt(r, f, scope).middleware {
      var g :| g in q.middleware && m == if g.id in f.invocationMiddleware then g.(scope := scope) else g;
      assert OwnMiddleware(f, g);
    }
  }

  lemma TheirEntriesMean(r: Registrations, f: Fiber, q: Registrations, scope: ScopeId, kept: bool)
    requires TheirEntries(r, f, kept, q)
    ensures TheirEntries(EntriesAt(r, f, scope), f, kept, EntriesAt(q, f, scope))
  {
    TheirHandlersMean(r, f, q, scope, kept);
    if kept { TheirHandlersMean(q, f, r, scope, kept); }
  }

  lemma TheirPartsMean(w: World, s: Swap, y: Whole, n: World)
    requires Inv(w, s) && NextOthers(w, s, y, n)
    ensures var m, k := Meant(w, s), Meant(n, s);
            && Present(m, s) && TheirRecords(m, s, k) && TheirGates(m, s, k) && TheirArena(m.arena, m.fibers[s.staged].childScopes, k.arena)
            && TheirServices(m.services, s.staged, k.services)
  {
  }

  lemma TheirProvidersMeant(w: World, s: Swap, y: Whole, n: World)
    requires Present(w.now, s) && TheirProviders(w.now.declared, s.staged, Alive(w.now, s), y.declared) && n == w.(now := y)
    ensures TheirProviders(Meant(w, s).declared, s.staged, Alive(w.now, s), Meant(n, s).declared)
  {
    if ProvidersAway(w.pc) && Alive(w.now, s) {
      TheirProvidersMean(w.now.declared, y.declared, s.target, s.staging, w.incoming.provisions, s.staged);
    }
  }

  lemma TheirEntriesMeant(w: World, s: Swap, y: Whole, n: World)
    requires Present(w.now, s) && (EntriesAway(w.pc) || AfterCut(w.pc) ==> w.incoming == w.now.fibers[s.staged]) && n == w.(now := y)
    requires TheirEntries(w.now.entries, w.now.fibers[s.staged], Alive(w.now, s), y.entries)
    ensures var m := Meant(w, s);
            s.staged in m.fibers && TheirEntries(m.entries, m.fibers[s.staged], Alive(w.now, s), Meant(n, s).entries)
  {
    if EntriesAway(w.pc) {
      TheirEntriesMean(w.now.entries, w.incoming, y.entries, s.staging, Alive(w.now, s));
    }
  }

  lemma MeantGates(w: World, s: Swap)
    requires Inv(w, s)
    ensures var m := Meant(w, s); Present(m, s) && (Alive(m, s) <==> Alive(w.now, s))
    ensures EntriesAway(w.pc) || AfterCut(w.pc) ==> w.incoming == w.now.fibers[s.staged]
  {
  }

  lemma TheirListsMean(w: World, s: Swap, y: Whole, n: World)
    requires Inv(w, s) && NextOthers(w, s, y, n)
    ensures var m, k := Meant(w, s), Meant(n, s);
            && Present(m, s)
            && TheirProviders(m.declared, s.staged, Alive(m, s), k.declared) && TheirEntries(m.entries, m.fibers[s.staged], Alive(m, s), k.entries)
  {
    MeantGates(w, s);
    TheirProvidersMeant(w, s, y, n);
    TheirEntriesMeant(w, s, y, n);
  }

  /** Both have the same but for what the transaction moves: the staged record, the scope its entries are
      listed in, and its own place among the providers. */
  ghost predicate SameButStaged(x: Whole, m: Whole, s: Swap) {
    && m.active == x.active && m.retired == x.retired && m.draining == x.draining && m.fibers.Keys == x.fibers.Keys
    && (forall g <- x.fibers :: g != s.staged ==> m.fibers[g] == x.fibers[g])
    && SameCounts(x.declared, m.declared, s.staged)
    && s.staged in x.fibers && SameEntriesBut(x.entries, m.entries, x.fibers[s.staged])
  }

  ghost predicate SameCounts(d: Declared, e: Declared, but: FiberId) {
    forall f: FiberId, key: Key :: f != but ==> Count(ProvidersAt(d, key), f) == Count(ProvidersAt(e, key), f)
  }

  predicate SameEntriesBut(r: Registrations, q: Registrations, f: Fiber) {
    && |q.handlers| == |r.handlers| && |q.middleware| == |r.middleware|
    && (forall j :: 0 <= j < |r.handlers| ==>
          q.handlers[j] == if r.handlers[j].id in f.invocationHandlers then r.handlers[j].(scope := q.handlers[j].scope) else r.handlers[j])
    && (forall j :: 0 <= j < |r.middleware| ==>
          q.middleware[j] == if r.middleware[j].id in f.invocationMiddleware then r.middleware[j].(scope := q.middleware[j].scope) else r.middleware[j])
  }

  lemma MeantElsewhere(w: World, s: Swap)
    requires Inv(w, s)
    ensures SameButStaged(w.now, Meant(w, s), s)
  {
    var d := w.now.declared;
    MeantGates(w, s);
    forall f: FiberId, key: Key | f != s.staged ensures Count(ProvidersAt(d, key), f) == Count(ProvidersAt(Meant(w, s).declared, key), f) {
      CountMoved(d, s.target, s.staging, w.incoming.provisions, s.staged, key, f);
    }
  }

  /** What others change is the same change in both, and where they see the registry, all of it: outside
      of what the transaction moves, the meant registries are the real ones before the step and after it,
      and neither changes under a lock that is held. */
  ghost predicate SameChange(w: World, s: Swap, n: World) {
    var m, k := Meant(w, s), Meant(n, s);
    && TheirMove(m, s, k) && SameButStaged(w.now, m, s) && SameButStaged(n.now, k, s)
    && (if ServicesHeld(w.pc) then n.now.services == w.now.services && k.services == m.services
        else m.services == w.now.services && k.services == n.now.services)
    && (if ScopesHeld(w.pc) then n.now.arena == w.now.arena && k.arena == m.arena
        else m.arena == w.now.arena && k.arena == n.now.arena)
  }

  lemma UnderLocks(w: World, s: Swap, y: Whole, n: World)
    requires NextOthers(w, s, y, n)
    ensures var m, k := Meant(w, s), Meant(n, s);
            && (if ServicesHeld(w.pc) then n.now.services == w.now.services && k.services == m.services
                else m.services == w.now.services && k.services == n.now.services)
            && (if ScopesHeld(w.pc) then n.now.arena == w.now.arena && k.arena == m.arena
                else m.arena == w.now.arena && k.arena == n.now.arena)
  {
  }

  lemma TheirMoveMeans(w: World, s: Swap, y: Whole, n: World)
    requires Inv(w, s) && NextOthers(w, s, y, n)
    ensures TheirMove(Meant(w, s), s, Meant(n, s))
  {
    TheirPartsMean(w, s, y, n);
    TheirListsMean(w, s, y, n);
  }

  /** What others do means the same, whether the transaction is under way or not. */
  lemma OthersMean(w: World, s: Swap, y: Whole, n: World)
    requires Inv(w, s) && NextOthers(w, s, y, n)
    ensures SameChange(w, s, n)
  {
    TheirMoveMeans(w, s, y, n);
    OthersInv(w, s, y, n);
    MeantElsewhere(w, s);
    MeantElsewhere(n, s);
    UnderLocks(w, s, y, n);
  }

  predicate CommitsAt(w: World, s: Swap, a: Step) {
    a == OfReload(Exchange) && w.pc.Publishing? && Present(w.now, s) && Visible(w.now.active, OldGate(w.now, s))
  }

  /** The services are to be moved, and one is listed twice. */
  predicate PanicsAt(w: World, a: Step) {
    a == OfReload(CommitServices) && !Distinct(w.incoming.provided)
  }

  predicate FencesAt(a: Step) {
    a == OfReload(RetireOld) || a == OfReload(FenceOld)
  }

  /** What a step of the transaction comes to: the whole swap, the fencing of the old generation, a panic,
      or nothing but the order of lists. */
  ghost predicate ReloadMeans(w: World, s: Swap, a: Step, n: World)
    requires Present(w.now, s)
  {
    var m, k := Meant(w, s), Meant(n, s);
    if CommitsAt(w, s, a) then SwapsAtOnce(m, s, k)
    else if FencesAt(a) then
      && k == m.(retired := k.retired, draining := k.draining)
      && k.retired <= m.retired + {OldGate(w.now, s)} && k.draining <= m.draining + {OldGate(w.now, s)}
    else if PanicsAt(w, a) then HalfDone(w, s, m, k)
    else Unchanged(m, k)
  }

  lemma MeansNothing(w: World, s: Swap, r: ReloadStep, n: World)
    requires Present(w.now, s) && !r.Exchange? && !r.RetireOld? && !r.FenceOld? && !r.CommitServices? && Unchanged(Meant(w, s), Meant(n, s))
    ensures ReloadMeans(w, s, OfReload(r), n)
  {
  }

  lemma CheckKind(w: World, s: Swap, r: ReloadStep, n: World)
    requires NextCheck(w, s, r, n)
    ensures Present(w.now, s) && !r.Exchange? && !r.RetireOld? && !r.FenceOld? && !r.CommitServices?
  {
  }

  lemma MoveKind(w: World, s: Swap, r: ReloadStep, n: World)
    requires NextMove(w, s, r, n)
    ensures Present(w.now, s) && !r.Exchange? && !r.RetireOld? && !r.FenceOld? && !r.CommitServices?
  {
  }

  lemma CutKind(w: World, s: Swap, r: ReloadStep, n: World)
    requires NextCut(w, s, r, n)
    ensures Present(w.now, s) && (n.pc.Cut? <==> CommitsAt(w, s, OfReload(r))) && (n.pc.Panicked? <==> PanicsAt(w, OfReload(r)))
  {
  }

  lemma CutRefines(w: World, s: Swap, r: ReloadStep, n: World)
    requires Present(w.now, s) && NextCut(w, s, r, n)
    requires n.pc.Cut? ==> SwapsAtOnce(Meant(w, s), s, Meant(n, s))
    requires !n.pc.Cut? ==> w.incoming == w.now.fibers[s.staged]
    ensures ReloadMeans(w, s, OfReload(r), n)
  {
    CutKind(w, s, r, n);
    if n.pc.Panicked? {
      PanicMeans(w, s, n);
    } else if !n.pc.Cut? {
      AfterCutMeans(w, s, r, n);
    }
  }

  lemma CutMeans(w: World, s: Swap, r: ReloadStep, n: World)
    requires Inv(w, s) && NextCut(w, s, r, n)
    ensures n.pc.Cut? ==> SwapsAtOnce(Meant(w, s), s, Meant(n, s))
    ensures w.incoming == w.now.fibers[s.staged]
  {
    if n.pc.Cut? { ExchangeMeans(w, s, n); }
  }

  lemma ReloadRefines(w: World, s: Swap, r: ReloadStep, n: World)
    requires Inv(w, s) && NextReload(w, s, r, n)
    ensures ReloadMeans(w, s, OfReload(r), n)
  {
    if NextCheck(w, s, r, n) {
      CheckMeans(w, s, r, n);
      CheckKind(w, s, r, n);
      MeansNothing(w, s, r, n);
    } else if NextMove(w, s, r, n) {
      MoveMeans(w, s, r, n);
      MoveKind(w, s, r, n);
      MeansNothing(w, s, r, n);
    } else {
      CutMeans(w, s, r, n);
      CutRefines(w, s, r, n);
    }
  }

  /** The transaction among all the others is a single step: the whole swap at the exchange, then the
      fencing of the old generation, and otherwise nothing but the order of lists - unless it ends in a
      panic.  What the plugin and the others do means what it is. */
  lemma Refines(w: World, s: Swap, a: Step, n: World)
    requires Inv(w, s) && Next(w, s, a, n)
    ensures match a
            case OfReload(_) => ReloadMeans(w, s, a, n)
            case OfPlugin(p) => if p.Enter? then Meant(n, s) == Meant(w, s) else Meant(w, s) == w.now && Meant(n, s) == n.now
            case Others(_) => SameChange(w, s, n)
  {
    match a {
      case OfReload(r) => ReloadRefines(w, s, r, n);
      case OfPlugin(p) => PluginMeans(w, s, p, n);
      case Others(y) => OthersMean(w, s, y, n);
    }
  }

  lemma PluginMeans(w: World, s: Swap, p: PluginStep, n: World)
    requires Inv(w, s) && NextPlugin(w, s, p, n)
    ensures if p.Enter? then Meant(n, s) == Meant(w, s) else Meant(w, s) == w.now && Meant(n, s) == n.now
  {
    assert n.pc == w.pc;
  }

  // ---- What others can tell -------------------------------------------------------------------------------

  /** An invocation reads the entries as they are meant, unless it sees the staged generation. */
  lemma ReadsAsMeant(w: World, s: Swap, seen: Active, scopes: seq<ScopeId>, key: InvocationKey, h: Handler)
    requires Inv(w, s) && (EntriesAway(w.pc) ==> !Visible(seen, StagedGate(w.now, s)))
    ensures IsDeepestHandler(h, w.now.entries.handlers, seen, scopes, key) <==> IsDeepestHandler(h, Meant(w, s).entries.handlers, seen, scopes, key)
    ensures Selected(w.now.entries.middleware, seen, scopes, key) == Selected(Meant(w, s).entries.middleware, seen, scopes, key)
  {
    if EntriesAway(w.pc) {
      var a, b := w.now.entries.handlers, Meant(w, s).entries.handlers;
      forall j | 0 <= j < |a| ensures Visible(seen, a[j].gate) || Visible(seen, b[j].gate) ==> a[j] == b[j] {
        assert a[j] in a;
        if a[j].id in w.incoming.invocationHandlers { assert a[j].gate == StagedGate(w.now, s); }
      }
      if IsDeepestHandler(h, a, seen, scopes, key) { SameReading(h, a, b, seen, scopes, key); }
      if IsDeepestHandler(h, b, seen, scopes, key) { SameReading(h, b, a, seen, scopes, key); }
      var c, d := w.now.entries.middleware, Meant(w, s).entries.middleware;
      forall j | 0 <= j < |c| ensures Visible(seen, c[j].gate) || Visible(seen, d[j].gate) ==> c[j] == d[j] {
        assert c[j] in c;
        if c[j].id in w.incoming.invocationMiddleware { assert c[j].gate == StagedGate(w.now, s); }
      }
      SameSelection(c, d, seen, scopes, key);
    }
  }

  lemma NoneServesAlike(a: seq<Handler>, b: seq<Handler>, seen: Active, scope: ScopeId, key: InvocationKey)
    requires |a| == |b| && forall j :: 0 <= j < |a| ==> Visible(seen, a[j].gate) || Visible(seen, b[j].gate) ==> a[j] == b[j]
    requires NoneServes(a, seen, scope, key)
    ensures NoneServes(b, seen, scope, key)
  {
    forall h | h in b ensures !Serves(h, seen, scope, key) {
      var j :| 0 <= j < |b| && b[j] == h;
      assert a[j] in a;
    }
  }

  lemma SameReading(h: Handler, a: seq<Handler>, b: seq<Handler>, seen: Active, scopes: seq<ScopeId>, key: InvocationKey)
    requires |a| == |b| && forall j :: 0 <= j < |a| ==> Visible(seen, a[j].gate) || Visible(seen, b[j].gate) ==> a[j] == b[j]
    requires IsDeepestHandler(h, a, seen, scopes, key)
    ensures IsDeepestHandler(h, b, seen, scopes, key)
  {
    var d: nat, i: nat :| DeepestAt(a, seen, scopes, key, d, i) && a[i] == h;
    NoneServesAlike(a[..i], b[..i], seen, scopes[d], key);
    var deeper := scopes[d + 1..];
    forall e | 0 <= e < |deeper| ensures NoneServes(b, seen, deeper[e], key) { NoneServesAlike(a, b, seen, deeper[e], key); }
    assert DeepestAt(b, seen, scopes, key, d, i);
  }

  lemma {:induction false} SameSelection(a: seq<Middleware>, b: seq<Middleware>, seen: Active, scopes: seq<ScopeId>, key: InvocationKey)
    requires |a| == |b| && forall j :: 0 <= j < |a| ==> Visible(seen, a[j].gate) || Visible(seen, b[j].gate) ==> a[j] == b[j]
    ensures Selected(a, seen, scopes, key) == Selected(b, seen, scopes, key)
  {
    if a != [] { SameSelection(a[..|a| - 1], b[..|b| - 1], seen, scopes, key); }
  }

  /** Whoever gets at a registry finds it as it is meant: services and scopes outright, as their locks are
      held while they are not; of the provider lists everything but the staged plugin's own place. */
  lemma OthersSeeMeant(w: World, s: Swap)
    requires Inv(w, s)
    ensures !ServicesHeld(w.pc) ==> w.now.services == Meant(w, s).services
    ensures !ScopesHeld(w.pc) ==> w.now.arena == Meant(w, s).arena
    ensures forall f: FiberId, key: Key :: f != s.staged ==> Count(ProvidersAt(w.now.declared, key), f) == Count(ProvidersAt(Meant(w, s).declared, key), f)
    ensures w.now.active == Meant(w, s).active
  {
    forall f: FiberId, key: Key | f != s.staged ensures Count(ProvidersAt(w.now.declared, key), f) == Count(ProvidersAt(Meant(w, s).declared, key), f) {
      CountMoved(w.now.declared, s.target, s.staging, w.incoming.provisions, s.staged, key, f);
    }
  }

  /** The staged generation is not shown before all that it serves with is in place. */
  lemma ShownWhenInPlace(w: World, s: Swap)
    requires Inv(w, s) && !Over(w.pc) && Visible(w.now.active, StagedGate(w.now, s))
    ensures EntriesSound(w.now, s, s.target) && AfterCut(w.pc)
    ensures w.now.arena == ScopesMoved(w.before, MoveOf(s, w.incoming))
    ensures CanMove(w.now.declared, s.target, s.staging, w.incoming.provisions, s.staged)
    ensures ServicesHeld(w.pc) || ServicesOnlyAt(w.now, s, s.target)
    ensures !Visible(w.now.active, OldGate(w.now, s)) || OldGate(w.now, s).selector != StagedGate(w.now, s).selector
  {
  }

  /** All services arrive at once; afterwards somebody who has checked before may insert over them. */
  lemma ServicesThere(w: World, s: Swap, n: World)
    requires Inv(w, s) && NextCut(w, s, CommitServices, n) && !n.pc.Panicked?
    ensures forall symbol <- w.incoming.provided :: OwnedAt(n.now.services.entries, s.staged, Key(s.target, symbol))
    ensures ServicesOnlyAt(n.now, s, s.target)
  {
    CommitServicesInv(w, s, n);
    ServicesOfCommit(w.now.services.entries, ServicesOf(s, w.incoming));
  }

  // ---- Runs -------------------------------------------------------------------------------------------------

  ghost predicate Linked(run: seq<World>, steps: seq<Step>, s: Swap, i: nat) {
    i < |steps| && |run| == |steps| + 1 ==> Next(run[i], s, steps[i], run[i + 1])
  }

  ghost predicate Run(run: seq<World>, steps: seq<Step>, s: Swap) {
    |run| == |steps| + 1 && Init(run[0], s) && forall i :: Linked(run, steps, s, i)
  }

  lemma InvAfter(run: seq<World>, steps: seq<Step>, s: Swap, i: nat)
    requires Run(run, steps, s) && i < |steps| && Inv(run[i], s)
    ensures Inv(run[i + 1], s)
  {
    assert Linked(run, steps, s, i);
    NextInv(run[i], s, steps[i], run[i + 1]);
  }

  lemma {:induction false} RunInv(run: seq<World>, steps: seq<Step>, s: Swap, i: nat)
    requires Run(run, steps, s) && i < |run|
    ensures Inv(run[i], s)
  {
    if i == 0 {
      InitInv(run[0], s);
    } else {
      RunInv(run, steps, s, i - 1);
      InvAfter(run, steps, s, i - 1);
    }
  }

  /** The exchange has been won. */
  predicate Won(pc: Pc) {
    AfterCut(pc) || Over(pc)
  }

  /** The transaction takes no more steps. */
  predicate Rests(pc: Pc) {
    pc.Ended? || pc.Panicked?
  }

  lemma LosesNothing(w: World, s: Swap, a: ReloadStep, n: World)
    requires NextCheck(w, s, a, n)
    ensures !Won(n.pc) && !Won(w.pc) && !Rests(w.pc)
  {
  }

  lemma MovesFromNothingWon(w: World, s: Swap, a: ReloadStep, n: World)
    requires NextMove(w, s, a, n)
    ensures !Won(w.pc) && !Rests(w.pc) && !a.Exchange?
  {
  }

  predicate Undoes(a: ReloadStep) {
    a.UndoEntries? || a.UndoScopes? || a.UndoProviders?
  }

  lemma UndoesToNothingWon(w: World, s: Swap, a: ReloadStep, n: World)
    requires NextMove(w, s, a, n) && Undoes(a)
    ensures !Won(n.pc)
  {
  }

  lemma MovesToNothingWon(w: World, s: Swap, a: ReloadStep, n: World)
    requires NextMove(w, s, a, n) && !Undoes(a)
    ensures !Won(n.pc)
  {
  }

  lemma WinsNothing(w: World, s: Swap, a: ReloadStep, n: World)
    requires NextMove(w, s, a, n)
    ensures !Won(n.pc) && !Won(w.pc) && !Rests(w.pc) && !a.Exchange?
  {
    MovesFromNothingWon(w, s, a, n);
    if Undoes(a) { UndoesToNothingWon(w, s, a, n); } else { MovesToNothingWon(w, s, a, n); }
  }

  lemma WinsByCut(w: World, s: Swap, a: ReloadStep, n: World)
    requires NextCut(w, s, a, n)
    ensures Won(n.pc) <==> Won(w.pc) || CommitsAt(w, s, OfReload(a))
    ensures !Rests(w.pc)
  {
  }

  lemma WonReload(w: World, s: Swap, a: ReloadStep, n: World)
    requires NextReload(w, s, a, n)
    ensures Won(n.pc) <==> Won(w.pc) || CommitsAt(w, s, OfReload(a))
    ensures !Rests(w.pc)
  {
    if NextCheck(w, s, a, n) {
      LosesNothing(w, s, a, n);
    } else if NextMove(w, s, a, n) {
      WinsNothing(w, s, a, n);
    } else {
      WinsByCut(w, s, a, n);
    }
  }

  lemma WonStep(w: World, s: Swap, a: Step, n: World)
    requires Next(w, s, a, n)
    ensures Won(n.pc) <==> Won(w.pc) || CommitsAt(w, s, a)
    ensures CommitsAt(w, s, a) ==> !Won(w.pc)
    ensures Rests(w.pc) ==> n.pc == w.pc
  {
    match a {
      case OfReload(r) => WonReload(w, s, r, n);
      case OfPlugin(p) => assert n.pc == w.pc;
      case Others(y) => assert n.pc == w.pc;
    }
  }

  /** A transaction has won exactly if it has swapped, which it does once. */
  lemma {:induction false} WonExactly(run: seq<World>, steps: seq<Step>, s: Swap, i: nat)
    requires Run(run, steps, s) && i < |run|
    ensures Won(run[i].pc) <==> exists j :: 0 <= j < i && CommitsAt(run[j], s, steps[j])
  {
    if i > 0 {
      WonExactly(run, steps, s, i - 1);
      assert Linked(run, steps, s, i - 1);
      WonStep(run[i - 1], s, steps[i - 1], run[i]);
      if Won(run[i - 1].pc) {
        var j :| 0 <= j < i - 1 && CommitsAt(run[j], s, steps[j]);
      }
    }
  }

  /** A list that names a symbol twice ends the transaction in a panic, and only such a list. */
  predicate RepeatPanics(w: World) {
    (w.pc.Panicked? ==> !Distinct(w.incoming.provided)) && (w.pc.ServicesOver? || Done(w.pc) ==> Distinct(w.incoming.provided))
  }

  lemma RepeatPanicsStep(w: World, s: Swap, a: Step, n: World)
    requires RepeatPanics(w) && Next(w, s, a, n)
    ensures RepeatPanics(n)
  {
    match a {
      case OfReload(r) =>
        if NextCheck(w, s, r, n) {
          LosesNothing(w, s, r, n);
        } else if NextMove(w, s, r, n) {
          WinsNothing(w, s, r, n);
        } else {
          assert n.incoming == w.incoming;
        }
      case OfPlugin(p) => assert n.pc == w.pc && n.incoming == w.incoming;
      case Others(y) => assert n.pc == w.pc && n.incoming == w.incoming;
    }
  }

  lemma {:induction false} RunRepeatPanics(run: seq<World>, steps: seq<Step>, s: Swap, i: nat)
    requires Run(run, steps, s) && i < |run|
    ensures RepeatPanics(run[i])
  {
    if i > 0 {
      RunRepeatPanics(run, steps, s, i - 1);
      assert Linked(run, steps, s, i - 1);
      RepeatPanicsStep(run[i - 1], s, steps[i - 1], run[i]);
    }
  }

  /** All or nothing, in every run: the transaction swaps at most once, it ends well only if it has
      swapped, and if it fails it has undone everything without anything to report.  Once it has swapped
      and rests it has ended well exactly if the staged plugin's list names no service twice; otherwise it
      has panicked half way. */
  lemma AllOrNothing(run: seq<World>, steps: seq<Step>, s: Swap, i: nat)
    requires Run(run, steps, s) && i < |run|
    ensures forall j, k :: 0 <= j < k < i && CommitsAt(run[j], s, steps[j]) ==> !CommitsAt(run[k], s, steps[k])
    ensures Rests(run[i].pc) ==> Meant(run[i], s) == run[i].now
    ensures Rests(run[i].pc) ==> (Over(run[i].pc) <==> exists j :: 0 <= j < i && CommitsAt(run[j], s, steps[j]))
    ensures Over(run[i].pc) ==> (Done(run[i].pc) <==> Distinct(run[i].incoming.provided))
    ensures run[i].pc.Ended? && run[i].pc.outcome.Err? ==> UndoneCleanly(run[i].pc.outcome.error)
  {
    RunInv(run, steps, s, i);
    WonExactly(run, steps, s, i);
    RunRepeatPanics(run, steps, s, i);
    forall j, k | 0 <= j < k < i && CommitsAt(run[j], s, steps[j]) ensures !CommitsAt(run[k], s, steps[k]) {
      WonExactly(run, steps, s, k);
      assert Linked(run, steps, s, k);
      WonStep(run[k], s, steps[k], run[k + 1]);
    }
  }

  // ---- Why it fails ------------------------------------------------------------------------------------------

  /** The error that the transaction meets with at a step of its own.  What it meets with after it has moved
      something is reported when that has been undone. */
  ghost predicate Meets(w: World, s: Swap, a: ReloadStep, e: Reload.Error)
    requires Present(w.now, s)
  {
    var x, f, was := w.now, w.now.fibers[s.staged], w.now.fibers[s.replaced];
    var unfit := f.state != FiberState.Active || f.gate in x.retired || Visible(x.active, f.gate);
    var movable := AllMovable(x.services.entries, ServicesOf(s, w.incoming));
    match a
    case CheckState(running) => if running then e == InvalidFiberState && was.state != Reloading else e == ShuttingDown
    case ReadRecord => e == PublicationFailed && unfit
    case CheckHandlers =>
      e == DuplicateInvocation && !RevisionOk(x.entries.handlers, w.outgoing.invocationHandlers, w.incoming.invocationHandlers, s.target, x.active)
    case LookAtTargets(clash) => e == DuplicateService && clash
    case CheckServices => e == ServicesChanged && !movable
    case CheckScopes => e == ScopesChanged && !ScopePrepared(x.arena, MoveOf(s, w.incoming))
    case TakeRecord => e == PublicationFailed && unfit
    case CommitProviders => e == ProvidersChanged && !CanMove(x.declared, s.staging, s.target, w.incoming.provisions, s.staged)
    case CommitScopes => e == ReloadFailed(ScopesChanged, []) && !CanCommit(x.arena, MoveOf(s, w.incoming))
    case LockServices =>
      if movable then e == ReloadFailed(PublicationFailed, []) && (f.gate in x.retired || f.gate.selector != was.gate.selector)
      else e == ReloadFailed(ServicesChanged, [])
    case Exchange => e == ReloadFailed(PublicationFailed, []) && !Visible(x.active, was.gate)
    case _ => false
  }

  /** The error that the transaction has failed with, or will have when the undoing is done. */
  function FailingWith(pc: Pc): Option<Reload.Error> {
    match pc
    case UndoingEntries(primary) => Some(ReloadFailed(primary, []))
    case UndoingScopes(primary) => Some(ReloadFailed(primary, []))
    case UndoingProviders(primary, cleanup) => Some(ReloadFailed(primary, cleanup))
    case Ended(Err(e)) => Some(e)
    case _ => None
  }

  lemma CheckMeets(w: World, s: Swap, a: ReloadStep, n: World, e: Reload.Error)
    requires NextCheck(w, s, a, n)
    ensures FailingWith(w.pc) == None && (FailingWith(n.pc) == Some(e) <==> Meets(w, s, a, e))
  {
    CheckFails(w, s, a, e);
    CheckEnds(w, s, a, n, e);
  }

  lemma CheckEnds(w: World, s: Swap, a: ReloadStep, n: World, e: Reload.Error)
    requires NextCheck(w, s, a, n)
    ensures FailingWith(w.pc) == None && (FailingWith(n.pc) == Some(e) <==> !Passes(w, s, a) && e == CheckError(a))
  {
  }

  lemma CheckFails(w: World, s: Swap, a: ReloadStep, e: Reload.Error)
    requires Present(w.now, s) && CheckAt(w.pc, a)
    ensures Meets(w, s, a, e) <==> !Passes(w, s, a) && e == CheckError(a)
  {
  }

  lemma CutMeets(w: World, s: Swap, a: ReloadStep, n: World, e: Reload.Error)
    requires NextCut(w, s, a, n)
    ensures FailingWith(w.pc) == None && (FailingWith(n.pc) == Some(e) <==> Meets(w, s, a, e))
  {
  }

  lemma MoveMeets(w: World, s: Swap, a: ReloadStep, n: World, e: Reload.Error)
    requires NextMove(w, s, a, n) && !Undoes(a)
    ensures FailingWith(w.pc) == None && (FailingWith(n.pc) == Some(e) <==> Meets(w, s, a, e))
  {
  }

  /** The undoing goes through. */
  lemma UndoKeepsError(w: World, s: Swap, a: ReloadStep, n: World)
    requires Inv(w, s) && Inv(n, s) && NextMove(w, s, a, n) && Undoes(a)
    ensures FailingWith(n.pc) == FailingWith(w.pc) && FailingWith(w.pc).Some? && Present(w.now, s) && forall e :: !Meets(w, s, a, e)
  {
  }

  ghost predicate MeetsAt(run: seq<World>, steps: seq<Step>, s: Swap, j: nat, e: Reload.Error)
    requires j < |steps| && |run| == |steps| + 1
  {
    steps[j].OfReload? && Present(run[j].now, s) && Meets(run[j], s, steps[j].r, e)
  }

  ghost predicate HasMet(run: seq<World>, steps: seq<Step>, s: Swap, i: nat, e: Reload.Error)
    requires i <= |steps| && |run| == |steps| + 1
  {
    exists j | 0 <= j < i :: MeetsAt(run, steps, s, j, e)
  }

  lemma MeetStep(run: seq<World>, steps: seq<Step>, s: Swap, i: nat, e: Reload.Error)
    requires Run(run, steps, s) && i < |steps|
    ensures FailingWith(run[i + 1].pc) == Some(e) <==> FailingWith(run[i].pc) == Some(e) || MeetsAt(run, steps, s, i, e)
  {
    RunInv(run, steps, s, i);
    RunInv(run, steps, s, i + 1);
    assert Linked(run, steps, s, i);
    var w, a, n := run[i], steps[i], run[i + 1];
    match a {
      case OfReload(r) =>
        if NextCheck(w, s, r, n) {
          CheckMeets(w, s, r, n, e);
        } else if NextCut(w, s, r, n) {
          CutMeets(w, s, r, n, e);
        } else if Undoes(r) {
          UndoKeepsError(w, s, r, n);
        } else {
          MoveMeets(w, s, r, n, e);
        }
      case OfPlugin(p) => assert n.pc == w.pc;
      case Others(y) => assert n.pc == w.pc;
    }
  }

  lemma {:induction false} FailingExactly(run: seq<World>, steps: seq<Step>, s: Swap, i: nat, e: Reload.Error)
    requires Run(run, steps, s) && i < |run|
    ensures FailingWith(run[i].pc) == Some(e) <==> HasMet(run, steps, s, i, e)
  {
    if i > 0 {
      FailingExactly(run, steps, s, i - 1, e);
      MeetStep(run, steps, s, i - 1, e);
      OneMoreMet(run, steps, s, i - 1, e);
    }
  }

  lemma OneMoreMet(run: seq<World>, steps: seq<Step>, s: Swap, i: nat, e: Reload.Error)
    requires i < |steps| && |run| == |steps| + 1
    ensures HasMet(run, steps, s, i + 1, e) <==> HasMet(run, steps, s, i, e) || MeetsAt(run, steps, s, i, e)
  {
    if MeetsAt(run, steps, s, i, e) { assert i < i + 1; }
  }

  /** In every run, when the transaction has come to rest it has failed with an error exactly if one of its
      steps has met with that error. */
  lemma FailsExactly(run: seq<World>, steps: seq<Step>, s: Swap, i: nat, e: Reload.Error)
    requires Run(run, steps, s) && i < |run| && Rests(run[i].pc)
    ensures run[i].pc == Ended(Err(e)) <==> HasMet(run, steps, s, i, e)
  {
    FailingExactly(run, steps, s, i, e);
    AtRest(run[i].pc, e);
  }

  lemma AtRest(pc: Pc, e: Reload.Error)
    requires Rests(pc)
    ensures FailingWith(pc) == Some(e) <==> pc == Ended(Err(e))
  {
  }

  // ---- The record and its barrier at the end ----------------------------------------------------------------

  /** Until the transaction has ended well no barrier has been released, and then the one that the staged
      record held. */
  ghost predicate ReleasedSo(first: seq<(nat, bool)>, w: World) {
    if Done(w.pc) then ReleasesOnly(w.incoming.activation, first, w.released) else w.released == first
  }

  lemma SameReleased(first: seq<(nat, bool)>, w: World, n: World)
    requires ReleasedSo(first, w) && n.released == w.released && n.incoming == w.incoming && (Done(n.pc) <==> Done(w.pc))
    ensures ReleasedSo(first, n)
  {
  }

  lemma AdoptReleases(w: World, s: Swap, n: World)
    requires Inv(w, s) && NextCut(w, s, Adopt, n)
    ensures OnlyAdopted(w.now.fibers, s, n.now.fibers) && w.now.fibers[s.staged] == n.incoming && Done(n.pc) && !Done(w.pc)
    ensures ReleasesOnly(n.incoming.activation, w.released, n.released)
  {
    ReleasedOnce(w.incoming, w.released);
  }

  lemma NothingReleased(w: World, s: Swap, a: ReloadStep, n: World)
    requires NextReload(w, s, a, n) && a != Adopt
    ensures n.released == w.released && !Done(w.pc) && !Done(n.pc)
  {
    if NextCheck(w, s, a, n) {
      LosesNothing(w, s, a, n);
    } else if NextMove(w, s, a, n) {
      WinsNothing(w, s, a, n);
    } else {
      WinsByCut(w, s, a, n);
    }
  }

  lemma AdoptIsCut(w: World, s: Swap, n: World)
    requires NextReload(w, s, Adopt, n)
    ensures NextCut(w, s, Adopt, n)
  {
  }

  lemma ReleaseStep(first: seq<(nat, bool)>, w: World, s: Swap, a: Step, n: World)
    requires Inv(w, s) && ReleasedSo(first, w) && Next(w, s, a, n)
    ensures ReleasedSo(first, n)
    ensures Done(n.pc) && !Done(w.pc) ==> OnlyAdopted(w.now.fibers, s, n.now.fibers) && w.now.fibers[s.staged] == n.incoming
  {
    match a {
      case OfReload(r) =>
        if r == Adopt {
          AdoptIsCut(w, s, n);
          AdoptReleases(w, s, n);
        } else {
          NothingReleased(w, s, r, n);
        }
      case OfPlugin(p) => assert n.pc == w.pc; SameReleased(first, w, n);
      case Others(y) => SameReleased(first, w, n);
    }
  }

  lemma ReleaseStepAt(run: seq<World>, steps: seq<Step>, s: Swap, i: nat)
    requires Run(run, steps, s) && i + 1 < |run| && ReleasedSo(run[0].released, run[i])
    ensures ReleasedSo(run[0].released, run[i + 1])
    ensures Done(run[i + 1].pc) && !Done(run[i].pc) ==>
              s.staged in run[i].now.fibers && OnlyAdopted(run[i].now.fibers, s, run[i + 1].now.fibers) && run[i].now.fibers[s.staged] == run[i + 1].incoming
  {
    RunInv(run, steps, s, i);
    assert Linked(run, steps, s, i);
    ReleaseStep(run[0].released, run[i], s, steps[i], run[i + 1]);
  }

  /** In every run: the barrier of the staged record is released exactly once, with true, when the
      transaction ends well, and no other ever is. */
  lemma {:induction false} BarrierReleasedOnce(run: seq<World>, steps: seq<Step>, s: Swap, i: nat)
    requires Run(run, steps, s) && i < |run|
    ensures ReleasedSo(run[0].released, run[i])
  {
    if i == 0 {
      RunInv(run, steps, s, 0);
    } else {
      BarrierReleasedOnce(run, steps, s, i - 1);
      ReleaseStepAt(run, steps, s, i - 1);
    }
  }

  /** And where it ends well, the staged record, as the transaction has read it, becomes that of an adopted
      plugin, field by field, and no other record changes. */
  lemma AdoptedAtEnd(run: seq<World>, steps: seq<Step>, s: Swap, i: nat)
    requires Run(run, steps, s) && 0 < i < |run| && Done(run[i].pc) && !Done(run[i - 1].pc)
    ensures s.staged in run[i - 1].now.fibers && run[i - 1].now.fibers[s.staged] == run[i].incoming
    ensures OnlyAdopted(run[i - 1].now.fibers, s, run[i].now.fibers)
    ensures ReleasesOnly(run[i].incoming.activation, run[i - 1].released, run[i].released)
  {
    BarrierReleasedOnce(run, steps, s, i - 1);
    BarrierReleasedOnce(run, steps, s, i);
    ReleaseStepAt(run, steps, s, i - 1);
  }

  lemma NotWonBefore(run: seq<World>, steps: seq<Step>, s: Swap, i: nat, j: nat)
    requires Run(run, steps, s) && j < i < |run| && !Won(run[i].pc)
    ensures !Won(run[j].pc) && !CommitsAt(run[j], s, steps[j])
  {
    WonExactly(run, steps, s, i);
    WonExactly(run, steps, s, j);
  }

  /** In a run in which the transaction has failed, each step of it was nothing but a change of order. */
  lemma FailureIsInvisible(run: seq<World>, steps: seq<Step>, s: Swap, i: nat, j: nat)
    requires Run(run, steps, s) && j < i < |run| && run[i].pc.Ended? && run[i].pc.outcome.Err?
    ensures steps[j].OfReload? ==> Unchanged(Meant(run[j], s), Meant(run[j + 1], s))
    ensures steps[j].Others? ==> SameChange(run[j], s, run[j + 1])
  {
    NotWonBefore(run, steps, s, i, j);
    RefinesAt(run, steps, s, j);
  }

  lemma RefinesAt(run: seq<World>, steps: seq<Step>, s: Swap, j: nat)
    requires Run(run, steps, s) && j < |steps| && !Won(run[j].pc) && !CommitsAt(run[j], s, steps[j])
    ensures steps[j].OfReload? ==> Unchanged(Meant(run[j], s), Meant(run[j + 1], s))
    ensures steps[j].Others? ==> SameChange(run[j], s, run[j + 1])
  {
    RunInv(run, steps, s, j);
    assert Linked(run, steps, s, j);
    RefinesQuietly(run[j], s, steps[j], run[j + 1]);
  }

  lemma RefinesQuietly(w: World, s: Swap, a: Step, n: World)
    requires Inv(w, s) && Next(w, s, a, n) && !Won(w.pc) && !CommitsAt(w, s, a)
    ensures a.OfReload? ==> Unchanged(Meant(w, s), Meant(n, s))
    ensures a.Others? ==> SameChange(w, s, n)
  {
    if a.OfReload? {
      NoFenceYet(w, s, a, n);
      ReloadRefines(w, s, a.r, n);
    } else if a.Others? {
      OthersMean(w, s, a.y, n);
    }
  }

  lemma NoFenceYet(w: World, s: Swap, a: Step, n: World)
    requires Next(w, s, a, n) && !Won(w.pc)
    ensures !FencesAt(a) && !PanicsAt(w, a)
  {
  }

  // ---- Where a reload is taken as one step ------------------------------------------------------------------

  /** The swap is the commit that runs of resolutions have it for. */
  lemma SwapIsResolutionStep(x: Whole, s: Swap, y: Whole, max: nat, ancestry: map<ScopeId, seq<ScopeId>>, stale: bool)
    requires SwapsAtOnce(x, s, y)
    ensures var i := x.fibers[s.staged];
            Resolution.Next(Resolution.World(x.services, x.active, ancestry, stale), max,
                            Resolution.Commit(ServicesOf(s, i), i.gate, OldGate(x, s)),
                            Resolution.World(y.services, y.active, ancestry, false))
  {
    assert y.services == Swapped(x, s).services && y.active == Swapped(x, s).active;
  }

  /** And the move of scopes that runs of disposals have it for, up to the order of lists. */
  lemma SwapIsDisposalStep(x: Whole, s: Swap, y: Whole, w: ScopeDisposal.World, maxScopes: nat, maxDepth: nat)
    requires SwapsAtOnce(x, s, y) && w.t == x.arena
    requires Distinct(x.fibers[s.staged].childScopes) && x.arena[s.staging].parent == Some(s.target)
    ensures var p := MoveOf(s, x.fibers[s.staged]);
            var n := w.(t := ScopesMoved(w.t, p), lineage := ScopeDisposal.Moved(w.lineage, p));
            ScopeDisposal.NextTree(w, ScopeDisposal.Reload(p), n, maxScopes, maxDepth) && SameScopes(n.t, y.arena)
  {
    assert SameScopes(Swapped(x, s).arena, y.arena);
  }

  /** There is no gap: a key that the old and the new plugin both serve at the target is served there at
      every instant, as long as nobody closes the old generation. */
  lemma NoGap(run: seq<World>, steps: seq<Step>, s: Swap, i: nat, scopes: seq<ScopeId>, key: InvocationKey, before: Handler, after: Handler)
    requires Run(run, steps, s) && i < |run| && !run[i].pc.Ended? && s.target in scopes
    requires var x := run[i].now;
             && Present(x, s) && Alive(x, s)
             && before in x.entries.handlers && before.gate == OldGate(x, s) && before.scope == s.target && before.key == key
             && after in x.entries.handlers && after.id in x.fibers[s.staged].invocationHandlers && after.key == key
             && (Visible(x.active, OldGate(x, s)) || Visible(x.active, StagedGate(x, s)))
    ensures !NoHandler(run[i].now.entries.handlers, run[i].now.active, scopes, key)
  {
    var w := run[i];
    RunInv(run, steps, s, i);
    var e :| 0 <= e < |scopes| && scopes[e] == s.target;
    if Visible(w.now.active, StagedGate(w.now, s)) {
      assert EntriesMoved(w.pc) && EntriesSound(w.now, s, s.target);
      assert Serves(after, w.now.active, scopes[e], key);
    } else {
      assert Serves(before, w.now.active, scopes[e], key);
    }
    assert !NoneServes(w.now.entries.handlers, w.now.active, scopes[e], key);
  }
}
