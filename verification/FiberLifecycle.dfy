/** One plugin instance through its generations: operations through its contexts, dispatches of its
    handlers, activations, and the disposal that may clean up only once the generation has drained.
    A step is one critical section or one exchange on a gate. */
module FiberLifecycle {
  import opened Wrappers
  import CapabilityGate
  import opened FiberStates
  import opened GenerationWord
  import opened GateProtocol
  import opened Sequences

  type Generation = CapabilityGate.Generation

  /** What a plugin owns, in the order of its cleanup. */
  const CHILD: nat := 0
  const HANDLER: nat := 1
  const INVOCATION_HANDLER: nat := 2
  const MIDDLEWARE: nat := 3
  const SERVICE: nat := 4
  const EFFECT: nat := 5
  const KINDS: nat := 6

  /** A resource, and the generation whose context registered it. */
  datatype Resource = Resource(id: nat, generation: Generation)

  type Lists = s: seq<seq<Resource>> | |s| == KINDS witness [[], [], [], [], [], []]

  /** `Cleaning` holds what has been taken up and not yet disposed of.  `Aimed` has read what the state is
      to become; without that, `Finalizing` terminates. */
  datatype Worker =
    | Tasks
    | DrainingLeases
    | Cleaning(kind: nat, holding: Option<Resource>)
    | Reconciling
    | Aimed(at: FiberState)
    | Finalizing(target: Option<FiberState>)

  datatype Status = Untouched | Busy(worker: Worker) | Complete | Terminated

  datatype Fiber = Fiber(state: FiberState, sealed: bool, generation: Generation, owned: Lists, status: Status,
                         waits: bool, persistent: bool)

  datatype Activation = NoActivation | InStart | SealedStart

  datatype Pc =
    | Outside
    | Looked(generation: Generation, admitted: bool)
    | Inside(generation: Generation)
    | Leaving(generation: Generation)
    | Serving(generation: Generation)

  /** `registered` and `cleaned` are history: what this generation has registered and what has been
      cleaned up of it, each in order. */
  datatype History = History(registered: Lists, cleaned: Lists, next: nat)

  datatype World = World(fiber: Fiber, gates: map<Generation, SimpleGate>, threads: map<Tid, Pc>, activation: Activation, history: History)

  const EMPTY: Lists := [[], [], [], [], [], []]

  predicate Init(w: World) {
    && w.fiber == Fiber(Created, false, w.fiber.generation, EMPTY, Untouched, true, false)
    && w.gates == map[w.fiber.generation := SimpleGate(Accepting, {})]
    && (forall t <- w.threads :: w.threads[t] == Outside)
    && w.activation == NoActivation
    && w.history == History(EMPTY, EMPTY, w.history.next)
  }

  function At(w: World, t: Tid, pc: Pc): World {
    w.(threads := w.threads[t := pc])
  }

  function Release(g: SimpleGate, t: Tid): SimpleGate {
    var rest := g.leases - {t};
    SimpleGate(if g.state == GenerationWord.Draining && rest == {} then Drained else g.state, rest)
  }

  function Closed(g: SimpleGate): SimpleGate {
    if g.state == Accepting then g.(state := if g.leases == {} then Drained else GenerationWord.Draining) else g
  }

  function Close(w: World): World
    requires w.fiber.generation in w.gates
  {
    w.(gates := w.gates[w.fiber.generation := Closed(w.gates[w.fiber.generation])])
  }

  function Push(lists: Lists, k: nat, r: Resource): Lists
    requires k < KINDS
  {
    lists[k := lists[k] + [r]]
  }

  // ---- Operations through a context, and dispatches ----------------------------------------------

  datatype OpStep = Look(generation: Generation) | Enter | Append(kind: nat, refused: bool) | Leave | Serve(generation: Generation)

  predicate NextOp(w: World, t: Tid, a: OpStep, n: World) {
    t in w.threads &&
    match w.threads[t]
    case Outside =>
      // Under the record's read lock the generation of the context is compared, and only then is
      // the gate taken that belongs to it.
      || (&& a.Look? && a.generation in w.gates
          && n == At(w, t, if w.fiber.generation == a.generation then Looked(a.generation, Mutable(w.fiber.state)) else Outside))
      || (&& a.Serve? && a.generation in w.gates && w.gates[a.generation].state == Accepting
          && n == At(w, t, Serving(a.generation))
                  .(gates := w.gates[a.generation := w.gates[a.generation].(leases := w.gates[a.generation].leases + {t})]))
    case Looked(generation, admitted) =>
      && a == Enter && generation in w.gates
      && var g := w.gates[generation];
         n == if g.state != Accepting then At(w, t, Outside)
              else At(w, t, if admitted then Inside(generation) else Leaving(generation))
                   .(gates := w.gates[generation := g.(leases := g.leases + {t})])
    case Inside(generation) =>
      && a.Append? && a.kind < KINDS
      && n == if w.fiber.sealed || !Mutable(w.fiber.state) || a.refused then At(w, t, Leaving(generation))
              else
                var r := Resource(w.history.next, generation);
                At(w, t, Leaving(generation))
                .(fiber := w.fiber.(owned := Push(w.fiber.owned, a.kind, r)),
                  history := w.history.(registered := Push(w.history.registered, a.kind, r), next := w.history.next + 1))
    case Leaving(generation) =>
      a == Leave && generation in w.gates
      && n == At(w, t, Outside).(gates := w.gates[generation := Release(w.gates[generation], t)])
    case Serving(generation) =>
      a == Leave && generation in w.gates
      && n == At(w, t, Outside).(gates := w.gates[generation := Release(w.gates[generation], t)])
  }

  // ---- Activation and reload ----------------------------------------------------------------------

  datatype LifeStep =
    | Start(fresher: Generation) | Seal | Commit | CommitStaged | Fail
    | BeginReload | AbandonReload | Replaced | Adopted | Await

  /** The disposal body works under the lifecycle lock. */
  predicate BodyHoldsLock(s: Status) {
    s.Busy? && !s.worker.Tasks? && !s.worker.Finalizing?
  }

  predicate NextLife(w: World, a: LifeStep, n: World) {
    var f := w.fiber;
    match a
    case Await => f.state == Created && n == w.(fiber := f.(state := WaitingDependencies))
    case Start(fresher) =>
      && w.activation == NoActivation && !BodyHoldsLock(f.status)
      && (f.state == Created || f.state == WaitingDependencies)
      && fresher !in w.gates
      && n == if f.state == WaitingDependencies && f.status == Complete then
                // A restart: a new generation, and a new gate of its own.
                w.(fiber := Fiber(Starting, false, fresher, f.owned, Untouched, true, false),
                   gates := w.gates[fresher := SimpleGate(Accepting, {})],
                   activation := InStart,
                   history := History(EMPTY, EMPTY, w.history.next))
              else w.(fiber := f.(state := Starting, sealed := false), activation := InStart)
    case Seal =>
      w.activation == InStart && f.state == Starting && n == w.(fiber := f.(sealed := true), activation := SealedStart)
    case Commit =>
      && w.activation == SealedStart && f.state == Starting && f.sealed
      && n == w.(fiber := f.(state := Active, sealed := false), activation := NoActivation)
    case CommitStaged =>
      // A staged activation writes its state without looking at it.
      w.activation == SealedStart && n == w.(fiber := f.(state := Active), activation := NoActivation)
    case Fail =>
      && w.activation != NoActivation
      && n == w.(fiber := f.(state := if f.state == Starting then Failed else f.state, sealed := true), activation := NoActivation)
    case BeginReload => f.state == Active && n == w.(fiber := f.(state := Reloading))
    case AbandonReload => f.state == Reloading && n == w.(fiber := f.(state := Active))
    case Replaced => f.generation in w.gates && n == Close(w)
    case Adopted => f.state == Active && n == w.(fiber := f.(sealed := false))
  }

  // ---- Disposal -----------------------------------------------------------------------------------

  datatype DisposeStep =
    | Dispose(waits: bool, persistent: bool) | StartDraining | LeasesGone | DrainTimesOut
    | Take | Finish | NextKind | Aim | Reconciled | Die | Finalize(worse: bool)

  function Asked(f: Fiber, waits: bool, persistent: bool): Fiber {
    f.(waits := f.waits && waits, persistent := f.persistent || persistent)
  }

  function Target(f: Fiber): FiberState {
    if f.waits then WaitingDependencies else Disposed
  }

  function Works(w: World, k: Worker): World {
    w.(fiber := w.fiber.(status := Busy(k)))
  }

  predicate NextDispose(w: World, a: DisposeStep, n: World) {
    var f := w.fiber;
    match a
    case Dispose(waits, persistent) =>
      && f.generation in w.gates
      && var g := Asked(f, waits, persistent);
         n == if f.status == Untouched && (f.state == Disposing || CanTransition(f.state, Disposing)) then
                Close(w.(fiber := g.(state := Disposing, sealed := false, status := Busy(Tasks))))
              else w.(fiber := g)
    case StartDraining =>
      && f.status == Busy(Tasks) && w.activation == NoActivation && f.generation in w.gates
      && n == Close(Works(w, DrainingLeases))
    case LeasesGone =>
      && f.status == Busy(DrainingLeases) && f.generation in w.gates && w.gates[f.generation].leases == {}
      && n == Works(w, Cleaning(CHILD, None))
    case DrainTimesOut =>
      && f.status == Busy(DrainingLeases) && f.generation in w.gates && w.gates[f.generation].leases != {}
      && n == if f.persistent then w else Works(w, Finalizing(None))
    case Take =>
      && f.status.Busy? && f.status.worker.Cleaning? && f.status.worker.kind < KINDS && f.status.worker.holding == None
      && var k := f.status.worker.kind;
         && f.owned[k] != []
         && var last := f.owned[k][|f.owned[k]| - 1];
            // A child scope stays listed until its disposal has been observed; the rest is popped.
            n == Works(if k == CHILD then w else w.(fiber := f.(owned := f.owned[k := f.owned[k][..|f.owned[k]| - 1]])),
                       Cleaning(k, Some(last)))
    case Finish =>
      && f.status.Busy? && f.status.worker.Cleaning? && f.status.worker.kind < KINDS && f.status.worker.holding.Some?
      && var k, r := f.status.worker.kind, f.status.worker.holding.value;
         var v := if k == CHILD then w.(fiber := f.(owned := f.owned[k := Without(f.owned[k], r)])) else w;
         n == Works(v, Cleaning(k, None)).(history := w.history.(cleaned := Push(w.history.cleaned, k, r)))
    case NextKind =>
      && f.status.Busy? && f.status.worker.Cleaning? && f.status.worker.kind < KINDS && f.status.worker.holding == None
      && f.owned[f.status.worker.kind] == []
      && n == Works(w, if f.status.worker.kind + 1 < KINDS then Cleaning(f.status.worker.kind + 1, None) else Reconciling)
    case Aim =>
      // What is asked for later comes too late.
      f.status == Busy(Reconciling) && n == Works(w, Aimed(Target(f)))
    case Reconciled => f.status.Busy? && f.status.worker.Aimed? && n == Works(w, Finalizing(Some(f.status.worker.at)))
    case Die => f.status.Busy? && !f.status.worker.Finalizing? && n == Works(w, Finalizing(None))
    case Finalize(worse) =>
      && f.status.Busy? && f.status.worker.Finalizing?
      && var target := f.status.worker.target;
         n == w.(fiber := if target == None || worse || !CanTransition(f.state, target.value) then f.(status := Terminated)
                          else f.(status := Complete, state := target.value))
  }

  datatype Step = OfOp(t: Tid, o: OpStep) | OfLife(l: LifeStep) | OfDispose(d: DisposeStep)

  predicate NextStep(w: World, a: Step, n: World) {
    match a
    case OfOp(t, o) => NextOp(w, t, o, n)
    case OfLife(l) => NextLife(w, l, n)
    case OfDispose(d) => NextDispose(w, d, n)
  }

  // ---- Gates -----------------------------------------------------------------------------------------

  function LeaseOf(pc: Pc): Option<Generation> {
    match pc
    case Inside(g) => Some(g)
    case Leaving(g) => Some(g)
    case Serving(g) => Some(g)
    case _ => None
  }

  function Holders(threads: map<Tid, Pc>, g: Generation): set<Tid> {
    set t | t in threads && LeaseOf(threads[t]) == Some(g)
  }

  predicate GateOk(g: SimpleGate) {
    (g.state == Drained ==> g.leases == {}) && (g.state == GenerationWord.Draining ==> g.leases != {})
  }

  predicate ThreadOk(w: World, pc: Pc) {
    && (pc.Looked? ==> pc.generation in w.gates)
    && (LeaseOf(pc).Some? ==> LeaseOf(pc).value in w.gates)
  }

  /** A gate counts exactly the threads that hold a lease on it, and every generation but the current
      one has drained. */
  predicate GatesInv(w: World) {
    && w.fiber.generation in w.gates
    && (forall g <- w.gates :: GateOk(w.gates[g]) && w.gates[g].leases == Holders(w.threads, g))
    && (forall g <- w.gates :: g != w.fiber.generation ==> w.gates[g].state == Drained)
    && (forall t <- w.threads :: ThreadOk(w, w.threads[t]))
  }

  /** The disposal is past the drain of the current generation. */
  predicate PastDrain(s: Status) {
    s == Complete || (s.Busy? && (s.worker.Cleaning? || s.worker.Reconciling? || s.worker.Aimed?
                                || (s.worker.Finalizing? && s.worker.target.Some?)))
  }

  predicate AnEnd(state: FiberState) {
    state == Disposed || state == WaitingDependencies
  }

  predicate StatusInv(w: World) {
    var s := w.fiber.status;
    && (s.Busy? && !s.worker.Finalizing? ==> w.fiber.generation in w.gates && w.gates[w.fiber.generation].state != Accepting)
    && (PastDrain(s) ==> w.fiber.generation in w.gates && w.gates[w.fiber.generation].state == Drained)
    && (PastDrain(s) || s == Busy(DrainingLeases) ==> w.activation == NoActivation)
    && (s.Busy? || s == Terminated ==> w.fiber.state != Created && w.fiber.state != WaitingDependencies)
    && (s.Busy? && s.worker.Aimed? ==> AnEnd(s.worker.at))
    && (s.Busy? && s.worker.Finalizing? && s.worker.target.Some? ==> AnEnd(s.worker.target.value))
    && (s == Complete ==> AnEnd(w.fiber.state))
  }

  /** How a step of one thread moves leases. */
  predicate Moves(w: World, t: Tid, n: World) {
    && n.threads.Keys == w.threads.Keys && t in w.threads
    && forall u <- w.threads :: u != t ==> n.threads[u] == w.threads[u]
  }

  lemma HoldersMove(w: World, t: Tid, n: World, g: Generation)
    requires Moves(w, t, n)
    ensures Holders(n.threads, g) ==
            Holders(w.threads, g) - {t} + if LeaseOf(n.threads[t]) == Some(g) then {t} else {}
  {
  }

  predicate TakesLease(w: World, t: Tid, n: World, g: Generation)
    requires t in w.threads && t in n.threads
  {
    && g in w.gates && w.gates[g].state == Accepting
    && n.gates == w.gates[g := w.gates[g].(leases := w.gates[g].leases + {t})]
    && LeaseOf(w.threads[t]) == None && LeaseOf(n.threads[t]) == Some(g)
  }

  predicate ReturnsLease(w: World, t: Tid, n: World, g: Generation)
    requires t in w.threads && t in n.threads
  {
    && g in w.gates && n.gates == w.gates[g := Release(w.gates[g], t)]
    && LeaseOf(w.threads[t]) == Some(g) && LeaseOf(n.threads[t]) == None
  }

  predicate KeepsLease(w: World, t: Tid, n: World)
    requires t in w.threads && t in n.threads
  {
    n.gates == w.gates && LeaseOf(n.threads[t]) == LeaseOf(w.threads[t])
  }

  /** An operation takes a lease, returns one, or leaves the gates alone. */
  lemma OpMovesLease(w: World, t: Tid, a: OpStep, n: World)
    requires NextOp(w, t, a, n)
    ensures Moves(w, t, n)
    ensures KeepsLease(w, t, n) || (exists g :: TakesLease(w, t, n, g)) || (exists g :: ReturnsLease(w, t, n, g))
    ensures n.fiber == w.fiber.(owned := n.fiber.owned) && n.activation == w.activation
    ensures n.threads[t].Looked? ==> n.threads[t].generation in w.gates
  {
    match w.threads[t] {
      case Outside => if a.Serve? { assert TakesLease(w, t, n, a.generation); }
      case Looked(g, _) => if w.gates[g].state == Accepting { assert TakesLease(w, t, n, g); }
      case Inside(g) =>
      case Leaving(g) => assert ReturnsLease(w, t, n, g);
      case Serving(g) => assert ReturnsLease(w, t, n, g);
    }
  }

  lemma LeaseGates(w: World, t: Tid, n: World)
    requires GatesInv(w) && Moves(w, t, n) && n.fiber.generation == w.fiber.generation
    requires KeepsLease(w, t, n) || (exists g :: TakesLease(w, t, n, g)) || (exists g :: ReturnsLease(w, t, n, g))
    ensures n.gates.Keys == w.gates.Keys
    ensures forall g <- n.gates :: GateOk(n.gates[g]) && n.gates[g].leases == Holders(n.threads, g)
    ensures forall g <- n.gates :: w.gates[g].state != Accepting ==>
              n.gates[g].state != Accepting && n.gates[g].leases <= w.gates[g].leases
    ensures forall g <- n.gates :: w.gates[g].state == Drained ==> n.gates[g].state == Drained
  {
    forall g | g in n.gates
      ensures GateOk(n.gates[g]) && n.gates[g].leases == Holders(n.threads, g)
      ensures w.gates[g].state == Drained ==> n.gates[g].state == Drained
    {
      HoldersMove(w, t, n, g);
      assert GateOk(w.gates[g]) && w.gates[g].leases == Holders(w.threads, g);
      assert t in Holders(w.threads, g) <==> LeaseOf(w.threads[t]) == Some(g);
    }
  }

  lemma OpGates(w: World, t: Tid, a: OpStep, n: World)
    requires GatesInv(w) && NextOp(w, t, a, n)
    ensures GatesInv(n)
  {
    OpMovesLease(w, t, a, n);
    LeaseGates(w, t, n);
    forall u | u in n.threads ensures ThreadOk(n, n.threads[u]) {
      assert ThreadOk(w, w.threads[u]);
    }
  }

  lemma CloseGates(w: World)
    requires GatesInv(w)
    ensures GatesInv(Close(w)) && Close(w).gates[w.fiber.generation].state != Accepting
    ensures w.gates[w.fiber.generation].state == Drained ==> Close(w).gates[w.fiber.generation].state == Drained
  {
    var n := Close(w);
    forall u | u in n.threads ensures ThreadOk(n, n.threads[u]) { assert ThreadOk(w, w.threads[u]); }
  }

  /** The same gates and threads. */
  lemma SameGates(w: World, n: World)
    requires GatesInv(w) && n.gates == w.gates && n.threads == w.threads && n.fiber.generation == w.fiber.generation
    ensures GatesInv(n)
  {
    forall u | u in n.threads ensures ThreadOk(n, n.threads[u]) { assert ThreadOk(w, w.threads[u]); }
  }

  lemma RestartGates(w: World, fresher: Generation, n: World)
    requires GatesInv(w) && StatusInv(w) && w.fiber.status == Complete && fresher !in w.gates
    requires n.gates == w.gates[fresher := SimpleGate(Accepting, {})] && n.threads == w.threads && n.fiber.generation == fresher
    ensures GatesInv(n)
  {
    forall u | u in n.threads ensures ThreadOk(n, n.threads[u]) && LeaseOf(n.threads[u]) != Some(fresher) {
      assert ThreadOk(w, w.threads[u]);
    }
    assert Holders(n.threads, fresher) == {};
  }

  lemma LifeGates(w: World, a: LifeStep, n: World)
    requires GatesInv(w) && StatusInv(w) && NextLife(w, a, n)
    ensures GatesInv(n)
  {
    if a == Replaced {
      CloseGates(w);
    } else if n.fiber.generation == w.fiber.generation && n.gates == w.gates {
      SameGates(w, n);
    } else {
      RestartGates(w, a.fresher, n);
    }
  }

  lemma DisposeGates(w: World, a: DisposeStep, n: World)
    requires GatesInv(w) && NextDispose(w, a, n)
    ensures GatesInv(n)
  {
    if a.Dispose? {
      var g := Asked(w.fiber, a.waits, a.persistent);
      if w.fiber.status == Untouched && (w.fiber.state == Disposing || CanTransition(w.fiber.state, Disposing)) {
        var v := w.(fiber := g.(state := Disposing, sealed := false, status := Busy(Tasks)));
        SameGates(w, v);
        CloseGates(v);
      } else {
        SameGates(w, n);
      }
    } else if a == StartDraining {
      SameGates(w, Works(w, DrainingLeases));
      CloseGates(Works(w, DrainingLeases));
    } else {
      SameGates(w, n);
    }
  }

  /** Every gate moves as module GateProtocol says a gate does, one step of it at a time. */
  lemma GatesFollowProtocol(w: World, a: Step, n: World, g: Generation)
    requires GatesInv(w) && NextStep(w, a, n) && g in w.gates
    ensures g in n.gates && exists s :: SimpleNext(w.gates[g], s, n.gates[g])
  {
    match a {
      case OfOp(t, o) =>
        OpMovesLease(w, t, o, n);
        assert t in Holders(w.threads, g) <==> LeaseOf(w.threads[t]) == Some(g);
        OneGateMoves(w.gates[g], t, n.gates[g], n.gates == w.gates || n.gates[g] == w.gates[g]);
      case OfLife(l) => ClosesOrNot(w.gates[g], n.gates[g]);
      case OfDispose(d) => DisposeCloses(w, d, n, g); ClosesOrNot(w.gates[g], n.gates[g]);
    }
  }

  lemma DisposeCloses(w: World, a: DisposeStep, n: World, g: Generation)
    requires NextDispose(w, a, n) && g in w.gates
    ensures g in n.gates && (n.gates[g] == w.gates[g] || n.gates[g] == Closed(w.gates[g]))
  {
  }

  lemma ClosesOrNot(g: SimpleGate, h: SimpleGate)
    requires h == g || h == Closed(g)
    ensures exists s :: SimpleNext(g, s, h)
  {
    assert SimpleNext(g, if h == g then Stutter else SimpleStep.Close, h);
  }

  lemma OneGateMoves(g: SimpleGate, t: Tid, h: SimpleGate, same: bool)
    requires same ==> h == g
    requires !same ==> (g.state == Accepting && t !in g.leases && h == g.(leases := g.leases + {t})) || (t in g.leases && h == Release(g, t))
    ensures exists s :: SimpleNext(g, s, h)
  {
    assert SimpleNext(g, if same then Stutter else if t in g.leases then SimpleStep.Release(t) else SimpleStep.Admit(t), h);
  }

  // ---- Phases -----------------------------------------------------------------------------------------

  lemma OpStatus(w: World, t: Tid, a: OpStep, n: World)
    requires GatesInv(w) && StatusInv(w) && NextOp(w, t, a, n)
    ensures StatusInv(n)
  {
    OpMovesLease(w, t, a, n);
    LeaseGates(w, t, n);
  }

  lemma LifeStatus(w: World, a: LifeStep, n: World)
    requires GatesInv(w) && StatusInv(w) && NextLife(w, a, n)
    ensures StatusInv(n)
  {
    if a == Replaced { CloseGates(w); }
  }

  lemma CloseStatus(w: World, k: Worker)
    requires GatesInv(w) && w.fiber.state != Created && w.fiber.state != WaitingDependencies
    requires k == Tasks || (k == DrainingLeases && w.activation == NoActivation)
    ensures StatusInv(Close(Works(w, k)))
  {
    SameGates(w, Works(w, k));
    CloseGates(Works(w, k));
  }

  lemma DisposeStatus(w: World, a: DisposeStep, n: World)
    requires GatesInv(w) && StatusInv(w) && NextDispose(w, a, n)
    ensures StatusInv(n)
  {
    if a.Dispose? {
      DisposeRequestStatus(w, a, n);
    } else if a == StartDraining {
      CloseStatus(w, DrainingLeases);
    } else {
      DisposeBodyStatus(w, a, n);
    }
  }

  lemma DisposeRequestStatus(w: World, a: DisposeStep, n: World)
    requires GatesInv(w) && StatusInv(w) && NextDispose(w, a, n) && a.Dispose?
    ensures StatusInv(n)
  {
    var v := w.(fiber := Asked(w.fiber, a.waits, a.persistent).(state := Disposing, sealed := false));
    SameGates(w, v);
    CloseStatus(v, Tasks);
  }

  lemma DisposeBodyStatus(w: World, a: DisposeStep, n: World)
    requires GatesInv(w) && StatusInv(w) && NextDispose(w, a, n) && !a.Dispose? && a != StartDraining
    ensures StatusInv(n)
  {
    if a.Take? || a.Finish? || a.NextKind? {
      CleaningStatus(w, a, n);
    } else {
      EndingStatus(w, a, n);
    }
  }

  lemma CleaningStatus(w: World, a: DisposeStep, n: World)
    requires StatusInv(w) && NextDispose(w, a, n) && (a.Take? || a.Finish? || a.NextKind?)
    ensures StatusInv(n)
  {
  }

  lemma EndingStatus(w: World, a: DisposeStep, n: World)
    requires GatesInv(w) && StatusInv(w) && NextDispose(w, a, n)
    requires !a.Dispose? && a != StartDraining && !a.Take? && !a.Finish? && !a.NextKind?
    ensures StatusInv(n)
  {
  }

  // ---- What is owned ------------------------------------------------------------------------------------

  predicate Increasing(s: seq<Resource>, next: nat) {
    && (forall i, j :: 0 <= i < j < |s| ==> s[i].id < s[j].id)
    && (forall i :: 0 <= i < |s| ==> s[i].id < next)
  }

  /** Everything registered bears the current generation, and no id occurs twice. */
  predicate Tagged(lists: Lists, g: Generation) {
    forall k, r :: 0 <= k < KINDS && r in lists[k] ==> r.generation == g
  }

  predicate HistoryOk(h: History, g: Generation) {
    Tagged(h.registered, g) && forall k :: 0 <= k < KINDS ==> Increasing(h.registered[k], h.next)
  }

  /** All registered is still owned, or held, or has been cleaned up, the last registered first. */
  predicate Accounted(owned: seq<Resource>, held: seq<Resource>, registered: seq<Resource>, cleaned: seq<Resource>) {
    registered == owned + held + Reverse(cleaned)
  }

  predicate CleaningOk(w: World, k: nat, holding: Option<Resource>) {
    && k < KINDS
    && var f, h := w.fiber, w.history;
       && (forall j :: 0 <= j < k ==> f.owned[j] == [] && Accounted([], [], h.registered[j], h.cleaned[j]))
       && (forall j :: k < j < KINDS ==> h.cleaned[j] == [] && f.owned[j] == h.registered[j])
       && Accounted(f.owned[k], if holding.Some? && k != CHILD then [holding.value] else [], h.registered[k], h.cleaned[k])
       && (holding.Some? && k == CHILD ==> f.owned[k] != [] && f.owned[k][|f.owned[k]| - 1] == holding.value)
  }

  predicate AllCleaned(w: World) {
    forall j :: 0 <= j < KINDS ==> w.fiber.owned[j] == [] && Accounted([], [], w.history.registered[j], w.history.cleaned[j])
  }

  predicate ListsInv(w: World) {
    && HistoryOk(w.history, w.fiber.generation) && Tagged(w.fiber.owned, w.fiber.generation)
    && match w.fiber.status
       case Untouched => w.fiber.owned == w.history.registered && w.history.cleaned == EMPTY
       case Terminated => true
       case Complete => AllCleaned(w)
       case Busy(k) =>
         match k
         case Tasks => w.fiber.owned == w.history.registered && w.history.cleaned == EMPTY
         case DrainingLeases => w.fiber.owned == w.history.registered && w.history.cleaned == EMPTY
         case Cleaning(kind, holding) => CleaningOk(w, kind, holding)
         case Reconciling => AllCleaned(w)
         case Aimed(_) => AllCleaned(w)
         case Finalizing(target) => target == None || AllCleaned(w)
  }

  /** A lease on a generation keeps it current and undrained, so only before the drain is anything
      appended, and it bears the current generation. */
  lemma LeaseMeansCurrent(w: World, t: Tid, g: Generation)
    requires GatesInv(w) && StatusInv(w) && t in w.threads && LeaseOf(w.threads[t]) == Some(g)
    ensures g == w.fiber.generation && w.gates[g].state != Drained && !PastDrain(w.fiber.status)
  {
    assert ThreadOk(w, w.threads[t]);
    assert t in Holders(w.threads, g);
  }

  lemma PushHistory(h: History, g: Generation, k: nat)
    requires HistoryOk(h, g) && k < KINDS
    ensures HistoryOk(h.(registered := Push(h.registered, k, Resource(h.next, g)), next := h.next + 1), g)
  {
    var pushed := Push(h.registered, k, Resource(h.next, g));
    forall j | 0 <= j < KINDS ensures Increasing(pushed[j], h.next + 1) {
      assert Increasing(h.registered[j], h.next);
    }
  }

  lemma AppendLists(w: World, t: Tid, a: OpStep, n: World)
    requires GatesInv(w) && StatusInv(w) && ListsInv(w) && NextOp(w, t, a, n) && w.threads[t].Inside?
    ensures ListsInv(n)
  {
    LeaseMeansCurrent(w, t, w.threads[t].generation);
    PushHistory(w.history, w.fiber.generation, a.kind);
  }

  lemma OpLists(w: World, t: Tid, a: OpStep, n: World)
    requires GatesInv(w) && StatusInv(w) && ListsInv(w) && NextOp(w, t, a, n)
    ensures ListsInv(n)
  {
    if w.threads[t].Inside? { AppendLists(w, t, a, n); } else { SameLists(w, n); }
  }

  lemma EmptyHistory(g: Generation, next: nat)
    ensures HistoryOk(History(EMPTY, EMPTY, next), g) && Tagged(EMPTY, g)
  {
  }

  lemma RestartLists(w: World, n: World)
    requires ListsInv(w) && w.fiber.status == Complete
    requires n.fiber.owned == w.fiber.owned && n.fiber.status == Untouched && n.history == History(EMPTY, EMPTY, w.history.next)
    ensures ListsInv(n)
  {
    EmptyHistory(n.fiber.generation, w.history.next);
    forall j | 0 <= j < KINDS ensures w.fiber.owned[j] == EMPTY[j] { assert w.fiber.owned[j] == []; }
    assert w.fiber.owned == EMPTY;
  }

  /** Nothing the lists speak of has changed. */
  lemma SameLists(w: World, n: World)
    requires ListsInv(w) && n.history == w.history && n.fiber.owned == w.fiber.owned
    requires n.fiber.generation == w.fiber.generation && n.fiber.status == w.fiber.status
    ensures ListsInv(n)
  {
  }

  lemma LifeLists(w: World, a: LifeStep, n: World)
    requires StatusInv(w) && ListsInv(w) && NextLife(w, a, n)
    ensures ListsInv(n)
  {
    if a.Start? && n.gates != w.gates {
      RestartLists(w, n);
    } else {
      SameLists(w, n);
    }
  }

  lemma WithoutLast(s: seq<Resource>, next: nat)
    requires s != [] && Increasing(s, next)
    ensures Without(s, s[|s| - 1]) == s[..|s| - 1]
  {
    WithoutAbsent(s[..|s| - 1], s[|s| - 1]);
  }

  lemma PrefixIncreasing(s: seq<Resource>, r: seq<Resource>, next: nat)
    requires Increasing(s + r, next)
    ensures Increasing(s, next)
  {
    var whole := s + r;
    forall i, j | 0 <= i < j < |s| ensures s[i].id < s[j].id { assert whole[i].id < whole[j].id; }
    forall i | 0 <= i < |s| ensures s[i].id < next { assert whole[i].id < next; }
  }

  lemma TakeLists(w: World, n: World)
    requires ListsInv(w) && NextDispose(w, Take, n)
    ensures ListsInv(n)
  {
    var k := w.fiber.status.worker.kind;
    var owned := w.fiber.owned[k];
    assert owned == owned[..|owned| - 1] + [owned[|owned| - 1]];
    assert owned + [] == owned;
    assert n.fiber.owned[k] + (if k != CHILD then [owned[|owned| - 1]] else []) == owned;
  }

  lemma ReverseNext(left: seq<Resource>, r: Resource, cleaned: seq<Resource>)
    ensures left + [r] + Reverse(cleaned) == left + [] + Reverse(cleaned + [r])
  {
    ReverseAppend(cleaned, r);
    assert left + [r] + Reverse(cleaned) == left + [] + ([r] + Reverse(cleaned));
  }

  lemma OwnedIncreasing(owned: seq<Resource>, registered: seq<Resource>, cleaned: seq<Resource>, next: nat)
    requires Accounted(owned, [], registered, cleaned) && Increasing(registered, next)
    ensures Increasing(owned, next)
  {
    assert owned + [] == owned;
    PrefixIncreasing(owned, Reverse(cleaned), next);
  }

  lemma SplitLast(s: seq<Resource>)
    requires s != []
    ensures s == s[..|s| - 1] + [s[|s| - 1]]
  {
  }

  /** The one kind that a finished cleanup moves along. */
  lemma FinishAccount(owned: seq<Resource>, r: Resource, registered: seq<Resource>, cleaned: seq<Resource>, k: nat, next: nat)
    requires Increasing(registered, next)
    requires Accounted(owned, if k != CHILD then [r] else [], registered, cleaned)
    requires k == CHILD ==> owned != [] && owned[|owned| - 1] == r
    ensures var left := if k == CHILD then Without(owned, r) else owned;
            Accounted(left, [], registered, cleaned + [r]) && |left| <= |owned| && left == owned[..|left|]
  {
    if k == CHILD {
      OwnedIncreasing(owned, registered, cleaned, next);
      WithoutLast(owned, next);
      SplitLast(owned);
      ReverseNext(owned[..|owned| - 1], r, cleaned);
      assert owned + [] == owned;
    } else {
      ReverseNext(owned, r, cleaned);
    }
  }

  lemma FinishLists(w: World, n: World)
    requires ListsInv(w) && NextDispose(w, Finish, n)
    ensures ListsInv(n)
  {
    var k, r := w.fiber.status.worker.kind, w.fiber.status.worker.holding.value;
    assert Increasing(w.history.registered[k], w.history.next);
    FinishAccount(w.fiber.owned[k], r, w.history.registered[k], w.history.cleaned[k], k, w.history.next);
    assert HistoryOk(n.history, n.fiber.generation);
    assert Tagged(n.fiber.owned, n.fiber.generation);
    assert CleaningOk(n, k, None);
  }

  /** A kind of which nothing has been cleaned up yet. */
  lemma UntouchedKind(s: seq<Resource>)
    ensures Accounted(s, [], s, [])
  {
    assert s + [] + Reverse([]) == s;
  }

  lemma LaterKind(w: World, n: World, k: nat)
    requires CleaningOk(w, k, None) && w.fiber.owned[k] == [] && k + 1 < KINDS
    requires n.fiber.owned == w.fiber.owned && n.history == w.history
    ensures CleaningOk(n, k + 1, None)
  {
    UntouchedKind(w.fiber.owned[k + 1]);
  }

  lemma LastKind(w: World, n: World, k: nat)
    requires CleaningOk(w, k, None) && w.fiber.owned[k] == [] && k + 1 == KINDS
    requires n.fiber.owned == w.fiber.owned && n.history == w.history
    ensures AllCleaned(n)
  {
  }

  lemma NextKindLists(w: World, n: World)
    requires ListsInv(w) && NextDispose(w, NextKind, n)
    ensures ListsInv(n)
  {
    var k := w.fiber.status.worker.kind;
    if k + 1 < KINDS { LaterKind(w, n, k); } else { LastKind(w, n, k); }
  }

  lemma FirstKindLists(w: World, n: World)
    requires ListsInv(w) && NextDispose(w, LeasesGone, n)
    ensures ListsInv(n)
  {
    UntouchedKind(w.fiber.owned[CHILD]);
    assert CleaningOk(n, CHILD, None);
  }

  lemma DisposeLists(w: World, a: DisposeStep, n: World)
    requires StatusInv(w) && ListsInv(w) && NextDispose(w, a, n)
    ensures ListsInv(n)
  {
    match a {
      case Take => TakeLists(w, n);
      case Finish => FinishLists(w, n);
      case NextKind => NextKindLists(w, n);
      case LeasesGone => FirstKindLists(w, n);
      case _ => OtherLists(w, a, n);
    }
  }

  lemma OtherLists(w: World, a: DisposeStep, n: World)
    requires ListsInv(w) && NextDispose(w, a, n) && !a.Take? && !a.Finish? && !a.NextKind? && !a.LeasesGone?
    ensures ListsInv(n)
  {
    assert n.fiber.owned == w.fiber.owned && n.history == w.history && n.fiber.generation == w.fiber.generation;
  }

  // ---- Runs ---------------------------------------------------------------------------------------------

  ghost predicate Inv(w: World) {
    GatesInv(w) && StatusInv(w) && ListsInv(w)
  }

  lemma InitInv(w: World)
    requires Init(w)
    ensures Inv(w)
  {
    EmptyHistory(w.fiber.generation, w.history.next);
    assert Holders(w.threads, w.fiber.generation) == {};
  }

  lemma NextInv(w: World, a: Step, n: World)
    requires Inv(w) && NextStep(w, a, n)
    ensures Inv(n)
  {
    match a {
      case OfOp(t, o) => OpGates(w, t, o, n); OpStatus(w, t, o, n); OpLists(w, t, o, n);
      case OfLife(l) => LifeGates(w, l, n); LifeStatus(w, l, n); LifeLists(w, l, n);
      case OfDispose(d) => DisposeGates(w, d, n); DisposeStatus(w, d, n); DisposeLists(w, d, n);
    }
  }

  ghost predicate Linked(run: seq<World>, steps: seq<Step>, i: nat) {
    i < |steps| && |run| == |steps| + 1 ==> NextStep(run[i], steps[i], run[i + 1])
  }

  ghost predicate Run(run: seq<World>, steps: seq<Step>) {
    |run| == |steps| + 1 && Init(run[0]) && forall i :: Linked(run, steps, i)
  }

  lemma InvAfter(run: seq<World>, steps: seq<Step>, i: nat)
    requires Run(run, steps) && i < |steps| && Inv(run[i])
    ensures Inv(run[i + 1])
  {
    assert Linked(run, steps, i);
    NextInv(run[i], steps[i], run[i + 1]);
  }

  lemma {:induction false} RunInv(run: seq<World>, steps: seq<Step>, i: nat)
    requires Run(run, steps) && i < |run|
    ensures Inv(run[i])
  {
    if i == 0 {
      InitInv(run[0]);
    } else {
      RunInv(run, steps, i - 1);
      InvAfter(run, steps, i - 1);
    }
  }

  /** While an operation holds its lease, the plugin instance is still of the generation the
      operation's context was made for; whatever is owned was registered by that generation. */
  lemma GenerationFence(run: seq<World>, steps: seq<Step>, i: nat, t: Tid)
    requires Run(run, steps) && i < |run| && t in run[i].threads && LeaseOf(run[i].threads[t]).Some?
    ensures LeaseOf(run[i].threads[t]) == Some(run[i].fiber.generation)
    ensures Tagged(run[i].fiber.owned, run[i].fiber.generation)
  {
    RunInv(run, steps, i);
    LeaseMeansCurrent(run[i], t, LeaseOf(run[i].threads[t]).value);
  }

  /** A generation that no longer accepts. */
  predicate Fenced(w: World, g: Generation) {
    g in w.gates && w.gates[g].state != Accepting
  }

  lemma CloseFence(w: World, g: Generation)
    requires GatesInv(w) && Fenced(w, g)
    ensures Fenced(Close(w), g) && Close(w).gates[g].leases == w.gates[g].leases
  {
  }

  lemma DisposeFence(w: World, a: DisposeStep, n: World, g: Generation)
    requires GatesInv(w) && NextDispose(w, a, n) && Fenced(w, g)
    ensures Fenced(n, g) && n.gates[g].leases == w.gates[g].leases
  {
    CloseFence(w, g);
    if !a.Dispose? && a != StartDraining { assert n.gates == w.gates; }
  }

  lemma FenceStep(w: World, a: Step, n: World, g: Generation)
    requires Inv(w) && NextStep(w, a, n) && Fenced(w, g)
    ensures Fenced(n, g) && n.gates[g].leases <= w.gates[g].leases
  {
    match a {
      case OfOp(t, o) => OpMovesLease(w, t, o, n); LeaseGates(w, t, n);
      case OfLife(l) => CloseFence(w, g);
      case OfDispose(d) => DisposeFence(w, d, n, g);
    }
  }

  lemma FenceHolds(run: seq<World>, steps: seq<Step>, i: nat, g: Generation)
    requires Run(run, steps) && i < |steps| && Fenced(run[i], g)
    ensures Fenced(run[i + 1], g) && run[i + 1].gates[g].leases <= run[i].gates[g].leases
  {
    RunInv(run, steps, i);
    assert Linked(run, steps, i);
    FenceStep(run[i], steps[i], run[i + 1], g);
  }

  /** Once a generation has started to drain, nobody is admitted through its contexts any more, in
      the whole rest of the run: not even after the plugin has been started again. */
  lemma {:induction false} NeverAdmittedAgain(run: seq<World>, steps: seq<Step>, i: nat, j: nat, g: Generation)
    requires Run(run, steps) && i <= j < |run| && Fenced(run[i], g)
    ensures Fenced(run[j], g) && run[j].gates[g].leases <= run[i].gates[g].leases
    ensures Holders(run[j].threads, g) <= Holders(run[i].threads, g)
  {
    if i < j {
      NeverAdmittedAgain(run, steps, i, j - 1, g);
      FenceHolds(run, steps, j - 1, g);
    }
    RunInv(run, steps, i);
    RunInv(run, steps, j);
  }

  /** A generation starts to drain when its plugin is replaced, and with the first request for disposal, in
      whatever state short of disposed that finds the instance. */
  lemma FencedFrom(run: seq<World>, steps: seq<Step>, i: nat)
    requires Run(run, steps) && i < |steps|
    ensures steps[i] == OfLife(Replaced) ==> Fenced(run[i + 1], run[i].fiber.generation)
    ensures steps[i].OfDispose? && steps[i].d.Dispose? && run[i].fiber.status == Untouched && run[i].fiber.state != Disposed ==>
              Fenced(run[i + 1], run[i].fiber.generation) && run[i + 1].fiber.status.Busy? && run[i + 1].fiber.state == Disposing
  {
    assert Linked(run, steps, i);
    RunInv(run, steps, i);
  }

  /** Admitted, and not through yet. */
  predicate Admitted(pc: Pc, g: Generation) {
    pc == Looked(g, true) || pc == Inside(g)
  }

  ghost predicate AdmittedBefore(run: seq<World>, i: nat, t: Tid, g: Generation)
    requires i <= |run|
  {
    exists j | 0 <= j < i ::
      t in run[j].threads && run[j].threads[t] == Outside && run[j].fiber.generation == g && Mutable(run[j].fiber.state)
  }

  lemma AdmittedSince(w: World, a: Step, n: World, t: Tid, g: Generation)
    requires NextStep(w, a, n) && t in n.threads && Admitted(n.threads[t], g)
    ensures t in w.threads
    ensures Admitted(w.threads[t], g) || (w.threads[t] == Outside && w.fiber.generation == g && Mutable(w.fiber.state))
  {
    match a {
      case OfOp(u, o) => if u != t { assert n.threads[t] == w.threads[t]; }
      case OfLife(l) => assert n.threads == w.threads;
      case OfDispose(d) => assert n.threads == w.threads;
    }
  }

  /** In every run, who is about to register has come in when the instance was of its context's generation and
      in a state in which it may register. */
  lemma {:induction false} InsideWasAdmitted(run: seq<World>, steps: seq<Step>, i: nat, t: Tid, g: Generation)
    requires Run(run, steps) && i < |run| && t in run[i].threads && Admitted(run[i].threads[t], g)
    ensures AdmittedBefore(run, i, t, g)
  {
    if i == 0 { assert false; }
    assert Linked(run, steps, i - 1);
    AdmittedSince(run[i - 1], steps[i - 1], run[i], t, g);
    if Admitted(run[i - 1].threads[t], g) { InsideWasAdmitted(run, steps, i - 1, t, g); }
  }

  /** Something is taken up for cleanup, or finished. */
  predicate CleansUp(a: Step) {
    a == OfDispose(Take) || a == OfDispose(Finish)
  }

  /** No cleanup while any lease is live, on this generation or on any before it, and whoever asks
      from now on is refused. */
  lemma DrainBeforeCleanup(run: seq<World>, steps: seq<Step>, i: nat)
    requires Run(run, steps) && i < |steps| && CleansUp(steps[i])
    ensures forall t <- run[i].threads :: LeaseOf(run[i].threads[t]) == None
    ensures forall g <- run[i].gates :: run[i].gates[g].state == Drained
  {
    RunInv(run, steps, i);
    assert Linked(run, steps, i);
    PastDrainNoLease(run[i]);
  }

  lemma PastDrainNoLease(w: World)
    requires Inv(w) && PastDrain(w.fiber.status)
    ensures forall t <- w.threads :: LeaseOf(w.threads[t]) == None
    ensures forall g <- w.gates :: w.gates[g].state == Drained
  {
    forall t | t in w.threads ensures LeaseOf(w.threads[t]) == None {
      if LeaseOf(w.threads[t]).Some? { LeaseMeansCurrent(w, t, LeaseOf(w.threads[t]).value); }
    }
  }

  predicate OwnsNoMore(w: World, n: World) {
    && n.history.registered == w.history.registered
    && forall k :: 0 <= k < KINDS ==> |n.fiber.owned[k]| <= |w.fiber.owned[k]|
  }

  lemma DisposeOwnsNoMore(w: World, a: DisposeStep, n: World)
    requires NextDispose(w, a, n)
    ensures OwnsNoMore(w, n)
  {
    if a == Finish && w.fiber.status.worker.kind == CHILD {
      WithoutShrinks(w.fiber.owned[CHILD], w.fiber.status.worker.holding.value);
    } else if a != Take && a != Finish {
      assert n.fiber.owned == w.fiber.owned && n.history == w.history;
    }
  }

  lemma LifeOwnsNoMore(w: World, a: LifeStep, n: World)
    requires NextLife(w, a, n) && w.fiber.generation in w.gates && n.fiber.generation == w.fiber.generation
    ensures OwnsNoMore(w, n) && n.fiber.status == w.fiber.status && n.fiber.owned == w.fiber.owned
  {
  }

  lemma OpOwnsNoMore(w: World, t: Tid, a: OpStep, n: World)
    requires NextOp(w, t, a, n) && LeaseOf(w.threads[t]) == None
    ensures OwnsNoMore(w, n) && n.fiber == w.fiber
  {
  }

  lemma PastDrainStep(w: World, a: Step, n: World)
    requires Inv(w) && NextStep(w, a, n) && PastDrain(w.fiber.status) && n.fiber.generation == w.fiber.generation
    ensures OwnsNoMore(w, n)
  {
    match a {
      case OfOp(t, o) => PastDrainNoLease(w); OpOwnsNoMore(w, t, o, n);
      case OfLife(l) => LifeOwnsNoMore(w, l, n);
      case OfDispose(d) => DisposeOwnsNoMore(w, d, n);
    }
  }

  /** After the drain nothing is registered any more: what is owned only becomes less. */
  lemma NothingAppendedAfterDrain(run: seq<World>, steps: seq<Step>, i: nat)
    requires Run(run, steps) && i < |steps| && PastDrain(run[i].fiber.status)
    requires run[i + 1].fiber.generation == run[i].fiber.generation
    ensures OwnsNoMore(run[i], run[i + 1])
  {
    RunInv(run, steps, i);
    assert Linked(run, steps, i);
    PastDrainStep(run[i], steps[i], run[i + 1]);
  }

  /** When the disposal is complete nothing is owned, and all that the generation ever registered, of
      each kind, has been taken off its list exactly once, the last registered first.  Of a service that
      is not yet its withdrawal: that is made in the record's scope (see StagingLeftovers). */
  lemma CompleteIsClean(run: seq<World>, steps: seq<Step>, i: nat, k: nat)
    requires Run(run, steps) && i < |run| && run[i].fiber.status == Complete && k < KINDS
    ensures run[i].fiber.owned[k] == []
    ensures Reverse(run[i].history.cleaned[k]) == run[i].history.registered[k]
    ensures forall i_, j_ :: 0 <= i_ < j_ < |run[i].history.registered[k]| ==>
              run[i].history.registered[k][i_] != run[i].history.registered[k][j_]
  {
    RunInv(run, steps, i);
    var h := run[i].history;
    assert Accounted([], [], h.registered[k], h.cleaned[k]) && Increasing(h.registered[k], h.next);
    assert [] + [] + Reverse(h.cleaned[k]) == Reverse(h.cleaned[k]);
  }

  /** Kinds are cleaned up in order: whatever is being taken up, all of the kinds before it is gone,
      effects last. */
  lemma EarlierKindsAreGone(run: seq<World>, steps: seq<Step>, i: nat, j: nat)
    requires Run(run, steps) && i < |steps| && CleansUp(steps[i]) && j < KINDS
    ensures run[i].fiber.status.Busy? && run[i].fiber.status.worker.Cleaning?
    ensures j < run[i].fiber.status.worker.kind ==>
              run[i].fiber.owned[j] == [] && Reverse(run[i].history.cleaned[j]) == run[i].history.registered[j]
  {
    RunInv(run, steps, i);
    assert Linked(run, steps, i);
    var k := run[i].fiber.status.worker.kind;
    assert CleaningOk(run[i], k, run[i].fiber.status.worker.holding);
    if j < k {
      assert Accounted([], [], run[i].history.registered[j], run[i].history.cleaned[j]);
      assert [] + [] + Reverse(run[i].history.cleaned[j]) == Reverse(run[i].history.cleaned[j]);
    }
  }

  /** So nothing can reach the plugin any more when its services are withdrawn, and all else is gone when
      its effects are disposed of. */
  lemma EffectsLast(run: seq<World>, steps: seq<Step>, i: nat)
    requires Run(run, steps) && i < |steps| && CleansUp(steps[i])
    ensures run[i].fiber.status.Busy? && run[i].fiber.status.worker.Cleaning?
    ensures var kind, owned := run[i].fiber.status.worker.kind, run[i].fiber.owned;
            && (kind == HANDLER ==> owned[CHILD] == [])
            && (kind == SERVICE ==> owned[CHILD] == owned[HANDLER] == owned[INVOCATION_HANDLER] == owned[MIDDLEWARE] == [])
            && (kind == EFFECT ==> owned[CHILD] == owned[HANDLER] == owned[INVOCATION_HANDLER] == owned[MIDDLEWARE] == owned[SERVICE] == [])
  {
    EarlierKindsAreGone(run, steps, i, CHILD);
    EarlierKindsAreGone(run, steps, i, HANDLER);
    EarlierKindsAreGone(run, steps, i, INVOCATION_HANDLER);
    EarlierKindsAreGone(run, steps, i, MIDDLEWARE);
    EarlierKindsAreGone(run, steps, i, SERVICE);
  }

  // ---- Disposals that do not complete ----------------------------------------------------------------------

  /** Whatever has been cleaned up was registered, none of it twice, and not before the drain. */
  predicate CleanedOnce(w: World) {
    && (forall k :: 0 <= k < KINDS ==> OnceEach(w.history.registered[k], w.history.cleaned[k]))
    && (w.history.cleaned != EMPTY ==> w.fiber.generation in w.gates && w.gates[w.fiber.generation].state == Drained)
  }

  predicate OnceEach(registered: seq<Resource>, cleaned: seq<Resource>) {
    Distinct(cleaned) && forall r <- cleaned :: r in registered
  }

  lemma {:induction false} InReverse(s: seq<Resource>)
    ensures |Reverse(s)| == |s| && forall i :: 0 <= i < |s| ==> Reverse(s)[i] == s[|s| - 1 - i]
  {
    if s != [] { InReverse(s[1..]); }
  }

  lemma AccountedOnce(owned: seq<Resource>, held: seq<Resource>, registered: seq<Resource>, cleaned: seq<Resource>, next: nat)
    requires Accounted(owned, held, registered, cleaned) && Increasing(registered, next)
    ensures OnceEach(registered, cleaned)
  {
    InReverse(cleaned);
    var before := |owned| + |held|;
    forall i | 0 <= i < |cleaned| ensures before + |cleaned| - 1 - i < |registered| && registered[before + |cleaned| - 1 - i] == cleaned[i] {
      assert Reverse(cleaned)[|cleaned| - 1 - i] == cleaned[i];
    }
  }

  lemma FinishOnce(w: World, n: World)
    requires Inv(w) && Inv(n) && NextDispose(w, Finish, n)
    ensures CleanedOnce(n)
  {
    var k := w.fiber.status.worker.kind;
    assert CleaningOk(n, k, None);
    forall j | 0 <= j < KINDS ensures OnceEach(n.history.registered[j], n.history.cleaned[j]) {
      assert Increasing(n.history.registered[j], n.history.next);
      if j <= k {
        AccountedOnce(if j < k then [] else n.fiber.owned[k], [], n.history.registered[j], n.history.cleaned[j], n.history.next);
      }
    }
    PastDrainNoLease(w);
  }

  lemma OpCleansNothing(w: World, t: Tid, a: OpStep, n: World)
    requires Inv(w) && NextOp(w, t, a, n)
    ensures n.history.cleaned == w.history.cleaned
    ensures forall k, r :: 0 <= k < KINDS && r in w.history.registered[k] ==> r in n.history.registered[k]
    ensures forall g <- w.gates :: w.gates[g].state == Drained ==> g in n.gates && n.gates[g].state == Drained
  {
    OpMovesLease(w, t, a, n);
    LeaseGates(w, t, n);
  }

  lemma LifeOnce(w: World, a: LifeStep, n: World)
    requires Inv(w) && CleanedOnce(w) && NextLife(w, a, n)
    ensures CleanedOnce(n)
  {
    if a.Start? && n.gates != w.gates {
      assert n.history.cleaned == EMPTY;
    } else {
      assert n.history == w.history && n.fiber.generation == w.fiber.generation;
    }
  }

  lemma DisposeOnce(w: World, a: DisposeStep, n: World)
    requires Inv(w) && CleanedOnce(w) && NextDispose(w, a, n) && a != Finish
    ensures CleanedOnce(n)
  {
    assert n.history == w.history && n.fiber.generation == w.fiber.generation;
    if !a.Dispose? && a != StartDraining { assert n.gates == w.gates; }
  }

  lemma OnceStep(w: World, a: Step, n: World)
    requires Inv(w) && CleanedOnce(w) && NextStep(w, a, n)
    ensures CleanedOnce(n)
  {
    match a {
      case OfOp(t, o) => OpCleansNothing(w, t, o, n);
      case OfLife(l) => LifeOnce(w, l, n);
      case OfDispose(d) =>
        if d == Finish {
          NextInv(w, a, n);
          FinishOnce(w, n);
        } else {
          DisposeOnce(w, d, n);
        }
    }
  }

  /** In every state of every run, whether disposals complete, time out in the drain or die half way:
      each resource has been cleaned up at most once, and only after its generation had drained. */
  lemma {:induction false} CleanedAtMostOnce(run: seq<World>, steps: seq<Step>, i: nat)
    requires Run(run, steps) && i < |run|
    ensures CleanedOnce(run[i])
  {
    if i > 0 {
      CleanedAtMostOnce(run, steps, i - 1);
      RunInv(run, steps, i - 1);
      assert Linked(run, steps, i - 1);
      OnceStep(run[i - 1], steps[i - 1], run[i]);
    }
  }

  /** A disposal whose state has been written over, or that has ended Terminated. */
  predicate Overwritten(w: World) {
    (w.fiber.status.Busy? && w.fiber.state != Disposing) || w.fiber.status == Terminated
  }

  lemma OverwrittenLives(w: World, a: LifeStep, n: World)
    requires StatusInv(w) && Overwritten(w) && NextLife(w, a, n)
    ensures Overwritten(n)
  {
    assert !a.Start? && !a.Await?;
  }

  lemma OverwrittenDisposal(w: World, a: DisposeStep, n: World)
    requires StatusInv(w) && Overwritten(w) && NextDispose(w, a, n)
    ensures Overwritten(n) && (a.Finalize? ==> n.fiber.status == Terminated)
  {
  }

  lemma OverwrittenOp(w: World, t: Tid, a: OpStep, n: World)
    requires Overwritten(w) && NextOp(w, t, a, n)
    ensures Overwritten(n)
  {
    assert n.fiber.status == w.fiber.status && n.fiber.state == w.fiber.state;
  }

  lemma OverwrittenStep(w: World, a: Step, n: World)
    requires StatusInv(w) && Overwritten(w) && NextStep(w, a, n)
    ensures Overwritten(n)
    ensures a.OfDispose? && a.d.Finalize? ==> n.fiber.status == Terminated
  {
    match a {
      case OfOp(t, o) => OverwrittenOp(w, t, o, n);
      case OfLife(l) => OverwrittenLives(w, l, n);
      case OfDispose(d) => OverwrittenDisposal(w, d, n);
    }
  }

  /** A staged activation that writes Active over Disposing makes that disposal end Terminated: it can
      end in no other way, in the whole rest of the run. */
  lemma {:induction false} OverwrittenTerminates(run: seq<World>, steps: seq<Step>, i: nat, j: nat)
    requires Run(run, steps) && i < |steps| && steps[i] == OfLife(CommitStaged) && run[i].fiber.status.Busy? && i < j < |run|
    ensures Overwritten(run[j])
    ensures j < |steps| && steps[j].OfDispose? && steps[j].d.Finalize? ==> run[j + 1].fiber.status == Terminated
    decreases j
  {
    if i + 1 < j {
      OverwrittenTerminates(run, steps, i, j - 1);
      RunInv(run, steps, j - 1);
      assert Linked(run, steps, j - 1);
      OverwrittenStep(run[j - 1], steps[j - 1], run[j]);
    } else {
      assert Linked(run, steps, i);
    }
    if j < |steps| {
      RunInv(run, steps, j);
      assert Linked(run, steps, j);
      OverwrittenStep(run[j], steps[j], run[j + 1]);
    }
  }

  // ---- How a disposal ends ---------------------------------------------------------------------------------

  predicate DisposesForGood(a: Step) {
    a.OfDispose? && a.d.Dispose? && !a.d.waits
  }

  predicate DrainsForGood(a: Step) {
    a.OfDispose? && a.d.Dispose? && a.d.persistent
  }

  /** Some request before `i` was for the permanent disposal of the generation that is current there. */
  ghost predicate ForGood(run: seq<World>, steps: seq<Step>, i: nat)
    requires i <= |steps| && |run| == |steps| + 1
  {
    exists j :: 0 <= j < i && DisposesForGood(steps[j]) && run[j].fiber.generation == run[i].fiber.generation
  }

  /** Some request before `i` was to wait for its leases as long as it takes. */
  ghost predicate Persistent(run: seq<World>, steps: seq<Step>, i: nat)
    requires i <= |steps| && |run| == |steps| + 1
  {
    exists j :: 0 <= j < i && DrainsForGood(steps[j]) && run[j].fiber.generation == run[i].fiber.generation
  }

  /** The body dies, or gives up its drain, which no request has asked it to wait for. */
  ghost predicate Spoils(run: seq<World>, steps: seq<Step>, j: nat)
    requires j < |steps| && |run| == |steps| + 1
  {
    steps[j] == OfDispose(Die) || (steps[j] == OfDispose(DrainTimesOut) && !Persistent(run, steps, j))
  }

  ghost predicate Spoilt(run: seq<World>, steps: seq<Step>, i: nat)
    requires i <= |steps| && |run| == |steps| + 1
  {
    exists j :: 0 <= j < i && Spoils(run, steps, j) && run[j].fiber.generation == run[i].fiber.generation
  }

  predicate AimsAt(run: seq<World>, steps: seq<Step>, k: nat, i: nat)
    requires k < |steps| && i < |run| && |run| == |steps| + 1
  {
    steps[k] == OfDispose(Aim) && run[k].fiber.generation == run[i].fiber.generation
  }

  function EndFor(forGood: bool): FiberState {
    if forGood then Disposed else WaitingDependencies
  }

  // -- Generations

  predicate Restarts(w: World, n: World) {
    n.fiber.generation != w.fiber.generation
  }

  lemma RestartStep(w: World, a: Step, n: World)
    requires Inv(w) && NextStep(w, a, n)
    ensures w.gates.Keys <= n.gates.Keys
    ensures Restarts(w, n) ==> n.fiber.generation !in w.gates && n.fiber.waits && !n.fiber.persistent && n.fiber.status == Untouched
    ensures Restarts(w, n) ==> a.OfLife?
  {
    match a {
      case OfOp(t, o) => OpMovesLease(w, t, o, n);
      case OfLife(l) => RestartLife(w, l, n);
      case OfDispose(d) => NoRestart(w, d, n);
    }
  }

  lemma RestartLife(w: World, a: LifeStep, n: World)
    requires w.fiber.generation in w.gates && NextLife(w, a, n)
    ensures w.gates.Keys <= n.gates.Keys
    ensures Restarts(w, n) ==> n.fiber.generation !in w.gates && n.fiber.waits && !n.fiber.persistent && n.fiber.status == Untouched
  {
  }

  lemma NoRestart(w: World, a: DisposeStep, n: World)
    requires w.fiber.generation in w.gates && NextDispose(w, a, n)
    ensures w.gates.Keys == n.gates.Keys && !Restarts(w, n)
  {
  }

  lemma RestartAt(run: seq<World>, steps: seq<Step>, i: nat)
    requires Run(run, steps) && i < |steps|
    ensures Inv(run[i]) && NextStep(run[i], steps[i], run[i + 1]) && run[i].gates.Keys <= run[i + 1].gates.Keys
    ensures Restarts(run[i], run[i + 1]) ==>
              && run[i + 1].fiber.generation !in run[i].gates && run[i + 1].fiber.waits && !run[i + 1].fiber.persistent
              && run[i + 1].fiber.status == Untouched && steps[i].OfLife?
  {
    RunInv(run, steps, i);
    assert Linked(run, steps, i);
    RestartStep(run[i], steps[i], run[i + 1]);
  }

  lemma {:induction false} OldGenerations(run: seq<World>, steps: seq<Step>, j: nat, i: nat)
    requires Run(run, steps) && j <= i < |run|
    ensures run[j].fiber.generation in run[i].gates
    decreases i
  {
    if j == i {
      RunInv(run, steps, i);
    } else {
      OldGenerations(run, steps, j, i - 1);
      RestartAt(run, steps, i - 1);
    }
  }

  /** A generation that has just begun is in nobody's past. */
  lemma NewGeneration(run: seq<World>, steps: seq<Step>, i: nat)
    requires Run(run, steps) && i < |steps| && Restarts(run[i], run[i + 1])
    ensures forall j :: 0 <= j <= i ==> run[j].fiber.generation != run[i + 1].fiber.generation
  {
    RestartAt(run, steps, i);
    forall j | 0 <= j <= i ensures run[j].fiber.generation != run[i + 1].fiber.generation {
      OldGenerations(run, steps, j, i);
    }
  }

  // -- What was asked for

  lemma AskedStep(w: World, a: Step, n: World)
    requires w.fiber.generation in w.gates && NextStep(w, a, n) && !Restarts(w, n)
    ensures n.fiber.waits == (w.fiber.waits && !DisposesForGood(a))
    ensures n.fiber.persistent == (w.fiber.persistent || DrainsForGood(a))
  {
    match a {
      case OfOp(t, o) => OpLeavesFiber(w, t, o, n);
      case OfLife(l) => LifeLeavesDisposal(w, l, n);
      case OfDispose(d) => AskedByDisposal(w, d, n);
    }
  }

  lemma AskedByDisposal(w: World, d: DisposeStep, n: World)
    requires NextDispose(w, d, n)
    ensures n.fiber.waits == (w.fiber.waits && !DisposesForGood(OfDispose(d)))
    ensures n.fiber.persistent == (w.fiber.persistent || DrainsForGood(OfDispose(d)))
  {
  }

  lemma OpLeavesFiber(w: World, t: Tid, a: OpStep, n: World)
    requires NextOp(w, t, a, n)
    ensures n.fiber == w.fiber.(owned := n.fiber.owned)
  {
  }

  lemma LifeLeavesDisposal(w: World, a: LifeStep, n: World)
    requires w.fiber.generation in w.gates && NextLife(w, a, n) && !Restarts(w, n)
    ensures n.fiber.status == w.fiber.status && n.fiber.waits == w.fiber.waits && n.fiber.persistent == w.fiber.persistent
  {
  }

  lemma {:induction false} AskedExactly(run: seq<World>, steps: seq<Step>, i: nat)
    requires Run(run, steps) && i < |run|
    ensures run[i].fiber.waits <==> !ForGood(run, steps, i)
    ensures run[i].fiber.persistent <==> Persistent(run, steps, i)
  {
    if i > 0 {
      AskedExactly(run, steps, i - 1);
      RestartAt(run, steps, i - 1);
      if Restarts(run[i - 1], run[i]) {
        NewGeneration(run, steps, i - 1);
      } else {
        AskedStep(run[i - 1], steps[i - 1], run[i]);
        OneMoreAsked(run, steps, i - 1);
      }
    }
  }

  lemma OneMoreAsked(run: seq<World>, steps: seq<Step>, i: nat)
    requires i < |steps| && |run| == |steps| + 1 && !Restarts(run[i], run[i + 1])
    ensures ForGood(run, steps, i + 1) <==> ForGood(run, steps, i) || DisposesForGood(steps[i])
    ensures Persistent(run, steps, i + 1) <==> Persistent(run, steps, i) || DrainsForGood(steps[i])
  {
  }

  // -- What a disposal aims at

  /** The end that has been aimed at, and not been reached yet or just been. */
  function AimOf(f: Fiber): Option<FiberState> {
    match f.status
    case Busy(k) => if k.Aimed? then Some(k.at) else if k.Finalizing? then k.target else None
    case Complete => Some(f.state)
    case _ => None
  }

  predicate NotAimedYet(s: Status) {
    s == Untouched || (s.Busy? && !s.worker.Aimed? && !s.worker.Finalizing?)
  }

  /** From the aim on it is kept; and before it nobody has aimed. */
  ghost predicate AimedBefore(run: seq<World>, steps: seq<Step>, i: nat)
    requires i <= |steps| && |run| == |steps| + 1
  {
    && (NotAimedYet(run[i].fiber.status) ==> forall k :: 0 <= k < i ==> !AimsAt(run, steps, k, i))
    && (forall k, l :: 0 <= k < l < i && AimsAt(run, steps, k, i) ==> !AimsAt(run, steps, l, i))
  }

  lemma AimStep(w: World, a: Step, n: World)
    requires StatusInv(w) && NextStep(w, a, n) && !Restarts(w, n)
    ensures NotAimedYet(n.fiber.status) ==> NotAimedYet(w.fiber.status) && a != OfDispose(Aim)
    ensures a == OfDispose(Aim) ==> NotAimedYet(w.fiber.status)
  {
  }

  lemma {:induction false} AimsOnce(run: seq<World>, steps: seq<Step>, i: nat)
    requires Run(run, steps) && i < |run|
    ensures AimedBefore(run, steps, i)
  {
    if i > 0 {
      AimsOnce(run, steps, i - 1);
      RestartAt(run, steps, i - 1);
      if Restarts(run[i - 1], run[i]) {
        NewGeneration(run, steps, i - 1);
      } else {
        AimStep(run[i - 1], steps[i - 1], run[i]);
        assert forall k :: 0 <= k < i - 1 && AimsAt(run, steps, k, i) ==> AimsAt(run, steps, k, i - 1);
      }
    }
  }

  /** How the aim comes about and what becomes of it, in one step. */
  lemma AimMoves(w: World, a: Step, n: World)
    requires w.fiber.generation in w.gates && StatusInv(w) && NextStep(w, a, n) && !Restarts(w, n) && AimOf(n.fiber).Some?
    ensures AimOf(n.fiber) == if a == OfDispose(Aim) then Some(EndFor(!w.fiber.waits)) else AimOf(w.fiber)
  {
    match a {
      case OfOp(t, o) => OpLeavesFiber(w, t, o, n);
      case OfLife(l) => AimLives(w, l, n);
      case OfDispose(d) => AimDisposal(w, d, n);
    }
  }

  lemma AimLives(w: World, a: LifeStep, n: World)
    requires w.fiber.generation in w.gates && StatusInv(w) && NextLife(w, a, n) && !Restarts(w, n) && AimOf(n.fiber).Some?
    ensures AimOf(n.fiber) == AimOf(w.fiber)
  {
    LifeLeavesDisposal(w, a, n);
    if w.fiber.status == Complete { CompleteLives(w, a, n); }
  }

  /** Nothing but a restart, which is a new generation, changes the state of a fiber whose disposal is
      complete. */
  lemma CompleteLives(w: World, a: LifeStep, n: World)
    requires w.fiber.generation in w.gates && StatusInv(w) && w.fiber.status == Complete && NextLife(w, a, n) && !Restarts(w, n)
    ensures n.fiber.state == w.fiber.state
  {
    assert w.activation == NoActivation && AnEnd(w.fiber.state);
  }

  lemma AimDisposal(w: World, a: DisposeStep, n: World)
    requires NextDispose(w, a, n) && AimOf(n.fiber).Some?
    ensures AimOf(n.fiber) == if a == Aim then Some(EndFor(!w.fiber.waits)) else AimOf(w.fiber)
  {
  }

  /** A disposal that completes or is about to has aimed once, at what had been asked for by then. */
  lemma {:induction false} AimedAt(run: seq<World>, steps: seq<Step>, i: nat) returns (k: nat)
    requires Run(run, steps) && i < |run| && AimOf(run[i].fiber).Some?
    ensures k < i && AimsAt(run, steps, k, i) && AimOf(run[i].fiber) == Some(EndFor(ForGood(run, steps, k)))
  {
    if i == 0 { assert false; }
    RestartAt(run, steps, i - 1);
    AimMoves(run[i - 1], steps[i - 1], run[i]);
    if steps[i - 1] == OfDispose(Aim) {
      k := i - 1;
      AskedExactly(run, steps, k);
    } else {
      k := AimedAt(run, steps, i - 1);
    }
  }

  /** A disposal that completes leaves the fiber disposed exactly if permanent disposal of its generation
      was asked for, by anybody, before the body read what was asked; otherwise the fiber waits for its
      dependencies.  The body reads it once. */
  lemma CompletesAsAsked(run: seq<World>, steps: seq<Step>, i: nat) returns (k: nat)
    requires Run(run, steps) && i < |steps| && steps[i].OfDispose? && steps[i].d.Finalize? && run[i + 1].fiber.status == Complete
    ensures k < i && AimsAt(run, steps, k, i) && forall l :: 0 <= l <= i && AimsAt(run, steps, l, i) ==> l == k
    ensures run[i + 1].fiber.state == Disposed <==> ForGood(run, steps, k)
    ensures run[i + 1].fiber.state != Disposed ==> run[i + 1].fiber.state == WaitingDependencies
  {
    RestartAt(run, steps, i);
    AimMoves(run[i], steps[i], run[i + 1]);
    k := AimedAt(run, steps, i);
    AimsOnce(run, steps, i);
  }

  /** Disposed for good. */
  predicate IsDisposed(w: World) {
    w.fiber.state == Disposed
  }

  lemma DisposedStep(w: World, a: Step, n: World)
    requires StatusInv(w) && (IsDisposed(w) ==> w.fiber.status == Complete) && NextStep(w, a, n)
    ensures IsDisposed(n) ==> n.fiber.status == Complete
    ensures IsDisposed(w) ==> IsDisposed(n) && n.fiber.generation == w.fiber.generation && !(a.OfLife? && a.l.Start?)
  {
    match a {
      case OfOp(t, o) => OpLeavesFiber(w, t, o, n);
      case OfLife(l) => DisposedLives(w, l, n);
      case OfDispose(d) => DisposedDisposal(w, d, n);
    }
  }

  lemma DisposedLives(w: World, a: LifeStep, n: World)
    requires IsDisposed(w) ==> w.activation == NoActivation && w.fiber.status == Complete
    requires NextLife(w, a, n)
    ensures IsDisposed(n) ==> IsDisposed(w) && n.fiber.status == Complete
    ensures IsDisposed(w) ==> IsDisposed(n) && n.fiber.generation == w.fiber.generation && !a.Start?
  {
  }

  lemma DisposedDisposal(w: World, a: DisposeStep, n: World)
    requires IsDisposed(w) ==> w.fiber.status == Complete
    requires NextDispose(w, a, n)
    ensures IsDisposed(n) ==> n.fiber.status == Complete
    ensures IsDisposed(w) ==> IsDisposed(n) && n.fiber.generation == w.fiber.generation
  {
  }

  lemma {:induction false} DisposedIsComplete(run: seq<World>, steps: seq<Step>, i: nat)
    requires Run(run, steps) && i < |run| && IsDisposed(run[i])
    ensures run[i].fiber.status == Complete
  {
    if i > 0 {
      RestartAt(run, steps, i - 1);
      if IsDisposed(run[i - 1]) { DisposedIsComplete(run, steps, i - 1); }
      DisposedStep(run[i - 1], steps[i - 1], run[i]);
    }
  }

  lemma DisposedStays(run: seq<World>, steps: seq<Step>, i: nat)
    requires Run(run, steps) && i < |steps| && IsDisposed(run[i])
    ensures IsDisposed(run[i + 1]) && run[i + 1].fiber.generation == run[i].fiber.generation && !(steps[i].OfLife? && steps[i].l.Start?)
  {
    RestartAt(run, steps, i);
    DisposedIsComplete(run, steps, i);
    DisposedStep(run[i], steps[i], run[i + 1]);
  }

  /** What is disposed stays so, in the whole rest of the run, and is never started again. */
  lemma {:induction false} DisposedForGood(run: seq<World>, steps: seq<Step>, i: nat, j: nat)
    requires Run(run, steps) && i <= j < |run| && IsDisposed(run[i])
    ensures IsDisposed(run[j]) && run[j].fiber.generation == run[i].fiber.generation
    ensures j < |steps| ==> !(steps[j].OfLife? && steps[j].l.Start?)
    decreases j
  {
    if i < j {
      DisposedForGood(run, steps, i, j - 1);
      DisposedStays(run, steps, j - 1);
    }
    if j < |steps| { DisposedStays(run, steps, j); }
  }

  // -- Exactly when it terminates

  /** Whether this disposal has been spoilt is known from its status, until it is over. */
  predicate SpoiltIs(s: Status, spoilt: bool) {
    match s
    case Busy(k) => spoilt <==> k == Finalizing(None)
    case Terminated => true
    case _ => !spoilt
  }

  lemma SpoilStep(w: World, a: Step, n: World, spoilt: bool, persistent: bool)
    requires w.fiber.generation in w.gates && StatusInv(w) && SpoiltIs(w.fiber.status, spoilt) && persistent == w.fiber.persistent
    requires NextStep(w, a, n) && !Restarts(w, n)
    ensures var now := a == OfDispose(Die) || (a == OfDispose(DrainTimesOut) && !persistent);
            SpoiltIs(n.fiber.status, spoilt || now)
  {
    match a {
      case OfOp(t, o) => OpLeavesFiber(w, t, o, n);
      case OfLife(l) => LifeLeavesDisposal(w, l, n);
      case OfDispose(d) => SpoilDispose(w, d, n, spoilt);
    }
  }

  lemma SpoilDispose(w: World, d: DisposeStep, n: World, spoilt: bool)
    requires StatusInv(w) && SpoiltIs(w.fiber.status, spoilt) && NextDispose(w, d, n)
    ensures SpoiltIs(n.fiber.status, spoilt || d == Die || (d == DrainTimesOut && !w.fiber.persistent))
  {
  }

  lemma OneMoreSpoils(run: seq<World>, steps: seq<Step>, i: nat)
    requires i < |steps| && |run| == |steps| + 1 && !Restarts(run[i], run[i + 1])
    ensures Spoilt(run, steps, i + 1) <==> Spoilt(run, steps, i) || Spoils(run, steps, i)
  {
  }

  lemma {:induction false} SpoiltExactly(run: seq<World>, steps: seq<Step>, i: nat)
    requires Run(run, steps) && i < |run|
    ensures SpoiltIs(run[i].fiber.status, Spoilt(run, steps, i))
  {
    if i > 0 {
      SpoiltExactly(run, steps, i - 1);
      RestartAt(run, steps, i - 1);
      if Restarts(run[i - 1], run[i]) {
        NewGeneration(run, steps, i - 1);
      } else {
        AskedExactly(run, steps, i - 1);
        SpoilStep(run[i - 1], steps[i - 1], run[i], Spoilt(run, steps, i - 1), Persistent(run, steps, i - 1));
        OneMoreSpoils(run, steps, i - 1);
      }
    }
  }

  /** A disposal ends Terminated exactly if its body died or gave up a drain that no request had asked it to
      wait for, if what it reports says so, or if its state has been written over.  Otherwise it is complete. */
  lemma TerminatedExactly(run: seq<World>, steps: seq<Step>, i: nat)
    requires Run(run, steps) && i < |steps| && steps[i].OfDispose? && steps[i].d.Finalize?
    ensures run[i + 1].fiber.status == Terminated <==> Spoilt(run, steps, i) || steps[i].d.worse || run[i].fiber.state != Disposing
    ensures run[i + 1].fiber.status != Terminated ==> run[i + 1].fiber.status == Complete
    ensures run[i + 1].fiber.status == Terminated ==> run[i + 1].fiber.state == run[i].fiber.state
  {
    RestartAt(run, steps, i);
    SpoiltExactly(run, steps, i);
  }

  // -- A request that comes too late

  lemma Extend(run: seq<World>, steps: seq<Step>, a: Step, n: World) returns (longer: seq<World>, more: seq<Step>)
    requires Run(run, steps) && NextStep(run[|run| - 1], a, n)
    ensures longer == run + [n] && more == steps + [a] && Run(longer, more) && longer[|longer| - 1] == n
  {
    longer, more := run + [n], steps + [a];
    forall i: nat ensures Linked(longer, more, i) {
      assert Linked(run, steps, i);
      if i < |steps| { assert longer[i] == run[i] && longer[i + 1] == run[i + 1] && more[i] == steps[i]; }
    }
  }

  function Bare(state: FiberState, status: Status, waits: bool): World {
    World(Fiber(state, false, 1, EMPTY, status, waits, false), map[1 := SimpleGate(if status == Untouched then Accepting else Drained, {})],
          map[], NoActivation, History(EMPTY, EMPTY, 0))
  }

  lemma NoKindLeft(run: seq<World>, steps: seq<Step>, k: nat) returns (longer: seq<World>, more: seq<Step>)
    requires k < KINDS && Run(run, steps) && run[|run| - 1] == Bare(Disposing, Busy(Cleaning(k, None)), true)
    ensures Run(longer, more) && longer[|longer| - 1] == Bare(Disposing, Busy(Reconciling), true)
    decreases KINDS - k
  {
    var next := if k + 1 < KINDS then Cleaning(k + 1, None) else Reconciling;
    longer, more := Extend(run, steps, OfDispose(NextKind), Bare(Disposing, Busy(next), true));
    if k + 1 < KINDS { longer, more := NoKindLeft(longer, more, k + 1); }
  }

  /** A disposal that is to wait for dependencies, of a fiber that owns nothing. */
  lemma NothingToClean() returns (run: seq<World>, steps: seq<Step>)
    ensures Run(run, steps) && run[|run| - 1] == Bare(Disposing, Busy(Reconciling), true)
  {
    run, steps := [Bare(Created, Untouched, true)], [];
    run, steps := Extend(run, steps, OfDispose(Dispose(true, false)), Bare(Disposing, Busy(Tasks), true));
    run, steps := Extend(run, steps, OfDispose(StartDraining), Bare(Disposing, Busy(DrainingLeases), true));
    run, steps := Extend(run, steps, OfDispose(LeasesGone), Bare(Disposing, Busy(Cleaning(0, None)), true));
    run, steps := NoKindLeft(run, steps, 0);
  }

  lemma AimedAndAsked() returns (run: seq<World>, steps: seq<Step>)
    ensures Run(run, steps) && |steps| > 0 && steps[|steps| - 1] == OfDispose(Dispose(false, false))
    ensures run[|steps| - 1] == Bare(Disposing, Busy(Aimed(WaitingDependencies)), true)
    ensures run[|steps|] == Bare(Disposing, Busy(Aimed(WaitingDependencies)), false)
  {
    run, steps := NothingToClean();
    run, steps := Extend(run, steps, OfDispose(Aim), Bare(Disposing, Busy(Aimed(WaitingDependencies)), true));
    run, steps := Extend(run, steps, OfDispose(Dispose(false, false)), Bare(Disposing, Busy(Aimed(WaitingDependencies)), false));
  }

  /** A request for permanent disposal that comes after the body has read what was asked is lost: the
      disposal completes, the fiber waits for its dependencies, and it is started again. */
  lemma LateRequestIsLost() returns (run: seq<World>, steps: seq<Step>, i: nat, j: nat)
    ensures Run(run, steps) && i < j && j + 1 < |steps|
    ensures DisposesForGood(steps[i]) && run[i].fiber.generation == run[j].fiber.generation && run[i].fiber.status.Busy?
    ensures steps[j] == OfDispose(Finalize(false)) && run[j + 1].fiber.status == Complete && run[j + 1].fiber.state == WaitingDependencies
    ensures steps[j + 1] == OfLife(Start(2)) && run[j + 2].fiber.state == Starting && run[j + 2].fiber.status == Untouched
  {
    run, steps := AimedAndAsked();
    i := |steps| - 1;
    run, steps := Extend(run, steps, OfDispose(Reconciled), Bare(Disposing, Busy(Finalizing(Some(WaitingDependencies))), false));
    j := |steps|;
    run, steps := Extend(run, steps, OfDispose(Finalize(false)), Bare(WaitingDependencies, Complete, false));
    var w := run[|run| - 1];
    run, steps := Extend(run, steps, OfLife(Start(2)),
      w.(fiber := Fiber(Starting, false, 2, EMPTY, Untouched, true, false), gates := w.gates[2 := SimpleGate(Accepting, {})],
         activation := InStart));
  }

  // ---- Left alone ------------------------------------------------------------------------------------------

  /** These steps can be taken one after the other. */
  ghost predicate Path(path: seq<World>, steps: seq<Step>) {
    |path| == |steps| + 1 && forall i :: Linked(path, steps, i)
  }

  lemma Onward(path: seq<World>, steps: seq<Step>, a: Step, n: World) returns (longer: seq<World>, more: seq<Step>)
    requires Path(path, steps) && NextStep(path[|path| - 1], a, n)
    ensures longer == path + [n] && more == steps + [a] && Path(longer, more) && longer[|longer| - 1] == n
  {
    longer, more := path + [n], steps + [a];
    forall i: nat ensures Linked(longer, more, i) {
      assert Linked(path, steps, i);
      if i < |steps| { assert longer[i] == path[i] && longer[i + 1] == path[i + 1] && more[i] == steps[i]; }
    }
  }

  /** What an operation leaves behind that has registered something. */
  function Registered(w: World, kind: nat): World
    requires kind < KINDS
  {
    var r := Resource(w.history.next, w.fiber.generation);
    w.(fiber := w.fiber.(owned := Push(w.fiber.owned, kind, r)),
       history := w.history.(registered := Push(w.history.registered, kind, r), next := w.history.next + 1))
  }

  /** An operation through a current context of an instance that still admits, left alone, registers what it
      has to register exactly if the instance may register and is not sealed, and the registries do not
      refuse; whether or not, it leaves no lease behind and changes nothing else. */
  lemma OperationAlone(w: World, t: Tid, kind: nat, refused: bool) returns (path: seq<World>, steps: seq<Step>)
    requires Inv(w) && t in w.threads && w.threads[t] == Outside && kind < KINDS
    requires w.gates[w.fiber.generation].state == Accepting
    ensures Path(path, steps) && path[0] == w && (forall a <- steps :: a.OfOp? && a.t == t)
    ensures path[|path| - 1] == if Mutable(w.fiber.state) && !w.fiber.sealed && !refused then Registered(w, kind) else w
  {
    var g, admitted := w.fiber.generation, Mutable(w.fiber.state);
    assert w.gates[g].leases == Holders(w.threads, g) && t !in w.gates[g].leases;
    var looked := At(w, t, Looked(g, admitted));
    path, steps := Onward([w], [], OfOp(t, Look(g)), looked);
    var entered := At(looked, t, if admitted then Inside(g) else Leaving(g))
                   .(gates := w.gates[g := w.gates[g].(leases := w.gates[g].leases + {t})]);
    path, steps := Onward(path, steps, OfOp(t, Enter), entered);
    var last := entered;
    if admitted {
      last := At(if w.fiber.sealed || refused then entered else Registered(entered, kind), t, Leaving(g));
      path, steps := Onward(path, steps, OfOp(t, Append(kind, refused)), last);
    }
    path, steps := LeaveAlone(w, path, steps, t, last);
  }

  lemma LeaveAlone(w: World, path: seq<World>, steps: seq<Step>, t: Tid, last: World) returns (longer: seq<World>, more: seq<Step>)
    requires Path(path, steps) && path[|path| - 1] == last && (forall a <- steps :: a.OfOp? && a.t == t)
    requires var g := w.fiber.generation;
             && g in w.gates && t in w.threads && w.threads[t] == Outside
             && w.gates[g].state == Accepting && t !in w.gates[g].leases
             && last.threads == w.threads[t := Leaving(g)] && last.gates == w.gates[g := w.gates[g].(leases := w.gates[g].leases + {t})]
    ensures Path(longer, more) && longer[0] == path[0] && (forall a <- more :: a.OfOp? && a.t == t)
    ensures longer[|longer| - 1] == last.(threads := w.threads, gates := w.gates)
  {
    var g := w.fiber.generation;
    var n := At(last, t, Outside).(gates := last.gates[g := Release(last.gates[g], t)]);
    longer, more := Onward(path, steps, OfOp(t, Leave), n);
    assert w.gates[g].leases + {t} - {t} == w.gates[g].leases;
    assert n.gates == w.gates && n.threads == w.threads;
  }

  /** An activation that is left alone makes the instance active and open, and changes nothing else: not if
      it is the first, and if it starts an instance again whose disposal is complete, it begins a
      generation of its own with a gate that accepts and owns nothing yet. */
  lemma ActivationAlone(w: World, fresher: Generation) returns (path: seq<World>, steps: seq<Step>)
    requires Inv(w) && w.activation == NoActivation && (w.fiber.state == Created || w.fiber.state == WaitingDependencies)
    requires fresher !in w.gates
    ensures Path(path, steps) && path[0] == w
    ensures var n := path[|path| - 1];
            if w.fiber.status == Complete then
              && n.fiber == Fiber(Active, false, fresher, EMPTY, Untouched, true, false)
              && n.gates == w.gates[fresher := SimpleGate(Accepting, {})] && n.threads == w.threads && n.activation == NoActivation
              && n.history == History(EMPTY, EMPTY, w.history.next)
            else n == w.(fiber := w.fiber.(state := Active, sealed := false))
  {
    var f := w.fiber;
    NothingOwned(w);
    var started := if f.state == WaitingDependencies && f.status == Complete then
                     w.(fiber := Fiber(Starting, false, fresher, EMPTY, Untouched, true, false),
                        gates := w.gates[fresher := SimpleGate(Accepting, {})], activation := InStart,
                        history := History(EMPTY, EMPTY, w.history.next))
                   else w.(fiber := f.(state := Starting, sealed := false), activation := InStart);
    path, steps := Onward([w], [], OfLife(Start(fresher)), started);
    var closed := started.(fiber := started.fiber.(sealed := true), activation := SealedStart);
    path, steps := Onward(path, steps, OfLife(Seal), closed);
    path, steps := Onward(path, steps, OfLife(Commit),
                          closed.(fiber := closed.fiber.(state := Active, sealed := false), activation := NoActivation));
  }

  lemma NothingOwned(w: World)
    requires Inv(w)
    ensures w.fiber.status == Complete ==> w.fiber.owned == EMPTY
  {
  }

  /** The record of an adopted plugin is open: its next operation, left alone, registers. */
  lemma AdoptedRegisters(w: World, t: Tid, kind: nat) returns (path: seq<World>, steps: seq<Step>)
    requires Inv(w) && w.fiber.state == Active && w.gates[w.fiber.generation].state == Accepting
    requires t in w.threads && w.threads[t] == Outside && kind < KINDS
    ensures Path(path, steps) && NextStep(w, OfLife(Adopted), path[0]) && (forall a <- steps :: a.OfOp? && a.t == t)
    ensures path[|path| - 1].fiber.owned == Push(w.fiber.owned, kind, Resource(w.history.next, w.fiber.generation))
  {
    var open := w.(fiber := w.fiber.(sealed := false));
    NextInv(w, OfLife(Adopted), open);
    path, steps := OperationAlone(open, t, kind, false);
  }

  /** One that fails leaves the instance failed and sealed. */
  lemma FailureAlone(w: World, fresher: Generation) returns (path: seq<World>, steps: seq<Step>)
    requires Inv(w) && w.activation == NoActivation && w.fiber.state == Created && fresher !in w.gates
    ensures Path(path, steps) && path[0] == w
    ensures path[|path| - 1] == w.(fiber := w.fiber.(state := Failed, sealed := true))
  {
    var started := w.(fiber := w.fiber.(state := Starting, sealed := false), activation := InStart);
    path, steps := Onward([w], [], OfLife(Start(fresher)), started);
    path, steps := Onward(path, steps, OfLife(Fail),
                          started.(fiber := started.fiber.(state := Failed, sealed := true), activation := NoActivation));
  }

  /** The state changes only along the transitions, except that a staged activation writes Active over
      whatever is there. */
  lemma StatesFollowTransitions(run: seq<World>, steps: seq<Step>, i: nat)
    requires Run(run, steps) && i < |steps| && steps[i] != OfLife(CommitStaged)
    ensures run[i + 1].fiber.state == run[i].fiber.state || CanTransition(run[i].fiber.state, run[i + 1].fiber.state)
  {
    assert Linked(run, steps, i);
    RunInv(run, steps, i);
    match steps[i] {
      case OfOp(t, o) => OpLeavesFiber(run[i], t, o, run[i + 1]);
      case OfLife(l) =>
      case OfDispose(d) =>
    }
  }

  // ---- The pop loops end -----------------------------------------------------------------------------------

  function Total(lists: Lists): nat {
    |lists[0]| + |lists[1]| + |lists[2]| + |lists[3]| + |lists[4]| + |lists[5]|
  }

  /** What is left to do of a cleanup. */
  function Left(w: World): int {
    if w.fiber.status.Busy? && w.fiber.status.worker.Cleaning? then
      var k, holding := w.fiber.status.worker.kind, w.fiber.status.worker.holding;
      2 * Total(w.fiber.owned) + (KINDS - k) + (if holding == None then 0 else if k == CHILD then -1 else 1)
    else 0
  }

  lemma TakeShrinks(w: World, n: World)
    requires NextDispose(w, Take, n)
    ensures Left(n) == Left(w) - 1
  {
  }

  lemma FinishShrinks(w: World, n: World)
    requires ListsInv(w) && NextDispose(w, Finish, n)
    ensures Left(n) == Left(w) - 1
  {
    if w.fiber.status.worker.kind == CHILD {
      assert Increasing(w.history.registered[CHILD], w.history.next);
      OwnedIncreasing(w.fiber.owned[CHILD], w.history.registered[CHILD], w.history.cleaned[CHILD], w.history.next);
      WithoutLast(w.fiber.owned[CHILD], w.history.next);
    }
  }

  lemma LeftIsPositive(w: World)
    requires ListsInv(w)
    ensures if w.fiber.status.Busy? && w.fiber.status.worker.Cleaning? then Left(w) > 0 else Left(w) == 0
  {
    if w.fiber.status.Busy? && w.fiber.status.worker.Cleaning? {
      var k, holding := w.fiber.status.worker.kind, w.fiber.status.worker.holding;
      assert CleaningOk(w, k, holding);
      if holding.Some? && k == CHILD { assert |w.fiber.owned[0]| > 0; }
    }
  }

  lemma CleaningLives(w: World, a: LifeStep, n: World)
    requires NextLife(w, a, n) && w.fiber.status.Busy? && w.fiber.status.worker.Cleaning?
    ensures n.fiber.owned == w.fiber.owned && n.fiber.status == w.fiber.status
  {
  }

  lemma IdleStepsLeave(w: World, a: Step, n: World)
    requires Inv(w) && NextStep(w, a, n) && w.fiber.status.Busy? && w.fiber.status.worker.Cleaning? && !a.OfDispose?
    ensures Left(n) == Left(w)
  {
    match a {
      case OfOp(t, o) => PastDrainNoLease(w); OpOwnsNoMore(w, t, o, n);
      case OfLife(l) => CleaningLives(w, l, n);
    }
  }

  lemma RestLeaves(w: World, a: DisposeStep, n: World)
    requires NextDispose(w, a, n) && w.fiber.status.Busy? && w.fiber.status.worker.Cleaning? && a != Take && a != Finish && Left(w) > 0
    ensures Left(n) <= Left(w) && (a == NextKind ==> Left(n) < Left(w))
  {
    assert n.fiber.owned == w.fiber.owned;
  }

  /** Every step of the cleanup leaves less to do, and no other step more. */
  lemma CleanupShrinks(w: World, a: Step, n: World)
    requires Inv(w) && NextStep(w, a, n) && w.fiber.status.Busy? && w.fiber.status.worker.Cleaning?
    ensures Left(w) > 0 && 0 <= Left(n) <= Left(w)
    ensures CleansUp(a) || a == OfDispose(NextKind) ==> Left(n) < Left(w)
  {
    NextInv(w, a, n);
    LeftIsPositive(w);
    LeftIsPositive(n);
    if !a.OfDispose? {
      IdleStepsLeave(w, a, n);
    } else if a.d == Take {
      TakeShrinks(w, n);
    } else if a.d == Finish {
      FinishShrinks(w, n);
    } else {
      RestLeaves(w, a.d, n);
    }
  }

  /** And while there is anything left some step of it can be taken. */
  lemma CleanupCanGoOn(w: World) returns (a: DisposeStep, n: World)
    requires Inv(w) && w.fiber.status.Busy? && w.fiber.status.worker.Cleaning?
    ensures NextDispose(w, a, n) && (a == Take || a == Finish || a == NextKind)
  {
    var f := w.fiber;
    var k, holding := f.status.worker.kind, f.status.worker.holding;
    assert CleaningOk(w, k, holding);
    if holding.Some? {
      a := Finish;
      var v := if k == CHILD then w.(fiber := f.(owned := f.owned[k := Without(f.owned[k], holding.value)])) else w;
      n := Works(v, Cleaning(k, None)).(history := w.history.(cleaned := Push(w.history.cleaned, k, holding.value)));
    } else if f.owned[k] == [] {
      a := NextKind;
      n := Works(w, if k + 1 < KINDS then Cleaning(k + 1, None) else Reconciling);
    } else {
      a := Take;
      var last := f.owned[k][|f.owned[k]| - 1];
      n := Works(if k == CHILD then w else w.(fiber := f.(owned := f.owned[k := f.owned[k][..|f.owned[k]| - 1]])), Cleaning(k, Some(last)));
    }
  }
}
