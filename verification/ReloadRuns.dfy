/** Runs of the hot reload that are possible: what can follow a state of any run, and a small program to
    begin with. */
module ReloadRuns {
  import opened Wrappers
  import opened CapabilityGate
  import opened FiberStates
  import opened Sequences
  import opened ServiceRegistry
  import opened DependencyGraph
  import opened Scopes
  import opened Invocation
  import opened Reload
  import opened ReloadProtocol
  import opened ReloadRefinement

  // ---- One step more -----------------------------------------------------------------------------------

  lemma Extend(run: seq<World>, steps: seq<Step>, s: Swap, a: Step, n: World) returns (longer: seq<World>, more: seq<Step>)
    requires Run(run, steps, s) && Next(run[|run| - 1], s, a, n)
    ensures longer == run + [n] && more == steps + [a] && Run(longer, more, s) && longer[|longer| - 1] == n
  {
    longer, more := run + [n], steps + [a];
    forall i: nat ensures Linked(longer, more, s, i) {
      assert Linked(run, steps, s, i);
      if i < |steps| { assert longer[i] == run[i] && longer[i + 1] == run[i + 1] && more[i] == steps[i]; }
    }
  }

  // ---- The transaction undisturbed -----------------------------------------------------------------------

  lemma ReadRecords(run: seq<World>, steps: seq<Step>, s: Swap) returns (longer: seq<World>, more: seq<Step>)
    requires Run(run, steps, s) && run[|run| - 1].pc.Begun? && Commits(run[|run| - 1].now, s) && NobodyProvides(run[|run| - 1])
    ensures Run(longer, more, s) && run <= longer && steps <= more
    ensures var w := run[|run| - 1];
            longer[|longer| - 1] == w.(pc := OldRead, incoming := w.now.fibers[s.staged], outgoing := w.now.fibers[s.replaced])
  {
    var w := run[|run| - 1];
    var w1 := w.(pc := StateChecked);
    longer, more := Extend(run, steps, s, OfReload(CheckState(true)), w1);
    var w2 := w1.(pc := RecordRead, incoming := w.now.fibers[s.staged]);
    longer, more := Extend(longer, more, s, OfReload(ReadRecord), w2);
    longer, more := Extend(longer, more, s, OfReload(ReadOld), w2.(pc := OldRead, outgoing := w.now.fibers[s.replaced]));
  }

  lemma PassChecks(run: seq<World>, steps: seq<Step>, s: Swap) returns (longer: seq<World>, more: seq<Step>)
    requires Run(run, steps, s) && run[|run| - 1].pc.OldRead? && Commits(run[|run| - 1].now, s) && NobodyProvides(run[|run| - 1])
    requires var w := run[|run| - 1]; w.incoming == w.now.fibers[s.staged] && w.outgoing == w.now.fibers[s.replaced]
    ensures Run(longer, more, s) && run <= longer && steps <= more && longer[|longer| - 1] == run[|run| - 1].(pc := Holding)
  {
    var w := run[|run| - 1];
    longer, more := Extend(run, steps, s, OfReload(CheckHandlers), w.(pc := HandlersValid));
    longer, more := Extend(longer, more, s, OfReload(LookAtTargets(false)), w.(pc := TargetsLookedAt));
    longer, more := Extend(longer, more, s, OfReload(CheckServices), w.(pc := ServicesValid));
    longer, more := PassScopes(longer, more, s);
  }

  lemma PassScopes(run: seq<World>, steps: seq<Step>, s: Swap) returns (longer: seq<World>, more: seq<Step>)
    requires Run(run, steps, s) && run[|run| - 1].pc.ServicesValid? && Commits(run[|run| - 1].now, s) && NobodyProvides(run[|run| - 1])
    requires run[|run| - 1].incoming == run[|run| - 1].now.fibers[s.staged]
    ensures Run(longer, more, s) && run <= longer && steps <= more && longer[|longer| - 1] == run[|run| - 1].(pc := Holding)
  {
    var w := run[|run| - 1];
    assert ScopePrepared(w.now.arena, MoveOf(s, w.incoming));
    longer, more := Extend(run, steps, s, OfReload(CheckScopes), w.(pc := ScopesValid));
    longer, more := Extend(longer, more, s, OfReload(TakeRecord), w.(pc := Holding));
  }

  lemma MoveTopology(run: seq<World>, steps: seq<Step>, s: Swap) returns (longer: seq<World>, more: seq<Step>)
    requires Run(run, steps, s) && run[|run| - 1].pc.Holding? && Commits(run[|run| - 1].now, s)
    requires run[|run| - 1].incoming == run[|run| - 1].now.fibers[s.staged]
    ensures Run(longer, more, s) && run <= longer && steps <= more
    ensures var w, n := run[|run| - 1], longer[|longer| - 1];
            n == w.(pc := ScopesOver, before := w.now.arena, now := w.now.(declared := n.now.declared, arena := n.now.arena))
  {
    var w := run[|run| - 1];
    var x, i := w.now, w.incoming;
    var x1 := x.(declared := MoveAll(x.declared, s.staging, s.target, i.provisions, s.staged));
    longer, more := Extend(run, steps, s, OfReload(CommitProviders), w.(pc := ProvidersOver, now := x1));
    var x2 := x1.(arena := ScopesMoved(x.arena, MoveOf(s, i)));
    longer, more := Extend(longer, more, s, OfReload(CommitScopes), w.(pc := ScopesOver, before := x.arena, now := x2));
  }

  lemma MoveOver(run: seq<World>, steps: seq<Step>, s: Swap) returns (longer: seq<World>, more: seq<Step>)
    requires Run(run, steps, s) && run[|run| - 1].pc.Holding? && Commits(run[|run| - 1].now, s)
    requires run[|run| - 1].incoming == run[|run| - 1].now.fibers[s.staged]
    ensures Run(longer, more, s) && run <= longer && steps <= more
    ensures var w, n := run[|run| - 1], longer[|longer| - 1];
            && n.pc.Publishing? && n.ops == w.ops && n.incoming == w.incoming
            && n.now == w.now.(declared := n.now.declared, arena := n.now.arena, entries := EntriesAt(w.now.entries, w.incoming, s.target))
  {
    longer, more := MoveTopology(run, steps, s);
    var w := longer[|longer| - 1];
    var n := w.(pc := EntriesOver, now := w.now.(entries := EntriesAt(w.now.entries, w.incoming, s.target)));
    longer, more := Extend(longer, more, s, OfReload(CommitEntries), n);
    longer, more := Extend(longer, more, s, OfReload(LockServices), n.(pc := Publishing));
  }

  lemma CutAndFence(run: seq<World>, steps: seq<Step>, s: Swap) returns (longer: seq<World>, more: seq<Step>)
    requires Run(run, steps, s) && run[|run| - 1].pc.Publishing?
    requires var x := run[|run| - 1].now; Present(x, s) && s.staged != s.replaced && Visible(x.active, OldGate(x, s))
    ensures Run(longer, more, s) && run <= longer && steps <= more
    ensures var w, n := run[|run| - 1], longer[|longer| - 1];
            && n == w.(pc := OldFenced, now := n.now)
            && n.now == w.now.(active := n.now.active, retired := w.now.retired + {OldGate(w.now, s)}, draining := w.now.draining + {OldGate(w.now, s)})
  {
    var w := run[|run| - 1];
    var x, was := w.now, OldGate(w.now, s);
    var x1 := x.(active := Select(x.active, x.fibers[s.staged].gate));
    longer, more := Extend(run, steps, s, OfReload(Exchange), w.(pc := Cut, now := x1));
    var x2 := x1.(retired := x.retired + {was});
    longer, more := Extend(longer, more, s, OfReload(RetireOld), w.(pc := OldRetired, now := x2));
    var x3 := x2.(draining := x.draining + {was});
    longer, more := Extend(longer, more, s, OfReload(FenceOld), w.(pc := OldFenced, now := x3));
  }

  lemma FinishOver(run: seq<World>, steps: seq<Step>, s: Swap) returns (longer: seq<World>, more: seq<Step>)
    requires Run(run, steps, s) && run[|run| - 1].pc.OldFenced? && Present(run[|run| - 1].now, s)
    requires Distinct(run[|run| - 1].incoming.provided)
    ensures Run(longer, more, s) && run <= longer && steps <= more && |longer| >= 2
    ensures var w, n := run[|run| - 1], longer[|longer| - 1];
            && Done(n.pc) && !Done(longer[|longer| - 2].pc) && n.ops == w.ops
            && n.now.entries == w.now.entries && n.now.services == Republished(w.now.services, ServicesOf(s, w.incoming))
            && n.now.draining == w.now.draining && n.now.retired == w.now.retired
            && n.now.fibers == w.now.fibers[s.staged := Adopted(w.now.fibers[s.staged], s.target)]
  {
    var w := run[|run| - 1];
    var x := w.now.(services := Republished(w.now.services, ServicesOf(s, w.incoming)));
    longer, more := Extend(run, steps, s, OfReload(CommitServices), w.(pc := ServicesOver, now := x));
    var y := x.(fibers := x.fibers[s.staged := Adopted(x.fibers[s.staged], s.target)]);
    var n := w.(pc := Ended(Ok(())), now := y, released := Release(x.fibers[s.staged], w.released));
    longer, more := Extend(longer, more, s, OfReload(Adopt), n);
  }

  /** Undisturbed, the transaction gets as far as its services whenever it can: from any state of any run. */
  lemma UpToServices(run: seq<World>, steps: seq<Step>, s: Swap) returns (longer: seq<World>, more: seq<Step>)
    requires Run(run, steps, s) && run[|run| - 1].pc.Begun? && Commits(run[|run| - 1].now, s) && NobodyProvides(run[|run| - 1])
    ensures Run(longer, more, s) && run <= longer && steps <= more
    ensures var w, n := run[|run| - 1], longer[|longer| - 1];
            && n.pc.OldFenced? && n.ops == w.ops && n.incoming == w.now.fibers[s.staged] && n.now.fibers == w.now.fibers
            && n.now.services == w.now.services && n.now.entries == EntriesAt(w.now.entries, n.incoming, s.target)
            && n.now.draining == w.now.draining + {OldGate(w.now, s)} && n.now.retired == w.now.retired + {OldGate(w.now, s)}
  {
    RunInv(run, steps, s, |run| - 1);
    longer, more := ReadRecords(run, steps, s);
    longer, more := PassChecks(longer, more, s);
    longer, more := MoveOver(longer, more, s);
    longer, more := CutAndFence(longer, more, s);
  }

  /** And goes through if no service is listed twice. */
  lemma Undisturbed(run: seq<World>, steps: seq<Step>, s: Swap) returns (longer: seq<World>, more: seq<Step>)
    requires Run(run, steps, s) && run[|run| - 1].pc.Begun? && Commits(run[|run| - 1].now, s) && NobodyProvides(run[|run| - 1])
    requires Distinct(run[|run| - 1].now.fibers[s.staged].provided)
    ensures Run(longer, more, s) && run <= longer && steps <= more && |longer| >= 2
    ensures Done(longer[|longer| - 1].pc) && !Done(longer[|longer| - 2].pc)
    ensures var w, n, f := run[|run| - 1], longer[|longer| - 1], run[|run| - 1].now.fibers[s.staged];
            && n.ops == w.ops && n.now.fibers == w.now.fibers[s.staged := Adopted(f, s.target)]
            && n.now.entries == EntriesAt(w.now.entries, f, s.target) && n.now.services == Republished(w.now.services, ServicesOf(s, f))
            && n.now.draining == w.now.draining + {OldGate(w.now, s)} && n.now.retired == w.now.retired + {OldGate(w.now, s)}
  {
    longer, more := UpToServices(run, steps, s);
    longer, more := FinishOver(longer, more, s);
  }

  // ---- The staged plugin at work -------------------------------------------------------------------------

  /** A context of the staged plugin is admitted and registers a service. */
  lemma RegisterService(run: seq<World>, steps: seq<Step>, s: Swap, t: Tid, symbol: Symbol, value: Value) returns (longer: seq<World>, more: seq<Step>)
    requires Run(run, steps, s) && RecordFree(run[|run| - 1]) && Present(run[|run| - 1].now, s)
    requires var w := run[|run| - 1];
             var f := w.now.fibers[s.staged];
             t in w.ops && w.ops[t] == Outside && f.gate !in w.now.draining && MayProvide(w.now, s, f.scope, symbol)
    ensures Run(longer, more, s) && run <= longer && steps <= more
    ensures var w := run[|run| - 1];
            longer[|longer| - 1] == w.(now := Provided(w.now, s, w.now.fibers[s.staged].scope, symbol, value))
  {
    var w := run[|run| - 1];
    var scope := w.now.fibers[s.staged].scope;
    longer, more := Extend(run, steps, s, OfPlugin(Look(t)), w.(ops := w.ops[t := Looked(scope, true)]));
    longer, more := Extend(longer, more, s, OfPlugin(Enter(t)), w.(ops := w.ops[t := Inside(scope)]));
    longer, more := Extend(longer, more, s, OfPlugin(Provide(t, symbol, value)), w.(ops := w.ops[t := Providing(scope, symbol, value)]));
    assert w.ops[t := Providing(scope, symbol, value)][t := Outside] == w.ops;
    longer, more := Extend(longer, more, s, OfPlugin(Insert(t)), w.(now := Provided(w.now, s, scope, symbol, value)));
  }

  lemma BeAdmitted(run: seq<World>, steps: seq<Step>, s: Swap, t: Tid) returns (longer: seq<World>, more: seq<Step>)
    requires Run(run, steps, s) && RecordFree(run[|run| - 1]) && Present(run[|run| - 1].now, s)
    requires var w := run[|run| - 1];
             t in w.ops && w.ops[t] == Outside && StagedGate(w.now, s) !in w.now.draining && Mutable(w.now.fibers[s.staged].state)
    ensures Run(longer, more, s) && run <= longer && steps <= more
    ensures var w := run[|run| - 1]; longer[|longer| - 1] == w.(ops := w.ops[t := Inside(w.now.fibers[s.staged].scope)])
  {
    var w := run[|run| - 1];
    var scope := w.now.fibers[s.staged].scope;
    longer, more := Extend(run, steps, s, OfPlugin(Look(t)), w.(ops := w.ops[t := Looked(scope, true)]));
    longer, more := Extend(longer, more, s, OfPlugin(Enter(t)), w.(ops := w.ops[t := Inside(scope)]));
  }

  function Launched(f: Fiber): Fiber {
    f.(sealed := true, state := FiberState.Active)
  }

  lemma FinishStart(run: seq<World>, steps: seq<Step>, s: Swap) returns (longer: seq<World>, more: seq<Step>)
    requires Run(run, steps, s) && RecordFree(run[|run| - 1]) && Present(run[|run| - 1].now, s)
    requires var w := run[|run| - 1];
             var f := w.now.fibers[s.staged];
             w.stage == InStart && f.state == Starting && Elements(f.provisions) == Elements(f.provided)
    ensures Run(longer, more, s) && run <= longer && steps <= more
    ensures var w := run[|run| - 1]; longer[|longer| - 1] == WithFiber(w, s, Launched(w.now.fibers[s.staged])).(stage := Started)
  {
    var w := run[|run| - 1];
    var f := w.now.fibers[s.staged];
    var a := WithFiber(w, s, f.(sealed := true)).(stage := SealedStart);
    longer, more := Extend(run, steps, s, OfPlugin(Seal), a);
    assert a.now.fibers[s.staged := Launched(f)] == w.now.fibers[s.staged := Launched(f)];
    longer, more := Extend(longer, more, s, OfPlugin(GoActive), WithFiber(w, s, Launched(f)).(stage := Started));
  }

  // ---- A small program -----------------------------------------------------------------------------------

  /** Plugin 1 in the root is replaced by plugin 2, staged in scope 1; both provide service 7. */
  const SWAP: Swap := Swap(1, 2, 1, 0)
  const SERVICE: Symbol := 7

  function Outgoing(): Fiber {
    Fiber(Reloading, 0, Gate(0, 1), [], [], [], [], [], [], false, false, false, None)
  }

  function Incoming(): Fiber {
    Fiber(Starting, 1, Gate(0, 2), [], [SERVICE], [], [], [], [], true, true, false, None)
  }

  function Nested(): Arena {
    map[0 := Scope(None, [1], [1], ScopeState.Active), 1 := Scope(Some(0), [], [2], ScopeState.Active)]
  }

  function Small(f: Fiber, services: State): Whole {
    Whole(map[1 := Outgoing(), 2 := f], Nested(), map[Key(1, SERVICE) := [2]], Registrations([], []), services, map[0 := 1], {}, {})
  }

  function Cold(): World {
    World(Small(Incoming(), State(map[], 0, map[], [])), Begun, Incoming(), Outgoing(), map[], InStart, map[5 := Outside, 6 := Outside], [])
  }

  lemma ColdStart()
    ensures Run([Cold()], [], SWAP)
  {
    assert !Visible(map[0 := 1], Gate(0, 2));
  }

  function Entered(value: Value): Entry {
    Entry(2, 1, value, Gate(0, 2))
  }

  function Serving(value: Value, epoch: nat): State {
    State(map[Key(1, SERVICE) := Entered(value)], epoch, map[], [])
  }

  lemma SmallProvided(f: Fiber, epoch: nat, value: Value)
    requires f.gate == Gate(0, 2) && epoch + 1 < EPOCHS
    ensures Provided(Small(f, State(map[], epoch, map[], [])), SWAP, 1, SERVICE, value)
            == Small(f.(provided := f.provided + [SERVICE]), Serving(value, epoch + 1))
  {
    var x := Small(f, State(map[], epoch, map[], []));
    var y := Provided(x, SWAP, 1, SERVICE, value);
    assert y.services.entries == map[Key(1, SERVICE) := Entered(value)];
    assert y.fibers == map[1 := Outgoing(), 2 := f.(provided := f.provided + [SERVICE])];
  }

  /** The small program provides its service. */
  lemma Register(run: seq<World>, steps: seq<Step>, f: Fiber, epoch: nat, value: Value) returns (longer: seq<World>, more: seq<Step>)
    requires Run(run, steps, SWAP) && epoch + 1 < EPOCHS && f == Incoming().(provided := f.provided)
    requires run[|run| - 1] == Cold().(now := Small(f, State(map[], epoch, map[], [])))
    ensures Run(longer, more, SWAP) && run <= longer && steps <= more
    ensures longer[|longer| - 1] == Cold().(now := Small(f.(provided := f.provided + [SERVICE]), Serving(value, epoch + 1)))
  {
    assert run[|run| - 1].now.fibers[2] == f && run[|run| - 1].ops == map[5 := Outside, 6 := Outside];
    longer, more := RegisterService(run, steps, SWAP, 5, SERVICE, value);
    SmallProvided(f, epoch, value);
  }

  lemma SmallLaunched(w: World, f: Fiber, services: State)
    requires w.now == Small(f, services)
    ensures WithFiber(w, SWAP, Launched(f)).now == Small(Launched(f), services)
  {
    assert map[1 := Outgoing(), 2 := f][2 := Launched(f)] == map[1 := Outgoing(), 2 := Launched(f)];
  }

  lemma Launch(run: seq<World>, steps: seq<Step>, f: Fiber, services: State, ops: map<Tid, Op>) returns (longer: seq<World>, more: seq<Step>)
    requires Run(run, steps, SWAP) && f == Incoming().(provided := f.provided) && Elements(f.provided) == {SERVICE}
    requires run[|run| - 1] == Cold().(now := Small(f, services), ops := ops) && NobodyProvides(run[|run| - 1])
    ensures Run(longer, more, SWAP) && run <= longer && steps <= more
    ensures longer[|longer| - 1] == Cold().(now := Small(Launched(f), services), stage := Started, ops := ops)
  {
    SmallLaunched(run[|run| - 1], f, services);
    assert run[|run| - 1].now.fibers[2] == f && Elements(f.provisions) == {SERVICE};
    longer, more := FinishStart(run, steps, SWAP);
  }

  /** Once the service is registered and the start is through, all conditions of the reload are met, no
      matter how often the service is on the list. */
  lemma SmallCommits(f: Fiber, services: State, value: Value)
    requires f == Launched(Incoming().(provided := f.provided)) && forall symbol <- f.provided :: symbol == SERVICE
    requires services.entries == map[Key(1, SERVICE) := Entered(value)]
    ensures Commits(Small(f, services), SWAP)
  {
    var x := Small(f, services);
    assert multiset([2])[2] == 1 && multiset([1])[1] == 1;
    assert CanCommit(Nested(), ScopeRevision(1, 0, 2, 1, []));
    assert Prepared(x, SWAP);
    assert CanMove(x.declared, 1, 0, [SERVICE], 2);
  }
}
