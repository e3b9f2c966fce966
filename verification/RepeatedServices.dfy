/** A staged plugin whose list names a service twice.  The registration of a service checks that nothing
    is there and inserts in two sections; another provider that has checked in between inserts over it.
    Once that one has withdrawn, the staged plugin can register the same service again, and the reload
    ends in a panic when it moves it for the second time. */
module RepeatedServices {
  import opened Wrappers
  import opened CapabilityGate
  import opened FiberStates
  import opened Sequences
  import opened ServiceRegistry
  import opened DependencyGraph
  import opened Scopes
  import opened Invocation
  import opened Reload
  import opened ReloadProtocol
  import opened ReloadRefinement
  import opened ReloadRuns

  // ---- Nobody interferes, no panic --------------------------------------------------------------------

  /** Each service is listed once, and there. */
  predicate ServicesKept(x: Whole, s: Swap)
    requires Present(x, s)
  {
    var f := x.fibers[s.staged];
    Distinct(f.provided) && forall symbol <- f.provided :: OwnedAt(x.services.entries, s.staged, Key(s.staging, symbol))
  }

  predicate KeptIfAlive(x: Whole, s: Swap) {
    Present(x, s) && (Alive(x, s) ==> ServicesKept(x, s))
  }

  /** Somebody else overwrites or withdraws a service of the staged plugin. */
  predicate TakenAway(w: World, s: Swap, a: Step, n: World) {
    a.Others? && exists key <- w.now.services.entries ::
      OwnedAt(w.now.services.entries, s.staged, key) && !OwnedAt(n.now.services.entries, s.staged, key)
  }

  /** The services have not been moved yet. */
  predicate StillStaged(pc: Pc) {
    !Over(pc) && !pc.ServicesOver?
  }

  lemma SameKept(x: Whole, s: Swap, y: Whole)
    requires KeptIfAlive(x, s) && Present(y, s) && x.retired <= y.retired && y.services.entries == x.services.entries
    requires var f, g := x.fibers[s.staged], y.fibers[s.staged]; g.gate == f.gate && g.provided == f.provided
    ensures KeptIfAlive(y, s)
  {
  }

  lemma MoveLeavesServices(w: World, s: Swap, r: ReloadStep, n: World)
    requires NextMove(w, s, r, n)
    ensures n.now.fibers == w.now.fibers && n.now.services == w.now.services && n.now.retired == w.now.retired
  {
  }

  lemma ReloadKept(w: World, s: Swap, r: ReloadStep, n: World)
    requires NextReload(w, s, r, n) && KeptIfAlive(w.now, s) && StillStaged(n.pc)
    ensures KeptIfAlive(n.now, s)
  {
    if NextCheck(w, s, r, n) {
      CheckFrame(w, s, r, n);
    } else if NextMove(w, s, r, n) {
      MoveLeavesServices(w, s, r, n);
    } else {
      assert n.now.fibers == w.now.fibers && n.now.services == w.now.services && w.now.retired <= n.now.retired;
    }
    SameKept(w.now, s, n.now);
  }

  lemma InsertKept(w: World, s: Swap, t: Tid, n: World)
    requires Inv(w, s) && NextPlugin(w, s, Insert(t), n) && KeptIfAlive(w.now, s) && StillStaged(w.pc)
    ensures KeptIfAlive(n.now, s)
  {
    var p, f := w.ops[t], w.now.fibers[s.staged];
    if Alive(w.now, s) {
      assert p.scope == s.staging && p.symbol !in f.provided;
      assert n.now.fibers[s.staged].provided == f.provided + [p.symbol];
    }
  }

  lemma PluginKept(w: World, s: Swap, p: PluginStep, n: World)
    requires Inv(w, s) && NextPlugin(w, s, p, n) && KeptIfAlive(w.now, s) && StillStaged(w.pc)
    ensures KeptIfAlive(n.now, s)
  {
    match p {
      case Insert(t) => InsertKept(w, s, t, n);
      case Append(t, what, refused) =>
        if !refused && Registers(w.now, s, w.ops[t].scope, what) { EnlistFrame(w.now, s, w.ops[t].scope, what); }
        SameKept(w.now, s, n.now);
      case _ => SameKept(w.now, s, n.now);
    }
  }

  lemma OthersKept(w: World, s: Swap, y: Whole, n: World)
    requires NextOthers(w, s, y, n) && KeptIfAlive(w.now, s) && !TakenAway(w, s, Others(y), n)
    ensures KeptIfAlive(n.now, s)
  {
    if Alive(w.now, s) {
      forall symbol | symbol in w.now.fibers[s.staged].provided ensures OwnedAt(y.services.entries, s.staged, Key(s.staging, symbol)) {
        assert OwnedAt(w.now.services.entries, s.staged, Key(s.staging, symbol));
      }
    }
  }

  lemma StagedBefore(w: World, s: Swap, a: Step, n: World)
    requires Next(w, s, a, n) && StillStaged(n.pc)
    ensures StillStaged(w.pc)
  {
    WonStep(w, s, a, n);
  }

  lemma KeptStep(w: World, s: Swap, a: Step, n: World)
    requires Inv(w, s) && Next(w, s, a, n) && KeptIfAlive(w.now, s) && StillStaged(n.pc) && !TakenAway(w, s, a, n)
    ensures KeptIfAlive(n.now, s)
  {
    StagedBefore(w, s, a, n);
    match a {
      case OfReload(r) => ReloadKept(w, s, r, n);
      case OfPlugin(p) => PluginKept(w, s, p, n);
      case Others(y) => OthersKept(w, s, y, n);
    }
  }

  ghost predicate NothingTaken(run: seq<World>, steps: seq<Step>, s: Swap, i: nat)
    requires |run| == |steps| + 1
  {
    forall j :: 0 <= j < i && j < |steps| ==> !TakenAway(run[j], s, steps[j], run[j + 1])
  }

  lemma KeptStepAt(run: seq<World>, steps: seq<Step>, s: Swap, j: nat)
    requires Run(run, steps, s) && j < |steps| && StillStaged(run[j + 1].pc) && !TakenAway(run[j], s, steps[j], run[j + 1])
    ensures StillStaged(run[j].pc) && (KeptIfAlive(run[j].now, s) ==> KeptIfAlive(run[j + 1].now, s))
  {
    assert Linked(run, steps, s, j);
    StagedBefore(run[j], s, steps[j], run[j + 1]);
    RunInv(run, steps, s, j);
    if KeptIfAlive(run[j].now, s) { KeptStep(run[j], s, steps[j], run[j + 1]); }
  }

  lemma {:induction false} RunKept(run: seq<World>, steps: seq<Step>, s: Swap, i: nat)
    requires Run(run, steps, s) && i < |run| && StillStaged(run[i].pc) && NothingTaken(run, steps, s, i)
    ensures KeptIfAlive(run[i].now, s)
  {
    if i > 0 {
      KeptStepAt(run, steps, s, i - 1);
      RunKept(run, steps, s, i - 1);
    }
  }

  lemma PanicStep(w: World, s: Swap, a: Step, n: World)
    requires Next(w, s, a, n) && n.pc.Panicked? && !w.pc.Panicked?
    ensures w.pc.OldFenced? && !Distinct(w.incoming.provided)
  {
    if a.OfReload? {
      if NextCheck(w, s, a.r, n) { LosesNothing(w, s, a.r, n); }
      else if NextMove(w, s, a.r, n) { WinsNothing(w, s, a.r, n); }
    }
  }

  lemma PanicStepAt(run: seq<World>, steps: seq<Step>, s: Swap, j: nat)
    requires Run(run, steps, s) && j < |steps| && run[j + 1].pc.Panicked? && !run[j].pc.Panicked?
    ensures run[j].pc.OldFenced? && !Distinct(run[j].incoming.provided)
  {
    assert Linked(run, steps, s, j);
    PanicStep(run[j], s, steps[j], run[j + 1]);
  }

  lemma StartsQuietly(run: seq<World>, steps: seq<Step>, s: Swap)
    requires Run(run, steps, s)
    ensures run[0].pc.Begun?
  {
  }

  lemma {:induction false} PanickedAt(run: seq<World>, steps: seq<Step>, s: Swap, i: nat) returns (j: nat)
    requires Run(run, steps, s) && i < |run| && run[i].pc.Panicked?
    ensures j < i && run[j].pc.OldFenced? && !Distinct(run[j].incoming.provided)
  {
    StartsQuietly(run, steps, s);
    j := i - 1;
    if run[i - 1].pc.Panicked? {
      j := PanickedAt(run, steps, s, i - 1);
    } else {
      PanicStepAt(run, steps, s, i - 1);
    }
  }

  /** In every run, the transaction panics only if somebody has taken a service away from the staged plugin
      before. */
  lemma PanicsOnlyIfTaken(run: seq<World>, steps: seq<Step>, s: Swap, i: nat)
    requires Run(run, steps, s) && i < |run| && run[i].pc.Panicked?
    ensures exists j :: 0 <= j < i && TakenAway(run[j], s, steps[j], run[j + 1])
  {
    var j := PanickedAt(run, steps, s, i);
    if NothingTaken(run, steps, s, j) {
      RunKept(run, steps, s, j);
      RunInv(run, steps, s, j);
      assert false;
    }
  }

  /** When the services are moved, all of them can be, one by one; and as long as nobody has taken one
      away, none is listed twice, so that none can be missing. */
  lemma NothingMissingAtCommit(run: seq<World>, steps: seq<Step>, s: Swap, i: nat)
    requires Run(run, steps, s) && i < |run| && ServicesPending(run[i].pc)
    ensures AllMovable(run[i].now.services.entries, ServicesOf(s, run[i].incoming))
    ensures NothingTaken(run, steps, s, i) ==> Distinct(run[i].incoming.provided)
  {
    RunInv(run, steps, s, i);
    if NothingTaken(run, steps, s, i) { RunKept(run, steps, s, i); }
  }

  // ---- A run that panics --------------------------------------------------------------------------------

  lemma OthersMayServe(f: Fiber, st: State, tt: State)
    requires f == Incoming().(provided := f.provided) && TheirServices(st, SWAP.staged, tt)
    ensures TheirMove(Small(f, st), SWAP, Small(f, tt))
  {
  }

  /** Another provider, which has checked before, inserts over the service, and withdraws it. */
  lemma OverwrittenAndWithdrawn(run: seq<World>, steps: seq<Step>) returns (longer: seq<World>, more: seq<Step>)
    requires Run(run, steps, SWAP)
    requires run[|run| - 1] == Cold().(now := Small(Incoming().(provided := [SERVICE]), Serving(3, 1)))
    ensures Run(longer, more, SWAP) && run <= longer && steps <= more
    ensures longer[|longer| - 1] == Cold().(now := Small(Incoming().(provided := [SERVICE]), State(map[], 3, map[], [])))
  {
    var f, over := Incoming().(provided := [SERVICE]), State(map[Key(1, SERVICE) := Entry(3, 1, 9, Gate(3, 3))], 2, map[], []);
    var none := State(map[], 3, map[], []);
    longer, more := TheyServe(run, steps, f, Serving(3, 1), over);
    longer, more := TheyServe(longer, more, f, over, none);
  }

  lemma TheyServe(run: seq<World>, steps: seq<Step>, f: Fiber, st: State, tt: State) returns (longer: seq<World>, more: seq<Step>)
    requires Run(run, steps, SWAP) && f == Incoming().(provided := f.provided) && TheirServices(st, SWAP.staged, tt)
    requires run[|run| - 1] == Cold().(now := Small(f, st))
    ensures Run(longer, more, SWAP) && run <= longer && steps <= more && longer[|longer| - 1] == Cold().(now := Small(f, tt))
  {
    OthersMayServe(f, st, tt);
    longer, more := Extend(run, steps, SWAP, Others(Small(f, tt)), Cold().(now := Small(f, tt)));
  }

  function Twice(): Fiber {
    Launched(Incoming().(provided := [SERVICE, SERVICE]))
  }

  lemma TakenOnce() returns (run: seq<World>, steps: seq<Step>)
    ensures Run(run, steps, SWAP)
    ensures run[|run| - 1] == Cold().(now := Small(Incoming().(provided := [SERVICE]), State(map[], 3, map[], [])))
  {
    ColdStart();
    run, steps := Register([Cold()], [], Incoming(), 0, 3);
    assert Incoming().provided + [SERVICE] == [SERVICE];
    run, steps := OverwrittenAndWithdrawn(run, steps);
  }

  lemma RegisteredTwice() returns (run: seq<World>, steps: seq<Step>)
    ensures Run(run, steps, SWAP) && run[|run| - 1] == Cold().(now := Small(Twice(), Serving(4, 4)), stage := Started)
  {
    var once := Incoming().(provided := [SERVICE]);
    run, steps := TakenOnce();
    run, steps := Register(run, steps, once, 3, 4);
    assert once.provided + [SERVICE] == [SERVICE, SERVICE];
    run, steps := Launch(run, steps, once.(provided := [SERVICE, SERVICE]), Serving(4, 4), Cold().ops);
  }

  /** And it can come to that: the new generation is shown and the old one fenced, the service is nowhere,
      and the staged plugin is not adopted. */
  lemma SecondRegistrationPanics() returns (run: seq<World>, steps: seq<Step>)
    ensures Run(run, steps, SWAP) && run[|run| - 1].pc.Panicked?
    ensures var x := run[|run| - 1].now;
            && Present(x, SWAP) && x.services.entries == map[] && OldGate(x, SWAP) in x.draining && !Visible(x.active, OldGate(x, SWAP))
            && x.fibers[SWAP.staged].scope == SWAP.staging
  {
    run, steps := RegisteredTwice();
    SmallCommits(Twice(), Serving(4, 4), 4);
    run, steps := UpToServices(run, steps, SWAP);
    OldIsHidden(run, steps);
    run, steps := Panics(run, steps);
  }

  lemma OldIsHidden(run: seq<World>, steps: seq<Step>)
    requires Run(run, steps, SWAP) && run[|run| - 1].pc.OldFenced?
    ensures var x := run[|run| - 1].now; Present(x, SWAP) && !Visible(x.active, OldGate(x, SWAP)) && x.fibers[2].scope == 1
  {
    RunInv(run, steps, SWAP, |run| - 1);
    ShownWhenInPlace(run[|run| - 1], SWAP);
  }

  lemma Panics(run: seq<World>, steps: seq<Step>) returns (longer: seq<World>, more: seq<Step>)
    requires Run(run, steps, SWAP) && run[|run| - 1].pc.OldFenced? && run[|run| - 1].incoming == Twice()
    requires Present(run[|run| - 1].now, SWAP) && run[|run| - 1].now.services == Serving(4, 4)
    ensures Run(longer, more, SWAP) && longer[|longer| - 1].pc.Panicked?
    ensures var w, n := run[|run| - 1], longer[|longer| - 1];
            n.now == w.now.(services := n.now.services) && n.now.services.entries == map[]
  {
    var w := run[|run| - 1];
    var p := ServicesOf(SWAP, w.incoming);
    assert p.symbols[0] == p.symbols[1] && p.symbols[..1] == [SERVICE];
    var n := w.(pc := Pc.Panicked, now := w.now.(services := HalfTaken(w.now.services, p)));
    assert Fresh(p.symbols) == 1;
    longer, more := Extend(run, steps, SWAP, OfReload(CommitServices), n);
  }
}
