/** What a hot reload leaves behind in the staging scope: nothing by itself, and what late operations of
    the staged plugin register there. */
module StagingLeftovers {
  import opened Wrappers
  import opened CapabilityGate
  import opened FiberStates
  import opened Sequences
  import opened ServiceRegistry
  import opened DependencyGraph
  import opened Scopes
  import opened Invocation
  import opened Reload
  import opened ReloadProtocol
  import opened ReloadRefinement
  import opened ReloadRuns

  // ---- What is left in staging --------------------------------------------------------------------------------

  predicate LeftService(x: Whole, s: Swap) {
    exists key <- x.services.entries :: key.scope == s.staging && x.services.entries[key].owner == s.staged
  }

  predicate LeftEntry(x: Whole, s: Swap)
    requires s.staged in x.fibers
  {
    || (exists h <- x.entries.handlers :: h.id in x.fibers[s.staged].invocationHandlers && h.scope == s.staging)
    || (exists m <- x.entries.middleware :: m.id in x.fibers[s.staged].invocationMiddleware && m.scope == s.staging)
  }

  predicate LeftScope(x: Whole, s: Swap)
    requires s.staged in x.fibers
  {
    exists c <- x.fibers[s.staged].childScopes :: c in x.arena && x.arena[c].parent == Some(s.staging)
  }

  /** Something of the adopted plugin is in the staging scope. */
  predicate LeftInStaging(x: Whole, s: Swap) {
    s.staged in x.fibers && (LeftService(x, s) || LeftEntry(x, s) || LeftScope(x, s))
  }

  /** After the transaction an operation registers in the staging scope. */
  predicate LateAppend(w: World, s: Swap, a: Step) {
    Done(w.pc) && a.OfPlugin? && Appends(w, s, a.p)
  }

  predicate Appends(w: World, s: Swap, p: PluginStep) {
    match p
    case Append(t, what, refused) =>
      !refused && t in w.ops && w.ops[t] == Inside(s.staging) && Registers(w.now, s, s.staging, what) && !what.Unplaced?
    case Insert(t) => t in w.ops && w.ops[t].Providing? && w.ops[t].scope == s.staging
    case _ => false
  }

  lemma AdoptLeavesNothing(w: World, s: Swap, n: World)
    requires Inv(w, s) && NextCut(w, s, Adopt, n)
    ensures !LeftInStaging(n.now, s) && Done(n.pc)
  {
    assert forall c <- w.incoming.childScopes :: c in w.now.arena && w.now.arena[c].parent == Some(s.target);
  }

  lemma EnlistedIsLeft(x: Whole, s: Swap, r: Resource)
    requires Present(x, s) && Fits(x, s, s.staging, r) && !r.Unplaced?
    ensures LeftInStaging(Enlisted(x, s, s.staging, r), s)
  {
    var f, y := x.fibers[s.staged], Enlisted(x, s, s.staging, r);
    var g := y.fibers[s.staged];
    match r {
      case AHandler(id, _) =>
        assert g.invocationHandlers[|f.invocationHandlers|] == id;
        assert y.entries.handlers[|x.entries.handlers|].id == id;
      case AMiddleware(id, _, _) =>
        assert g.invocationMiddleware[|f.invocationMiddleware|] == id;
        assert y.entries.middleware[|x.entries.middleware|].id == id;
      case AScope(id) =>
        assert g.childScopes[|f.childScopes|] == id;
        assert id in y.arena && y.arena[id].parent == Some(s.staging);
    }
  }

  lemma ProvidedIsLeft(x: Whole, s: Swap, symbol: Symbol, value: Value)
    requires Present(x, s)
    ensures LeftInStaging(Provided(x, s, s.staging, symbol, value), s)
  {
    assert Key(s.staging, symbol) in Provided(x, s, s.staging, symbol, value).services.entries;
  }

  lemma LateAppendLeaves(w: World, s: Swap, a: Step, n: World)
    requires Fixed(w, s) && LateAppend(w, s, a) && Next(w, s, a, n)
    ensures LeftInStaging(n.now, s)
  {
    match a.p {
      case Append(_, what, _) => EnlistedIsLeft(w.now, s, what);
      case Insert(t) => ProvidedIsLeft(w.now, s, w.ops[t].symbol, w.ops[t].value);
    }
  }

  lemma AppendElsewhere(x: Whole, s: Swap, scope: ScopeId, r: Resource)
    requires Present(x, s) && Fits(x, s, scope, r) && scope != s.staging && !LeftInStaging(x, s)
    ensures !LeftInStaging(Enlisted(x, s, scope, r), s)
  {
    match r {
      case AHandler(_, _) =>
      case AMiddleware(_, _, _) =>
      case AScope(_) =>
      case Unplaced =>
    }
  }

  lemma ProvideElsewhere(x: Whole, s: Swap, scope: ScopeId, symbol: Symbol, value: Value)
    requires Present(x, s) && scope != s.staging && !LeftInStaging(x, s)
    ensures !LeftInStaging(Provided(x, s, scope, symbol, value), s)
  {
  }

  lemma OthersLeaveNothing(x: Whole, s: Swap, y: Whole)
    requires TheirMove(x, s, y) && !LeftInStaging(x, s)
    ensures !LeftInStaging(y, s)
  {
    var f := x.fibers[s.staged];
    forall h | h in y.entries.handlers && h.id in y.fibers[s.staged].invocationHandlers ensures h in x.entries.handlers && h.id in f.invocationHandlers {
      assert OwnHandler(f, h);
    }
    forall m | m in y.entries.middleware && m.id in y.fibers[s.staged].invocationMiddleware
      ensures m in x.entries.middleware && m.id in f.invocationMiddleware
    {
      assert OwnMiddleware(f, m);
    }
  }

  lemma PluginLeavesNothing(w: World, s: Swap, a: PluginStep, n: World)
    requires Fixed(w, s) && NextPlugin(w, s, a, n) && !LeftInStaging(w.now, s) && !LateAppend(w, s, OfPlugin(a)) && Done(w.pc)
    ensures !LeftInStaging(n.now, s)
  {
    match a {
      case Append(t, what, refused) =>
        if n.now != w.now && w.ops[t].scope != s.staging { AppendElsewhere(w.now, s, w.ops[t].scope, what); }
      case Insert(t) => ProvideElsewhere(w.now, s, w.ops[t].scope, w.ops[t].symbol, w.ops[t].value);
      case _ =>
        assert n.now.services == w.now.services && n.now.entries == w.now.entries && n.now.arena == w.now.arena;
        SameListsLeft(w.now, s, n.now);
    }
  }

  lemma SameListsLeft(x: Whole, s: Swap, y: Whole)
    requires Present(x, s) && Present(y, s) && y.services == x.services && y.entries == x.entries && y.arena == x.arena
    requires var f, g := x.fibers[s.staged], y.fibers[s.staged];
             g.invocationHandlers == f.invocationHandlers && g.invocationMiddleware == f.invocationMiddleware && g.childScopes == f.childScopes
    ensures LeftInStaging(x, s) == LeftInStaging(y, s)
  {
  }

  lemma DoneStep(w: World, s: Swap, a: Step, n: World)
    requires Inv(w, s) && Done(w.pc) && Next(w, s, a, n) && !LateAppend(w, s, a) && !LeftInStaging(w.now, s)
    ensures Done(n.pc) && !LeftInStaging(n.now, s)
  {
    WonStep(w, s, a, n);
    match a {
      case OfReload(r) => WonReload(w, s, r, n);
      case OfPlugin(p) => PluginLeavesNothing(w, s, p, n);
      case Others(y) => OthersLeaveNothing(w.now, s, y);
    }
  }

  lemma {:induction false} DoneStays(run: seq<World>, steps: seq<Step>, s: Swap, k: nat, i: nat)
    requires Run(run, steps, s) && k <= i < |run| && Rests(run[k].pc)
    ensures run[i].pc == run[k].pc
    decreases i
  {
    if k < i {
      DoneStays(run, steps, s, k, i - 1);
      assert Linked(run, steps, s, i - 1);
      WonStep(run[i - 1], s, steps[i - 1], run[i]);
    }
  }

  lemma DoneStepAt(run: seq<World>, steps: seq<Step>, s: Swap, i: nat)
    requires Run(run, steps, s) && i < |steps| && Done(run[i].pc) && !LateAppend(run[i], s, steps[i]) && !LeftInStaging(run[i].now, s)
    ensures !LeftInStaging(run[i + 1].now, s)
  {
    RunInv(run, steps, s, i);
    assert Linked(run, steps, s, i);
    DoneStep(run[i], s, steps[i], run[i + 1]);
  }

  lemma {:induction false} NothingLeftMeanwhile(run: seq<World>, steps: seq<Step>, s: Swap, k: nat, i: nat)
    requires Run(run, steps, s) && k <= i < |run| && Done(run[k].pc) && !LeftInStaging(run[k].now, s)
    requires forall j :: k <= j < i ==> !LateAppend(run[j], s, steps[j])
    ensures !LeftInStaging(run[i].now, s)
    decreases i
  {
    if k < i {
      NothingLeftMeanwhile(run, steps, s, k, i - 1);
      DoneStays(run, steps, s, k, i - 1);
      DoneStepAt(run, steps, s, i - 1);
    }
  }

  lemma AdoptedHere(w: World, s: Swap, a: Step, n: World)
    requires Inv(w, s) && Next(w, s, a, n) && Done(n.pc) && !Done(w.pc)
    ensures !LeftInStaging(n.now, s)
  {
    match a {
      case OfReload(r) =>
        WonReload(w, s, r, n);
        if NextCheck(w, s, r, n) { LosesNothing(w, s, r, n); }
        else if NextMove(w, s, r, n) { WinsNothing(w, s, r, n); }
        else { AdoptLeavesNothing(w, s, n); }
      case _ => WonStep(w, s, a, n);
    }
  }

  ghost predicate SomethingLeft(run: seq<World>, s: Swap, k: nat) {
    exists i :: k <= i < |run| && LeftInStaging(run[i].now, s)
  }

  ghost predicate SomebodyLate(run: seq<World>, steps: seq<Step>, s: Swap, k: nat)
    requires |run| == |steps| + 1
  {
    exists j :: k <= j < |steps| && LateAppend(run[j], s, steps[j])
  }

  lemma LateLeaves(run: seq<World>, steps: seq<Step>, s: Swap, k: nat)
    requires Run(run, steps, s) && SomebodyLate(run, steps, s, k)
    ensures SomethingLeft(run, s, k)
  {
    var j :| k <= j < |steps| && LateAppend(run[j], s, steps[j]);
    RunInv(run, steps, s, j);
    assert Linked(run, steps, s, j);
    LateAppendLeaves(run[j], s, steps[j], run[j + 1]);
  }

  lemma NobodyLateNothingLeft(run: seq<World>, steps: seq<Step>, s: Swap, k: nat)
    requires Run(run, steps, s) && k < |run| && Done(run[k].pc) && !LeftInStaging(run[k].now, s) && !SomebodyLate(run, steps, s, k)
    ensures !SomethingLeft(run, s, k)
  {
    forall i | k <= i < |run| ensures !LeftInStaging(run[i].now, s) { NothingLeftMeanwhile(run, steps, s, k, i); }
  }

  lemma AdoptedAt(run: seq<World>, steps: seq<Step>, s: Swap, i: nat)
    requires Run(run, steps, s) && i < |steps| && Done(run[i + 1].pc) && !Done(run[i].pc)
    ensures !LeftInStaging(run[i + 1].now, s)
  {
    RunInv(run, steps, s, i);
    assert Linked(run, steps, s, i);
    AdoptedHere(run[i], s, steps[i], run[i + 1]);
  }

  /** The transaction leaves nothing of the staged plugin in staging, in any registry; afterwards there is
      something of it there at some instant exactly if an operation that is still in the staging scope
      registers. */
  lemma LeftInStagingExactly(run: seq<World>, steps: seq<Step>, s: Swap, k: nat)
    requires Run(run, steps, s) && 0 < k < |run| && Done(run[k].pc) && !Done(run[k - 1].pc)
    ensures !LeftInStaging(run[k].now, s)
    ensures SomethingLeft(run, s, k) <==> SomebodyLate(run, steps, s, k)
  {
    AdoptedAt(run, steps, s, k - 1);
    if SomebodyLate(run, steps, s, k) {
      LateLeaves(run, steps, s, k);
    } else {
      NobodyLateNothingLeft(run, steps, s, k);
    }
  }

  predicate InScope(w: World, t: Tid, scope: ScopeId) {
    t in w.ops && w.ops[t] != Outside && w.ops[t].scope == scope
  }

  /** Once the transaction holds the record, and after it, nobody comes to act in the staging scope any
      more. */
  lemma NobodyComes(w: World, s: Swap, a: Step, n: World, t: Tid)
    requires Inv(w, s) && Next(w, s, a, n) && InScope(n, t, s.staging)
    requires RecordHeld(w.pc) || Done(w.pc) || a == OfReload(TakeRecord)
    ensures InScope(w, t, s.staging)
  {
    match a {
      case OfReload(r) => ReloadKeepsOps(w, s, r, n);
      case OfPlugin(p) => NobodyLooks(w, s, p, n, t);
      case Others(_) =>
    }
  }

  lemma ReloadKeepsOps(w: World, s: Swap, r: ReloadStep, n: World)
    requires NextReload(w, s, r, n)
    ensures n.ops == w.ops
  {
    if NextCheck(w, s, r, n) { CheckFrame(w, s, r, n); }
    else if NextMove(w, s, r, n) { assert n.ops == w.ops; }
    else { assert n.ops == w.ops; }
  }

  /** An operation is in the scope it has looked up, and the record names staging no more. */
  lemma NobodyLooks(w: World, s: Swap, p: PluginStep, n: World, t: Tid)
    requires Fixed(w, s) && NextPlugin(w, s, p, n) && (RecordHeld(w.pc) || Done(w.pc)) && InScope(n, t, s.staging)
    ensures InScope(w, t, s.staging)
  {
  }

  lemma {:induction false} HeldOrEnded(run: seq<World>, steps: seq<Step>, s: Swap, l: nat, m: nat)
    requires Run(run, steps, s) && l < m < |run| && run[l + 1].pc.Holding?
    ensures RecordHeld(run[m].pc) || Rests(run[m].pc)
    decreases m
  {
    if l + 1 < m {
      HeldOrEnded(run, steps, s, l, m - 1);
      assert Linked(run, steps, s, m - 1);
      KeepsRecord(run[m - 1], s, steps[m - 1], run[m]);
    }
  }

  lemma MoveKeepsRecord(w: World, s: Swap, r: ReloadStep, n: World)
    requires NextMove(w, s, r, n)
    ensures RecordHeld(n.pc) || Rests(n.pc)
  {
  }

  lemma CutKeepsRecord(w: World, s: Swap, r: ReloadStep, n: World)
    requires NextCut(w, s, r, n)
    ensures RecordHeld(n.pc) || Rests(n.pc)
  {
  }

  lemma KeepsRecord(w: World, s: Swap, a: Step, n: World)
    requires Next(w, s, a, n) && (RecordHeld(w.pc) || Rests(w.pc))
    ensures RecordHeld(n.pc) || Rests(n.pc)
  {
    match a {
      case OfReload(r) =>
        if NextMove(w, s, r, n) {
          MoveKeepsRecord(w, s, r, n);
        } else if NextCut(w, s, r, n) {
          CutKeepsRecord(w, s, r, n);
        } else {
          CheckFrame(w, s, r, n);
        }
      case _ => assert n.pc == w.pc;
    }
  }

  lemma WasInStaging(run: seq<World>, steps: seq<Step>, s: Swap, m: nat, t: Tid)
    requires Run(run, steps, s) && m < |steps| && InScope(run[m + 1], t, s.staging)
    requires RecordHeld(run[m].pc) || Done(run[m].pc) || steps[m] == OfReload(TakeRecord)
    ensures InScope(run[m], t, s.staging)
  {
    RunInv(run, steps, s, m);
    assert Linked(run, steps, s, m);
    NobodyComes(run[m], s, steps[m], run[m + 1], t);
  }

  /** An operation that is in the staging scope after the transaction has been so since before the
      transaction took the record. */
  lemma {:induction false} InStagingSince(run: seq<World>, steps: seq<Step>, s: Swap, l: nat, j: nat, t: Tid)
    requires Run(run, steps, s) && TakesRecord(run, steps, l) && l < j < |run|
    requires (RecordHeld(run[j].pc) || Done(run[j].pc)) && InScope(run[j], t, s.staging)
    ensures InScope(run[l], t, s.staging)
    decreases j
  {
    if l + 1 < j {
      HeldOrEnded(run, steps, s, l, j - 1);
      if Rests(run[j - 1].pc) { DoneStays(run, steps, s, j - 1, j); }
      WasInStaging(run, steps, s, j - 1, t);
      InStagingSince(run, steps, s, l, j - 1, t);
    } else {
      WasInStaging(run, steps, s, l, t);
    }
  }

  predicate TakesRecord(run: seq<World>, steps: seq<Step>, l: nat) {
    l < |steps| && l + 1 < |run| && steps[l] == OfReload(TakeRecord) && run[l + 1].pc.Holding?
  }

  lemma RecordTaken(w: World, s: Swap, a: Step, n: World)
    requires Next(w, s, a, n) && (RecordHeld(n.pc) || Done(n.pc)) && !RecordHeld(w.pc) && !Done(w.pc)
    ensures a == OfReload(TakeRecord) && n.pc.Holding?
  {
    match a {
      case OfReload(r) =>
        if NextCheck(w, s, r, n) { CheckFrame(w, s, r, n); }
        else if NextMove(w, s, r, n) { WinsNothing(w, s, r, n); }
        else { WinsByCut(w, s, r, n); }
      case _ =>
    }
  }

  lemma {:induction false} WasTaken(run: seq<World>, steps: seq<Step>, s: Swap, j: nat) returns (l: nat)
    requires Run(run, steps, s) && j < |run| && (RecordHeld(run[j].pc) || Done(run[j].pc))
    ensures l < j && TakesRecord(run, steps, l)
  {
    assert j > 0;
    assert Linked(run, steps, s, j - 1);
    if RecordHeld(run[j - 1].pc) || Done(run[j - 1].pc) {
      l := WasTaken(run, steps, s, j - 1);
    } else {
      RecordTaken(run[j - 1], s, steps[j - 1], run[j]);
      l := j - 1;
    }
  }

  /** So whatever is left in staging has been registered by an operation that was admitted before the
      transaction took the record, and that registered after it. */
  lemma LateWasAdmittedBefore(run: seq<World>, steps: seq<Step>, s: Swap, j: nat) returns (l: nat)
    requires Run(run, steps, s) && j < |steps| && LateAppend(run[j], s, steps[j])
    ensures l < j && TakesRecord(run, steps, l) && InScope(run[l], steps[j].p.t, s.staging)
  {
    l := WasTaken(run, steps, s, j);
    InStagingSince(run, steps, s, l, j, steps[j].p.t);
  }

  /** If nobody is in the staging scope when the transaction takes the record, nobody registers there
      afterwards, and nothing is ever left. */
  lemma NobodyInsideNothingLeft(run: seq<World>, steps: seq<Step>, s: Swap, l: nat, k: nat)
    requires Run(run, steps, s) && TakesRecord(run, steps, l) && l < k < |run| && Done(run[k].pc) && !Done(run[k - 1].pc)
    requires forall t :: !InScope(run[l], t, s.staging)
    ensures !SomethingLeft(run, s, k)
  {
    if SomebodyLate(run, steps, s, k) {
      var j :| k <= j < |steps| && LateAppend(run[j], s, steps[j]);
      assert InScope(run[j], steps[j].p.t, s.staging);
      InStagingSince(run, steps, s, l, j, steps[j].p.t);
      assert false;
    }
    LeftInStagingExactly(run, steps, s, k);
  }

  // ---- Whoever is still inside can leave something ------------------------------------------------------------

  function Above(ids: seq<EntryId>): (n: EntryId)
    ensures forall id <- ids :: id < n
  {
    if ids == [] then 0
    else
      var n := Above(ids[1..]);
      assert forall id <- ids :: id == ids[0] || id in ids[1..];
      if ids[0] < n then n else ids[0] + 1
  }

  lemma AnUnusedId(r: Registrations, f: Fiber) returns (id: EntryId)
    ensures FreshEntry(r, f, id)
  {
    var hs := seq(|r.handlers|, i requires 0 <= i < |r.handlers| => r.handlers[i].id);
    var ms := seq(|r.middleware|, i requires 0 <= i < |r.middleware| => r.middleware[i].id);
    var own, all := f.invocationHandlers + f.invocationMiddleware, f.invocationHandlers + f.invocationMiddleware + hs + ms;
    id := Above(all);
    assert forall x :: x in f.invocationHandlers || x in f.invocationMiddleware ==> x in own && x in all;
    forall h | h in r.handlers ensures h.id < id {
      var i :| 0 <= i < |r.handlers| && r.handlers[i] == h;
      assert hs[i] in all;
    }
    forall m | m in r.middleware ensures m.id < id {
      var i :| 0 <= i < |r.middleware| && r.middleware[i] == m;
      assert ms[i] in all;
    }
  }

  /** The record is open for registrations, and so is the gate. */
  predicate Open(x: Whole, s: Swap) {
    && Present(x, s) && StagedGate(x, s) !in x.draining
    && !x.fibers[s.staged].sealed && Mutable(x.fibers[s.staged].state)
  }

  predicate MayEnter(w: World, s: Swap, t: Tid) {
    InScope(w, t, s.staging) && (w.ops[t].Looked? ==> w.ops[t].admitted)
  }

  /** Whoever holds the record inserts and lets it go. */
  lemma LetGo(run: seq<World>, steps: seq<Step>, s: Swap) returns (longer: seq<World>, more: seq<Step>)
    requires Run(run, steps, s) && Done(run[|run| - 1].pc) && Open(run[|run| - 1].now, s)
    ensures Run(longer, more, s) && run <= longer && steps <= more
    ensures var w, n := run[|run| - 1], longer[|longer| - 1];
            && Done(n.pc) && Open(n.now, s) && NobodyProvides(n)
            && forall t <- w.ops :: t in n.ops && (!w.ops[t].Providing? ==> n.ops[t] == w.ops[t])
  {
    RunInv(run, steps, s, |run| - 1);
    var w := run[|run| - 1];
    if NobodyProvides(w) {
      longer, more := run, steps;
    } else {
      var u :| u in w.ops && w.ops[u].Providing?;
      var p := w.ops[u];
      var n := w.(ops := w.ops[u := Outside], now := Provided(w.now, s, p.scope, p.symbol, p.value));
      longer, more := Extend(run, steps, s, OfPlugin(Insert(u)), n);
    }
  }

  lemma RegisterLate(run: seq<World>, steps: seq<Step>, s: Swap, t: Tid) returns (longer: seq<World>, more: seq<Step>)
    requires Run(run, steps, s) && Done(run[|run| - 1].pc) && Open(run[|run| - 1].now, s) && NobodyProvides(run[|run| - 1])
    requires t in run[|run| - 1].ops && run[|run| - 1].ops[t] == Inside(s.staging)
    ensures Run(longer, more, s) && run <= longer && steps <= more && LeftInStaging(longer[|longer| - 1].now, s)
  {
    var w := run[|run| - 1];
    var id := AnUnusedId(w.now.entries, w.now.fibers[s.staged]);
    var what := AMiddleware(id, 0, 0);
    var n := w.(ops := w.ops[t := Outside], now := Enlisted(w.now, s, s.staging, what));
    longer, more := Extend(run, steps, s, OfPlugin(Append(t, what, false)), n);
    EnlistedIsLeft(w.now, s, what);
  }

  /** From every state of every run after the transaction: an operation that is still in the staging
      scope, or admitted to it, can leave something there as long as record and gate are open. */
  lemma WhoIsInsideCanLeave(run: seq<World>, steps: seq<Step>, s: Swap, t: Tid) returns (longer: seq<World>, more: seq<Step>)
    requires Run(run, steps, s) && Done(run[|run| - 1].pc) && Open(run[|run| - 1].now, s) && MayEnter(run[|run| - 1], s, t)
    ensures Run(longer, more, s) && run <= longer && steps <= more && LeftInStaging(longer[|longer| - 1].now, s)
  {
    var w := run[|run| - 1];
    if w.ops[t].Providing? {
      var p := w.ops[t];
      var n := w.(ops := w.ops[t := Outside], now := Provided(w.now, s, p.scope, p.symbol, p.value));
      longer, more := Extend(run, steps, s, OfPlugin(Insert(t)), n);
      ProvidedIsLeft(w.now, s, p.symbol, p.value);
    } else {
      longer, more := LetGo(run, steps, s);
      var v := longer[|longer| - 1];
      if v.ops[t].Looked? {
        longer, more := Extend(longer, more, s, OfPlugin(Enter(t)), v.(ops := v.ops[t := Inside(s.staging)]));
      }
      longer, more := RegisterLate(longer, more, s, t);
    }
  }

  // ---- A run in which it happens ------------------------------------------------------------------------------

  function ReadyToSwap(): Fiber {
    Launched(Incoming().(provided := [SERVICE]))
  }

  lemma StartedWithOneInside() returns (run: seq<World>, steps: seq<Step>)
    ensures Run(run, steps, SWAP)
    ensures run[|run| - 1] == Cold().(now := Small(ReadyToSwap(), Serving(3, 1)), stage := Started, ops := map[5 := Outside, 6 := Inside(1)])
  {
    ColdStart();
    run, steps := Register([Cold()], [], Incoming(), 0, 3);
    assert Incoming().provided + [SERVICE] == [SERVICE];
    run, steps := BeAdmitted(run, steps, SWAP, 6);
    var f := Incoming().(provided := [SERVICE]);
    assert run[|run| - 1].ops == map[5 := Outside, 6 := Inside(1)];
    run, steps := Launch(run, steps, f, Serving(3, 1), map[5 := Outside, 6 := Inside(1)]);
  }

  /** The transaction of the small program is through, and an operation is still in the staging scope. */
  lemma AdoptedWithOneInside() returns (run: seq<World>, steps: seq<Step>)
    ensures Run(run, steps, SWAP) && |run| >= 2 && Done(run[|run| - 1].pc) && !Done(run[|run| - 2].pc)
    ensures var n := run[|run| - 1];
            && n.ops == map[5 := Outside, 6 := Inside(1)] && Present(n.now, SWAP)
            && n.now.fibers[2] == Adopted(ReadyToSwap(), 0) && n.now.draining == {Gate(0, 1)} && n.now.retired == {Gate(0, 1)}
            && Key(1, SERVICE) !in n.now.services.entries
  {
    run, steps := StartedWithOneInside();
    SmallCommits(ReadyToSwap(), Serving(3, 1), 3);
    var p := ServicesOf(SWAP, ReadyToSwap());
    run, steps := Undisturbed(run, steps, SWAP);
    ServicesOfCommit(Serving(3, 1).entries, p);
  }

  /** So it can happen: an operation admitted before the transaction registers after it, in the staging
      scope, and what it registers stays there. */
  lemma StaleScopeRace() returns (run: seq<World>, steps: seq<Step>, k: nat)
    ensures Run(run, steps, SWAP) && 0 < k < |run| && Done(run[k].pc) && !Done(run[k - 1].pc)
    ensures !LeftInStaging(run[k].now, SWAP) && LeftInStaging(run[|run| - 1].now, SWAP)
  {
    run, steps := AdoptedWithOneInside();
    k := |run| - 1;
    LeftInStagingExactly(run, steps, SWAP, k);
    run, steps := WhoIsInsideCanLeave(run, steps, SWAP, 6);
  }

  // ---- What a disposal of the adopted plugin withdraws ----------------------------------------------------------

  /** The services as the disposal of the staged plugin leaves them. */
  function AfterWithdrawal(x: Whole, s: Swap): map<Key, Entry>
    requires s.staged in x.fibers
  {
    var f := x.fibers[s.staged];
    Withdrawn(x.services.entries, s.staged, f.scope, f.provided)
  }

  predicate ServiceRemains(x: Whole, s: Swap)
    requires s.staged in x.fibers
  {
    exists key <- AfterWithdrawal(x, s) :: AfterWithdrawal(x, s)[key].owner == s.staged
  }

  /** A disposal withdraws services where the record is bound.  In every run, what it would miss of the
      adopted plugin is exactly what has been registered in the staging scope. */
  lemma WithdrawalMissesExactly(run: seq<World>, steps: seq<Step>, s: Swap, i: nat)
    requires Run(run, steps, s) && i < |run| && Done(run[i].pc) && Present(run[i].now, s) && Alive(run[i].now, s)
    ensures ServiceRemains(run[i].now, s) <==> LeftService(run[i].now, s)
  {
    RunInv(run, steps, s, i);
    var x := run[i].now;
    if LeftService(x, s) {
      var key :| key in x.services.entries && key.scope == s.staging && x.services.entries[key].owner == s.staged;
      assert key in AfterWithdrawal(x, s);
    }
  }

  /** A run in which a service registered late in the staging scope is listed but never withdrawn. */
  lemma LateServiceStays() returns (run: seq<World>, steps: seq<Step>)
    ensures Run(run, steps, SWAP) && Done(run[|run| - 1].pc)
    ensures var x := run[|run| - 1].now;
            && Present(x, SWAP) && Alive(x, SWAP) && SERVICE in x.fibers[SWAP.staged].provided && ServiceRemains(x, SWAP)
  {
    run, steps := AdoptedWithOneInside();
    var w := run[|run| - 1];
    var v := w.(ops := w.ops[6 := Providing(1, SERVICE, 4)]);
    run, steps := Extend(run, steps, SWAP, OfPlugin(Provide(6, SERVICE, 4)), v);
    var n := v.(ops := v.ops[6 := Outside], now := Provided(v.now, SWAP, 1, SERVICE, 4));
    run, steps := Extend(run, steps, SWAP, OfPlugin(Insert(6)), n);
    assert Key(1, SERVICE) in AfterWithdrawal(n.now, SWAP);
  }
}
