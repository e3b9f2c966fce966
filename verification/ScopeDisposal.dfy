/** Scopes under concurrent creation, reload, disposal and reclamation.  Each disposal has a body
    that visits the children it found, and a supervisor that finalizes; a step is one lock section
    or one observed completion. */
module ScopeDisposal {
  import opened Wrappers
  import opened Sequences
  import opened ServiceRegistry
  import opened DependencyGraph
  import opened Scopes

  /** What a finished disposal published. */
  datatype Outcome = Clean | WithIssues | Incomplete

  /** The body of one disposal: the children still to visit, the one being waited for, whether
      something below has terminated, and whether anything was reported. */
  datatype Worker =
    | Starting
    | Traversing(todo: seq<ScopeId>, waiting: Option<ScopeId>, terminated: bool, issues: bool)
    | OnFibers(terminated: bool, issues: bool)
    | Finalizing(terminated: bool, issues: bool)

  /** `lineage` is history: the last parent each scope ever had. */
  datatype World = World(t: Arena, next: ScopeId, workers: map<ScopeId, Worker>, done: map<ScopeId, Outcome>,
                         lineage: map<ScopeId, ScopeId>)

  const ROOT: ScopeId := 0

  datatype Step =
    | Create(parent: ScopeId)
    | SetFibers(scope: ScopeId, fibers: seq<FiberId>)
    | Reload(p: ScopeRevision)
    | ReloadUndone(p: ScopeRevision)
    | Dispose(scope: ScopeId)
    | Snapshot(scope: ScopeId)
    | Visit(scope: ScopeId)
    | Observe(scope: ScopeId)
    | ChildrenDone(scope: ScopeId)
    | FibersDone(scope: ScopeId, terminated: bool, issues: bool)
    | Die(scope: ScopeId)
    | Finalize(scope: ScopeId)
    | Collect(gone: set<FiberId>)

  predicate Init(w: World) {
    w == World(map[ROOT := Scope(None, [], [], Active)], 1, map[], map[], map[])
  }

  /** A reload stages under its target and moves each scope of the staged plugin once. */
  predicate Staged(t: Arena, p: ScopeRevision) {
    CanCommit(t, p) && Distinct(p.children) && t[p.staging].parent == Some(p.target)
  }

  function Begin(w: World, scope: ScopeId): World
    requires scope in w.t
  {
    w.(t := w.t[scope := w.t[scope].(state := Disposing)], workers := w.workers[scope := Starting])
  }

  function Work(w: World, scope: ScopeId, k: Worker): World {
    w.(workers := w.workers[scope := k])
  }

  /** The state is final; a scope that is disposed leaves its parent's list before anyone is told. */
  function Finalized(t: Arena, scope: ScopeId, terminated: bool): Arena
    requires scope in t
  {
    var u := t[scope := t[scope].(state := if terminated then Terminated else Disposed)];
    if terminated || t[scope].parent == None || t[scope].parent.value !in u then u
    else
      var parent := t[scope].parent.value;
      u[parent := u[parent].(children := Minus(u[parent].children, [scope]))]
  }

  function Moved(lineage: map<ScopeId, ScopeId>, p: ScopeRevision): map<ScopeId, ScopeId> {
    map c | c in lineage :: if c in p.children then p.target else lineage[c]
  }

  predicate NextTree(w: World, a: Step, n: World, maxScopes: nat, maxDepth: nat) {
    match a
    case Create(parent) =>
      && Parented(w.t) && CreateCheck(w.t, parent, maxScopes, maxDepth).Ok?
      && n == w.(t := Created(w.t, parent, w.next), next := w.next + 1, lineage := w.lineage[w.next := parent])
    case SetFibers(scope, fibers) =>
      scope in w.t && n == w.(t := w.t[scope := w.t[scope].(fibers := fibers)])
    case Reload(p) =>
      Staged(w.t, p) && n == w.(t := ScopesMoved(w.t, p), lineage := Moved(w.lineage, p))
    case ReloadUndone(p) =>
      Staged(w.t, p) && n == w.(t := ScopesBack(ScopesMoved(w.t, p), p))
    case Collect(gone) => n == w.(t := Reclaimed(Detached(w.t, gone), ROOT))
    case _ => false
  }

  predicate NextDisposal(w: World, a: Step, n: World) {
    match a
    case Dispose(scope) => scope in w.t && w.t[scope].state == Active && n == Begin(w, scope)
    case Snapshot(scope) =>
      && scope in w.workers && w.workers[scope].Starting?
      && n == Work(w, scope, if scope in w.t then Traversing(w.t[scope].children, None, false, false) else Finalizing(true, true))
    case Visit(scope) =>
      && scope in w.workers && w.workers[scope].Traversing?
      && var k := w.workers[scope];
         && k.waiting == None && k.todo != []
         && var child := k.todo[|k.todo| - 1];
            var rest := k.todo[..|k.todo| - 1];
            n == if child !in w.t then Work(w, scope, Traversing(rest, None, true, true))
                 else Work(if w.t[child].state == Active then Begin(w, child) else w,
                           scope, Traversing(rest, Some(child), k.terminated, k.issues))
    case Observe(scope) =>
      && scope in w.workers && w.workers[scope].Traversing?
      && var k := w.workers[scope];
         && k.waiting.Some? && k.waiting.value in w.done
         && var child := k.waiting.value;
            var committed := child in w.t && w.t[child].state == Disposed;
            n == Work(w, scope,
                      if w.done[child] == Clean then Traversing(k.todo, None, k.terminated, k.issues)
                      else Traversing(k.todo, None, k.terminated || !committed || w.done[child] == Incomplete, true))
    case ChildrenDone(scope) =>
      && scope in w.workers && w.workers[scope].Traversing?
      && w.workers[scope].waiting == None && w.workers[scope].todo == []
      && n == Work(w, scope, OnFibers(w.workers[scope].terminated, w.workers[scope].issues))
    case FibersDone(scope, terminated, issues) =>
      && scope in w.workers && w.workers[scope].OnFibers? && (terminated ==> issues)
      && n == Work(w, scope, Finalizing(w.workers[scope].terminated || terminated, w.workers[scope].issues || issues))
    case Die(scope) => scope in w.workers && !w.workers[scope].Finalizing? && n == Work(w, scope, Finalizing(true, true))
    case Finalize(scope) =>
      && scope in w.workers && w.workers[scope].Finalizing? && scope in w.t
      && var k := w.workers[scope];
         n == w.(t := Finalized(w.t, scope, k.terminated), workers := w.workers - {scope},
                 done := w.done[scope := if k.terminated then Incomplete else if k.issues then WithIssues else Clean])
    case _ => false
  }

  predicate Next(w: World, a: Step, n: World, maxScopes: nat, maxDepth: nat) {
    NextTree(w, a, n, maxScopes, maxDepth) || NextDisposal(w, a, n)
  }

  // ---- The tree ----------------------------------------------------------------------------------

  predicate Live(t: Arena, id: ScopeId) {
    id in t && t[id].state != Disposed
  }

  predicate ListOk(t: Arena, id: ScopeId)
    requires id in t
  {
    && Distinct(t[id].children)
    && (forall c <- t[id].children :: c in t && t[c].parent == Some(id) && t[c].state != Disposed)
    && (t[id].state == Disposed ==> t[id].children == [])
  }

  predicate ParentOk(t: Arena, id: ScopeId)
    requires id in t
  {
    && (if id == ROOT then t[id].parent == None else t[id].parent.Some? && t[id].parent.value < id)
    && (id != ROOT && t[id].state != Disposed ==> t[id].parent.value in t && id in t[t[id].parent.value].children)
  }

  predicate RecordOk(t: Arena, id: ScopeId)
    requires id in t
  {
    ListOk(t, id) && ParentOk(t, id)
  }

  predicate TreeOk(t: Arena, next: ScopeId) {
    ROOT in t && forall id <- t :: id < next && RecordOk(t, id)
  }

  lemma TreeIsParented(t: Arena, next: ScopeId)
    requires TreeOk(t, next)
    ensures Parented(t)
  {
    forall id | id in t && t[id].parent.Some? ensures t[id].parent.value < id { assert RecordOk(t, id); }
  }

  lemma CreateTree(t: Arena, next: ScopeId, parent: ScopeId)
    requires TreeOk(t, next) && parent in t && t[parent].state == Active
    ensures TreeOk(Created(t, parent, next), next + 1)
  {
    var u := Created(t, parent, next);
    assert next !in t;
    forall id | id in u ensures id < next + 1 && RecordOk(u, id) {
      if id != next { assert RecordOk(t, id); }
    }
  }

  lemma MoveTree(t: Arena, next: ScopeId, p: ScopeRevision)
    requires TreeOk(t, next) && Staged(t, p)
    ensures TreeOk(ScopesMoved(t, p), next)
  {
    var u := ScopesMoved(t, p);
    assert RecordOk(t, p.staging) && RecordOk(t, p.target);
    assert p.staged in t[p.staging].fibers && p.staging != p.target;
    forall id | id in u ensures id < next && RecordOk(u, id) {
      assert RecordOk(t, id);
      MoveRecord(t, next, p, id);
    }
  }

  lemma MoveRecord(t: Arena, next: ScopeId, p: ScopeRevision, id: ScopeId)
    requires TreeOk(t, next) && Staged(t, p) && id in t && p.staging != p.target
    ensures RecordOk(ScopesMoved(t, p), id)
  {
    assert RecordOk(t, id) && RecordOk(t, p.staging) && RecordOk(t, p.target);
    MoveList(t, next, p, id);
    MoveParent(t, next, p, id);
  }

  lemma MoveList(t: Arena, next: ScopeId, p: ScopeRevision, id: ScopeId)
    requires TreeOk(t, next) && Staged(t, p) && id in t && p.staging != p.target
    requires ListOk(t, id) && ListOk(t, p.staging)
    ensures ListOk(ScopesMoved(t, p), id)
  {
    var u := ScopesMoved(t, p);
    if id == p.staging {
      MinusDistinct(t[id].children, p.children);
    } else if id == p.target {
      AppendDistinct(t[id].children, p.children);
    }
    forall c | c in u[id].children ensures c in u && u[c].parent == Some(id) && u[c].state != Disposed {
      if c in p.children { assert t[c].parent == Some(p.staging) && c in t[p.staging].children; }
    }
  }

  lemma AppendDistinct(s: seq<ScopeId>, more: seq<ScopeId>)
    requires Distinct(s) && Distinct(more) && NoneIn(more, s)
    ensures Distinct(s + more)
  {
    forall i, j | 0 <= i < j < |s + more| ensures (s + more)[i] != (s + more)[j] {
      if i < |s| <= j { assert more[j - |s|] in more; }
    }
  }

  lemma MoveParent(t: Arena, next: ScopeId, p: ScopeRevision, id: ScopeId)
    requires TreeOk(t, next) && Staged(t, p) && id in t && p.staging != p.target
    requires ParentOk(t, id) && ParentOk(t, p.staging)
    ensures ParentOk(ScopesMoved(t, p), id)
  {
    if id in p.children {
      assert t[id].parent == Some(p.staging) && t[p.staging].parent == Some(p.target);
    }
  }

  lemma {:induction false} MinusDistinct(s: seq<ScopeId>, gone: seq<ScopeId>)
    requires Distinct(s)
    ensures Distinct(Minus(s, gone))
  {
    if s != [] {
      MinusDistinct(s[1..], gone);
      assert s[0] !in s[1..];
      assert s[0] !in Minus(s[1..], gone);
    }
  }

  /** The tree does not depend on the order of the lists. */
  lemma SameTree(t: Arena, u: Arena, next: ScopeId)
    requires TreeOk(t, next) && SameScopes(t, u)
    ensures TreeOk(u, next)
  {
    forall id | id in u ensures id < next && RecordOk(u, id) {
      assert SameScope(t[id], u[id]) && RecordOk(t, id);
      SameList(t[id].children, u[id].children);
      DistinctCounts(t[id].children);
      DistinctFromCounts(u[id].children);
      forall c | c in u[id].children ensures c in u && u[c].parent == Some(id) && u[c].state != Disposed {
        assert SameScope(t[c], u[c]);
      }
      if id != ROOT && t[id].state != Disposed {
        var parent := t[id].parent.value;
        assert SameScope(t[parent], u[parent]);
        SameList(t[parent].children, u[parent].children);
      }
    }
  }

  lemma SameList(s: seq<ScopeId>, r: seq<ScopeId>)
    requires multiset(s) == multiset(r)
    ensures forall x :: x in s <==> x in r
    ensures s == [] <==> r == []
  {
    forall x ensures x in s <==> x in r { assert x in multiset(s) <==> x in multiset(r); }
    assert |multiset(s)| == |s| && |multiset(r)| == |r|;
  }

  lemma FinalizeList(t: Arena, scope: ScopeId, terminated: bool, id: ScopeId)
    requires scope in t && t[scope].state == Disposing && (!terminated ==> t[scope].children == [])
    requires id in t && ListOk(t, id) && ParentOk(t, scope) && t[scope].parent != Some(scope)
    ensures ListOk(Finalized(t, scope, terminated), id)
  {
    var u := Finalized(t, scope, terminated);
    MinusDistinct(t[id].children, [scope]);
    if terminated {
      assert u[id].children == t[id].children;
    } else if t[scope].parent == Some(id) {
      assert u[id].children == Minus(t[id].children, [scope]);
    } else {
      assert u[id].children == t[id].children;
      assert scope !in t[id].children;
    }
  }

  lemma FinalizeParent(t: Arena, scope: ScopeId, terminated: bool, id: ScopeId)
    requires scope in t && t[scope].state == Disposing
    requires id in t && ParentOk(t, id) && (!terminated ==> t[scope].children == [])
    ensures ParentOk(Finalized(t, scope, terminated), id)
  {
    var u := Finalized(t, scope, terminated);
    if id != ROOT && u[id].state != Disposed {
      var parent := t[id].parent.value;
      assert id in t[parent].children;
      assert id in u[parent].children;
    }
  }

  lemma FinalizeRecord(t: Arena, next: ScopeId, scope: ScopeId, terminated: bool, id: ScopeId)
    requires TreeOk(t, next) && scope in t && t[scope].state == Disposing && (!terminated ==> t[scope].children == [])
    requires id in t && RecordOk(t, id) && RecordOk(t, scope)
    ensures RecordOk(Finalized(t, scope, terminated), id)
  {
    FinalizeList(t, scope, terminated, id);
    FinalizeParent(t, scope, terminated, id);
  }

  lemma FinalizeTree(t: Arena, next: ScopeId, scope: ScopeId, terminated: bool)
    requires TreeOk(t, next) && scope in t && t[scope].state == Disposing && (!terminated ==> t[scope].children == [])
    ensures TreeOk(Finalized(t, scope, terminated), next)
  {
    var u := Finalized(t, scope, terminated);
    assert RecordOk(t, scope);
    forall id | id in u ensures id < next && RecordOk(u, id) {
      assert RecordOk(t, id);
      FinalizeRecord(t, next, scope, terminated, id);
    }
  }

  lemma CollectTree(t: Arena, next: ScopeId, gone: set<FiberId>)
    requires TreeOk(t, next)
    ensures TreeOk(Reclaimed(Detached(t, gone), ROOT), next)
  {
    var u := Reclaimed(Detached(t, gone), ROOT);
    assert RecordOk(t, ROOT);
    forall id | id in u ensures id < next && RecordOk(u, id) {
      assert RecordOk(t, id);
      if id != ROOT && t[id].state != Disposed { assert RecordOk(t, t[id].parent.value); }
    }
  }

  // ---- The disposals -----------------------------------------------------------------------------

  predicate WorkerOk(t: Arena, scope: ScopeId, k: Worker) {
    && scope in t && t[scope].state == Disposing
    && match k
       case Starting => true
       case Traversing(todo, waiting, terminated, _) =>
         terminated || forall c <- t[scope].children :: c in todo || waiting == Some(c)
       case OnFibers(terminated, _) => terminated || t[scope].children == []
       case Finalizing(terminated, _) => terminated || t[scope].children == []
  }

  predicate WorkersOk(w: World) {
    && (forall s <- w.workers :: WorkerOk(w.t, s, w.workers[s]))
    && (forall s <- w.t :: w.t[s].state == Disposing ==> s in w.workers)
  }

  predicate DoneOk(w: World) {
    && (forall s <- w.done :: if w.done[s] == Incomplete then s in w.t && w.t[s].state == Terminated else s < w.next && !Live(w.t, s))
    && (forall s: ScopeId :: s < w.next && (s in w.t ==> w.t[s].state == Disposed || w.t[s].state == Terminated) ==> s in w.done)
  }

  predicate LineageOk(w: World) {
    && (forall s <- w.t :: s != ROOT ==> s in w.lineage && w.t[s].parent == Some(w.lineage[s]))
    && (forall s <- w.lineage :: w.lineage[s] < s < w.next)
  }

  ghost predicate DepthOk(t: Arena, maxDepth: nat)
    requires Parented(t)
  {
    forall id :: Live(t, id) ==> Depth(t, id) <= maxDepth
  }

  ghost predicate Inv(w: World, maxDepth: nat) {
    && TreeOk(w.t, w.next) && WorkersOk(w) && DoneOk(w) && LineageOk(w)
    && Parented(w.t) && DepthOk(w.t, maxDepth)
  }

  // ---- Depth

  lemma ParentIsLive(t: Arena, next: ScopeId, id: ScopeId)
    requires TreeOk(t, next) && Live(t, id) && id != ROOT
    ensures t[id].parent.Some? && Live(t, t[id].parent.value) && id in t[t[id].parent.value].children
  {
    assert RecordOk(t, id);
    assert RecordOk(t, t[id].parent.value);
  }

  /** Parents of live scopes stay, or are skipped by the reload: then depth cannot grow. */
  lemma {:induction false} DepthShrinks(t: Arena, u: Arena, next: ScopeId, id: ScopeId)
    requires TreeOk(t, next) && Parented(t) && Parented(u) && Live(t, id)
    requires forall x :: Live(t, x) ==> x in u && (u[x].parent == t[x].parent || Skips(t, u[x].parent, x))
    ensures Depth(u, id) <= Depth(t, id)
    decreases id
  {
    if id != ROOT {
      ParentIsLive(t, next, id);
      var parent := t[id].parent.value;
      DepthShrinks(t, u, next, parent);
      if u[id].parent != t[id].parent {
        ParentIsLive(t, next, parent);
        DepthShrinks(t, u, next, t[parent].parent.value);
      }
    } else {
      assert RecordOk(t, ROOT);
      assert t[ROOT].parent == None;
    }
  }

  /** The grandparent. */
  predicate Skips(t: Arena, parent: Option<ScopeId>, id: ScopeId) {
    && id in t && t[id].parent.Some? && t[id].parent.value in t && t[id].parent.value != ROOT
    && parent == t[t[id].parent.value].parent
  }

  lemma DepthKept(t: Arena, u: Arena, next: ScopeId, maxDepth: nat)
    requires TreeOk(t, next) && Parented(t) && DepthOk(t, maxDepth) && Parented(u)
    requires forall x :: Live(u, x) ==> Live(t, x)
    requires forall x :: Live(t, x) ==> x in u && (u[x].parent == t[x].parent || Skips(t, u[x].parent, x))
    ensures DepthOk(u, maxDepth)
  {
    forall id | Live(u, id) ensures Depth(u, id) <= maxDepth {
      DepthShrinks(t, u, next, id);
    }
  }

  lemma {:induction false} DepthCreated(t: Arena, next: ScopeId, parent: ScopeId, id: ScopeId)
    requires TreeOk(t, next) && Parented(t) && parent in t && id < next && Parented(Created(t, parent, next))
    ensures Depth(Created(t, parent, next), id) == Depth(t, id)
    decreases id
  {
    if id in t && t[id].parent.Some? { DepthCreated(t, next, parent, t[id].parent.value); }
  }

  // ---- What a step may do to the records -----------------------------------------------------------

  /** Ends are neither made nor undone, only ends are reclaimed, and what is new is active. */
  predicate SameEnds(t: Arena, next: ScopeId, u: Arena, after: ScopeId) {
    && (forall s <- t :: if s in u then (u[s].state == Disposed <==> t[s].state == Disposed) && (u[s].state == Terminated <==> t[s].state == Terminated)
                         else t[s].state == Disposed)
    && (forall s <- u :: s !in t ==> next <= s && u[s].state == Active)
    && next <= after && (forall s: ScopeId :: next <= s < after ==> s in u)
  }

  /** A scope under disposal only loses children. */
  predicate Narrows(t: Arena, u: Arena, s: ScopeId) {
    s in t && s in u && u[s].state == t[s].state && forall c <- u[s].children :: c in t[s].children
  }

  predicate NarrowsAll(t: Arena, u: Arena) {
    && (forall s <- t :: t[s].state == Disposing ==> Narrows(t, u, s))
    && (forall s <- u :: u[s].state == Disposing ==> s in t && t[s].state == Disposing)
  }

  ghost predicate KeepsParents(t: Arena, u: Arena) {
    forall x :: Live(t, x) ==> x in u && (u[x].parent == t[x].parent || Skips(t, u[x].parent, x))
  }

  lemma NoneFromNone(s: seq<ScopeId>, r: seq<ScopeId>)
    ensures s == [] && (forall c <- r :: c in s) ==> r == []
  {
    if r != [] { assert r[0] in r; }
  }

  lemma WorkersKept(w: World, n: World)
    requires WorkersOk(w) && NarrowsAll(w.t, n.t) && n.workers == w.workers
    ensures WorkersOk(n)
  {
    forall s | s in n.workers ensures WorkerOk(n.t, s, n.workers[s]) {
      assert WorkerOk(w.t, s, w.workers[s]);
      assert Narrows(w.t, n.t, s);
      NoneFromNone(w.t[s].children, n.t[s].children);
    }
  }

  lemma DoneKept(w: World, n: World)
    requires DoneOk(w) && SameEnds(w.t, w.next, n.t, n.next) && n.done == w.done && forall s <- w.t :: s < w.next
    ensures DoneOk(n)
  {
  }

  /** A step on the tree keeps everything if it keeps the tree and disturbs no disposal. */
  lemma QuietInv(w: World, n: World, maxDepth: nat)
    requires Inv(w, maxDepth) && TreeOk(n.t, n.next) && LineageOk(n)
    requires SameEnds(w.t, w.next, n.t, n.next) && NarrowsAll(w.t, n.t) && n.done == w.done && n.workers == w.workers
    requires Parented(n.t) ==> DepthOk(n.t, maxDepth)
    ensures Inv(n, maxDepth)
  {
    TreeIsParented(n.t, n.next);
    WorkersKept(w, n);
    DoneKept(w, n);
  }

  // ---- Steps on the tree

  lemma CreateFrame(t: Arena, next: ScopeId, parent: ScopeId)
    requires parent in t && t[parent].state == Active && next !in t
    ensures var u := Created(t, parent, next); SameEnds(t, next, u, next + 1) && NarrowsAll(t, u)
  {
  }

  lemma CreateDepth(t: Arena, next: ScopeId, parent: ScopeId, maxDepth: nat)
    requires TreeOk(t, next) && Parented(t) && parent in t && 1 + Depth(t, parent) <= maxDepth && DepthOk(t, maxDepth)
    requires Parented(Created(t, parent, next))
    ensures DepthOk(Created(t, parent, next), maxDepth)
  {
    var u := Created(t, parent, next);
    forall id | Live(u, id) ensures Depth(u, id) <= maxDepth {
      DepthCreated(t, next, parent, parent);
      if id != next {
        DepthCreated(t, next, parent, id);
        assert Live(t, id);
      }
    }
  }

  lemma CreateLineage(w: World, parent: ScopeId, n: World)
    requires LineageOk(w) && parent in w.t && parent < w.next
    requires n == w.(t := Created(w.t, parent, w.next), next := w.next + 1, lineage := w.lineage[w.next := parent])
    ensures LineageOk(n)
  {
  }

  lemma CreateInv(w: World, parent: ScopeId, n: World, maxScopes: nat, maxDepth: nat)
    requires Inv(w, maxDepth) && NextTree(w, Create(parent), n, maxScopes, maxDepth)
    ensures Inv(n, maxDepth)
  {
    assert w.next !in w.t;
    CreateTree(w.t, w.next, parent);
    CreateFrame(w.t, w.next, parent);
    TreeIsParented(n.t, n.next);
    CreateDepth(w.t, w.next, parent, maxDepth);
    CreateLineage(w, parent, n);
    QuietInv(w, n, maxDepth);
  }

  lemma FibersInv(w: World, scope: ScopeId, fibers: seq<FiberId>, n: World, maxDepth: nat)
    requires Inv(w, maxDepth) && scope in w.t && n == w.(t := w.t[scope := w.t[scope].(fibers := fibers)])
    ensures Inv(n, maxDepth)
  {
    FibersTree(w.t, w.next, scope, fibers);
    TreeIsParented(n.t, n.next);
    DepthKept(w.t, n.t, w.next, maxDepth);
    QuietInv(w, n, maxDepth);
  }

  lemma FibersTree(t: Arena, next: ScopeId, scope: ScopeId, fibers: seq<FiberId>)
    requires TreeOk(t, next) && scope in t
    ensures var u := t[scope := t[scope].(fibers := fibers)];
            TreeOk(u, next) && SameEnds(t, next, u, next) && NarrowsAll(t, u) && KeepsParents(t, u)
  {
    var u := t[scope := t[scope].(fibers := fibers)];
    forall id | id in u ensures id < next && RecordOk(u, id) {
      assert RecordOk(t, id);
    }
  }

  lemma ReloadFrame(t: Arena, next: ScopeId, p: ScopeRevision)
    requires TreeOk(t, next) && Staged(t, p)
    ensures var u := ScopesMoved(t, p); SameEnds(t, next, u, next) && NarrowsAll(t, u) && KeepsParents(t, u)
  {
    ReloadParents(t, next, p);
    var u := ScopesMoved(t, p);
    assert forall s <- t :: s in u && u[s].state == t[s].state;
    assert forall s <- t :: s != p.staging && s != p.target ==> u[s].children == t[s].children;
  }

  lemma ReloadParents(t: Arena, next: ScopeId, p: ScopeRevision)
    requires TreeOk(t, next) && Staged(t, p)
    ensures KeepsParents(t, ScopesMoved(t, p))
  {
    var u := ScopesMoved(t, p);
    assert RecordOk(t, p.staging);
    forall x | Live(t, x) ensures x in u && (u[x].parent == t[x].parent || Skips(t, u[x].parent, x)) {
      if x in p.children { assert t[x].parent == Some(p.staging); }
    }
  }

  lemma ReloadLineage(w: World, p: ScopeRevision, n: World)
    requires LineageOk(w) && TreeOk(w.t, w.next) && Staged(w.t, p)
    requires n == w.(t := ScopesMoved(w.t, p), lineage := Moved(w.lineage, p))
    ensures LineageOk(n)
  {
    assert RecordOk(w.t, p.staging);
    forall s | s in n.lineage ensures n.lineage[s] < s < n.next {
      if s in p.children {
        assert w.t[s].parent == Some(p.staging) && w.t[p.staging].parent == Some(p.target);
        assert RecordOk(w.t, s);
      }
    }
  }

  lemma ReloadInv(w: World, p: ScopeRevision, n: World, maxDepth: nat)
    requires Inv(w, maxDepth) && Staged(w.t, p) && n == w.(t := ScopesMoved(w.t, p), lineage := Moved(w.lineage, p))
    ensures Inv(n, maxDepth)
  {
    MoveTree(w.t, w.next, p);
    TreeIsParented(n.t, n.next);
    ReloadFrame(w.t, w.next, p);
    ReloadLineage(w, p, n);
    DepthKept(w.t, n.t, w.next, maxDepth);
    QuietInv(w, n, maxDepth);
  }

  lemma SameFrame(t: Arena, u: Arena, next: ScopeId)
    requires SameScopes(t, u)
    ensures SameEnds(t, next, u, next) && NarrowsAll(t, u) && KeepsParents(t, u)
  {
    forall s | s in t ensures SameScope(t[s], u[s]) && forall c <- u[s].children :: c in t[s].children {
      assert SameScope(t[s], u[s]);
      SameList(t[s].children, u[s].children);
    }
  }

  lemma UndoneInv(w: World, p: ScopeRevision, n: World, maxDepth: nat)
    requires Inv(w, maxDepth) && Staged(w.t, p) && n == w.(t := ScopesBack(ScopesMoved(w.t, p), p))
    ensures Inv(n, maxDepth)
  {
    assert RecordOk(w.t, p.staging);
    ScopesRollbackRestores(w.t, p);
    SameTree(w.t, n.t, w.next);
    SameFrame(w.t, n.t, w.next);
    TreeIsParented(n.t, n.next);
    DepthKept(w.t, n.t, w.next, maxDepth);
    assert LineageOk(n) by { forall id | id in n.t ensures n.t[id].parent == w.t[id].parent { assert SameScope(w.t[id], n.t[id]); } }
    QuietInv(w, n, maxDepth);
  }

  lemma CollectFrame(t: Arena, next: ScopeId, gone: set<FiberId>)
    ensures var u := Reclaimed(Detached(t, gone), ROOT); SameEnds(t, next, u, next) && NarrowsAll(t, u) && KeepsParents(t, u)
  {
  }

  lemma CollectInv(w: World, gone: set<FiberId>, n: World, maxDepth: nat)
    requires Inv(w, maxDepth) && n == w.(t := Reclaimed(Detached(w.t, gone), ROOT))
    ensures Inv(n, maxDepth)
  {
    CollectTree(w.t, w.next, gone);
    CollectFrame(w.t, w.next, gone);
    TreeIsParented(n.t, n.next);
    DepthKept(w.t, n.t, w.next, maxDepth);
    assert LineageOk(n);
    QuietInv(w, n, maxDepth);
  }

  lemma NextTreeInv(w: World, a: Step, n: World, maxScopes: nat, maxDepth: nat)
    requires Inv(w, maxDepth) && NextTree(w, a, n, maxScopes, maxDepth)
    ensures Inv(n, maxDepth)
  {
    match a {
      case Create(parent) => CreateInv(w, parent, n, maxScopes, maxDepth);
      case SetFibers(scope, fibers) => FibersInv(w, scope, fibers, n, maxDepth);
      case Reload(p) => ReloadInv(w, p, n, maxDepth);
      case ReloadUndone(p) => UndoneInv(w, p, n, maxDepth);
      case Collect(gone) => CollectInv(w, gone, n, maxDepth);
    }
  }

  // ---- Steps of the disposals

  lemma BeginTree(t: Arena, next: ScopeId, scope: ScopeId)
    requires TreeOk(t, next) && scope in t && t[scope].state == Active
    ensures var u := t[scope := t[scope].(state := Disposing)];
            TreeOk(u, next) && SameEnds(t, next, u, next) && KeepsParents(t, u)
  {
    var u := t[scope := t[scope].(state := Disposing)];
    forall id | id in u ensures id < next && RecordOk(u, id) {
      assert RecordOk(t, id);
    }
  }

  lemma BeginWorkers(w: World, scope: ScopeId)
    requires WorkersOk(w) && scope in w.t && w.t[scope].state == Active
    ensures WorkersOk(Begin(w, scope))
  {
    var n := Begin(w, scope);
    forall s | s in n.workers ensures WorkerOk(n.t, s, n.workers[s]) {
      if s != scope { assert WorkerOk(w.t, s, w.workers[s]); }
    }
  }

  lemma BeginInv(w: World, scope: ScopeId, maxDepth: nat)
    requires Inv(w, maxDepth) && scope in w.t && w.t[scope].state == Active
    ensures Inv(Begin(w, scope), maxDepth)
  {
    var n := Begin(w, scope);
    BeginTree(w.t, w.next, scope);
    BeginWorkers(w, scope);
    DoneKept(w, n);
    TreeIsParented(n.t, n.next);
    DepthKept(w.t, n.t, w.next, maxDepth);
  }

  lemma WorkInv(w: World, scope: ScopeId, k: Worker, maxDepth: nat)
    requires Inv(w, maxDepth) && WorkerOk(w.t, scope, k)
    ensures Inv(Work(w, scope, k), maxDepth)
  {
    var n := Work(w, scope, k);
    forall s | s in n.workers ensures WorkerOk(n.t, s, n.workers[s]) {
      if s != scope { assert WorkerOk(w.t, s, w.workers[s]); }
    }
  }

  lemma VisitWorker(t: Arena, scope: ScopeId, k: Worker, child: ScopeId, rest: seq<ScopeId>)
    requires WorkerOk(t, scope, k) && k.Traversing? && k.waiting == None && k.todo == rest + [child]
    ensures WorkerOk(t, scope, Traversing(rest, Some(child), k.terminated, k.issues))
    ensures WorkerOk(t, scope, Traversing(rest, None, true, true))
  {
  }

  lemma OtherBegins(t: Arena, scope: ScopeId, k: Worker, child: ScopeId)
    requires WorkerOk(t, scope, k) && child in t && t[child].state == Active
    ensures WorkerOk(t[child := t[child].(state := Disposing)], scope, k)
  {
  }

  lemma VisitInv(w: World, scope: ScopeId, n: World, maxDepth: nat)
    requires Inv(w, maxDepth) && NextDisposal(w, Visit(scope), n)
    ensures Inv(n, maxDepth)
  {
    var k := w.workers[scope];
    var child, rest := k.todo[|k.todo| - 1], k.todo[..|k.todo| - 1];
    assert k.todo == rest + [child];
    assert WorkerOk(w.t, scope, k);
    var b := w;
    if child in w.t && w.t[child].state == Active {
      BeginInv(w, child, maxDepth);
      b := Begin(w, child);
      OtherBegins(w.t, scope, k, child);
    }
    VisitWorker(b.t, scope, k, child, rest);
    WorkInv(b, scope, n.workers[scope], maxDepth);
  }

  /** A child whose end was observed without a doubt is on the list no more. */
  lemma ObserveInv(w: World, scope: ScopeId, n: World, maxDepth: nat)
    requires Inv(w, maxDepth) && NextDisposal(w, Observe(scope), n)
    ensures Inv(n, maxDepth)
  {
    var k := w.workers[scope];
    assert WorkerOk(w.t, scope, k);
    assert RecordOk(w.t, scope);
    WorkInv(w, scope, n.workers[scope], maxDepth);
  }

  lemma FinalizeFrame(t: Arena, scope: ScopeId, terminated: bool)
    requires scope in t && t[scope].state == Disposing
    ensures var u := Finalized(t, scope, terminated);
            && u.Keys == t.Keys && u[scope].state == (if terminated then Terminated else Disposed)
            && forall s <- t :: u[s].parent == t[s].parent
                 && (s != scope ==> u[s].state == t[s].state && forall c <- u[s].children :: c in t[s].children)
  {
  }

  lemma FinalizeWorkers(w: World, scope: ScopeId, n: World)
    requires WorkersOk(w) && NextDisposal(w, Finalize(scope), n)
    ensures WorkersOk(n) && DoneFinalized(w, scope, n)
  {
    var k := w.workers[scope];
    assert WorkerOk(w.t, scope, k);
    FinalizeFrame(w.t, scope, k.terminated);
    forall s | s in n.workers ensures WorkerOk(n.t, s, n.workers[s]) {
      assert WorkerOk(w.t, s, w.workers[s]);
      NoneFromNone(w.t[s].children, n.t[s].children);
    }
  }

  predicate DoneFinalized(w: World, scope: ScopeId, n: World) {
    DoneOk(w) && scope < w.next ==> DoneOk(n)
  }

  lemma FinalizeInv(w: World, scope: ScopeId, n: World, maxDepth: nat)
    requires Inv(w, maxDepth) && NextDisposal(w, Finalize(scope), n)
    ensures Inv(n, maxDepth)
  {
    var k := w.workers[scope];
    assert WorkerOk(w.t, scope, k);
    FinalizeTree(w.t, w.next, scope, k.terminated);
    FinalizeWorkers(w, scope, n);
    FinalizeFrame(w.t, scope, k.terminated);
    TreeIsParented(n.t, n.next);
    assert KeepsParents(w.t, n.t);
    DepthKept(w.t, n.t, w.next, maxDepth);
  }

  lemma WorkerStepInv(w: World, a: Step, n: World, scope: ScopeId, maxDepth: nat)
    requires Inv(w, maxDepth) && NextDisposal(w, a, n)
    requires a == Snapshot(scope) || a == ChildrenDone(scope) || (a.FibersDone? && a.scope == scope) || a == Die(scope)
    ensures Inv(n, maxDepth)
  {
    assert WorkerOk(w.t, scope, w.workers[scope]);
    var k := n.workers[scope];
    NoneFromNone([], w.t[scope].children);
    WorkInv(w, scope, k, maxDepth);
  }

  lemma NextDisposalInv(w: World, a: Step, n: World, maxDepth: nat)
    requires Inv(w, maxDepth) && NextDisposal(w, a, n)
    ensures Inv(n, maxDepth)
  {
    match a {
      case Dispose(scope) => BeginInv(w, scope, maxDepth);
      case Visit(scope) => VisitInv(w, scope, n, maxDepth);
      case Observe(scope) => ObserveInv(w, scope, n, maxDepth);
      case Finalize(scope) => FinalizeInv(w, scope, n, maxDepth);
      case Snapshot(scope) => WorkerStepInv(w, a, n, scope, maxDepth);
      case ChildrenDone(scope) => WorkerStepInv(w, a, n, scope, maxDepth);
      case FibersDone(scope, _, _) => WorkerStepInv(w, a, n, scope, maxDepth);
      case Die(scope) => WorkerStepInv(w, a, n, scope, maxDepth);
    }
  }

  // ---- Runs ----------------------------------------------------------------------------------------

  datatype Bounds = Bounds(maxScopes: nat, maxDepth: nat)

  predicate Linked(run: seq<World>, steps: seq<Step>, b: Bounds, i: nat) {
    i < |steps| && |run| == |steps| + 1 ==> Next(run[i], steps[i], run[i + 1], b.maxScopes, b.maxDepth)
  }

  ghost predicate Run(run: seq<World>, steps: seq<Step>, b: Bounds) {
    |run| == |steps| + 1 && Init(run[0]) && forall i :: Linked(run, steps, b, i)
  }

  lemma NextInv(w: World, a: Step, n: World, b: Bounds)
    requires Inv(w, b.maxDepth) && Next(w, a, n, b.maxScopes, b.maxDepth)
    ensures Inv(n, b.maxDepth)
  {
    if NextTree(w, a, n, b.maxScopes, b.maxDepth) {
      NextTreeInv(w, a, n, b.maxScopes, b.maxDepth);
    } else {
      NextDisposalInv(w, a, n, b.maxDepth);
    }
  }

  lemma InvAfter(run: seq<World>, steps: seq<Step>, b: Bounds, i: nat)
    requires Run(run, steps, b) && i < |steps| && Inv(run[i], b.maxDepth)
    ensures Inv(run[i + 1], b.maxDepth)
  {
    assert Linked(run, steps, b, i);
    NextInv(run[i], steps[i], run[i + 1], b);
  }

  lemma InitInv(w: World, maxDepth: nat)
    requires Init(w)
    ensures Inv(w, maxDepth)
  {
    assert RecordOk(w.t, ROOT);
  }

  lemma {:induction false} RunInv(run: seq<World>, steps: seq<Step>, b: Bounds, i: nat)
    requires Run(run, steps, b) && i < |run|
    ensures Inv(run[i], b.maxDepth)
  {
    if i == 0 {
      InitInv(run[0], b.maxDepth);
    } else {
      RunInv(run, steps, b, i - 1);
      InvAfter(run, steps, b, i - 1);
    }
  }

  /** In every reachable state every scope that is not disposed climbs, through scopes that are not
      disposed either, to the root; is listed by its parent, once; and is no deeper than allowed. */
  lemma TreeHolds(run: seq<World>, steps: seq<Step>, b: Bounds, i: nat, id: ScopeId)
    requires Run(run, steps, b) && i < |run| && Live(run[i].t, id)
    ensures var t := run[i].t;
            && Parented(t) && LeafToRoot(t, id).Ok?
            && var path := LeafToRoot(t, id).value;
               && Climbs(t, path) && path[0] == id && path[|path| - 1] == ROOT && |path| <= b.maxDepth + 1
               && (forall a <- path :: Live(t, a))
               && (id != ROOT ==> |path| > 1 && multiset(t[path[1]].children)[id] == 1)
  {
    RunInv(run, steps, b, i);
    var w := run[i];
    LivePath(w.t, w.next, id);
    PathClimbs(w.t, id);
    if id != ROOT {
      ParentIsLive(w.t, w.next, id);
      assert RecordOk(w.t, w.t[id].parent.value);
      DistinctCounts(w.t[w.t[id].parent.value].children);
    }
  }

  lemma {:induction false} LivePath(t: Arena, next: ScopeId, id: ScopeId)
    requires TreeOk(t, next) && Parented(t) && Live(t, id)
    ensures LeafToRoot(t, id).Ok?
    ensures var path := LeafToRoot(t, id).value;
            |path| > 0 && path[|path| - 1] == ROOT && forall a <- path :: Live(t, a)
    decreases id
  {
    assert RecordOk(t, id);
    if id != ROOT {
      ParentIsLive(t, next, id);
      LivePath(t, next, t[id].parent.value);
    }
  }

  /** Below, by the last parent each scope ever had. */
  predicate Below(lineage: map<ScopeId, ScopeId>, c: ScopeId, s: ScopeId)
    requires forall x <- lineage :: lineage[x] < x
    decreases c
  {
    c in lineage && (lineage[c] == s || Below(lineage, lineage[c], s))
  }

  lemma {:induction false} DeadAbove(w: World, maxDepth: nat, s: ScopeId, c: ScopeId)
    requires Inv(w, maxDepth) && s < w.next && !Live(w.t, s) && Below(w.lineage, c, s)
    ensures !Live(w.t, c)
    decreases c
  {
    var parent := w.lineage[c];
    if parent != s { DeadAbove(w, maxDepth, s, parent); }
    if Live(w.t, c) {
      if c == ROOT { assert false; }
      ParentIsLive(w.t, w.next, c);
      assert false;
    }
  }

  /** A scope is disposed, or reclaimed, only when everything below it is: in every state of every
      run, however disposals, creations and reloads interleave. */
  lemma DisposedOnlyBelowDisposed(run: seq<World>, steps: seq<Step>, b: Bounds, i: nat, s: ScopeId, c: ScopeId)
    requires Run(run, steps, b) && i < |run|
    requires s < run[i].next && !Live(run[i].t, s)
    ensures (forall x <- run[i].lineage :: run[i].lineage[x] < x) && (Below(run[i].lineage, c, s) ==> !Live(run[i].t, c))
  {
    RunInv(run, steps, b, i);
    if Below(run[i].lineage, c, s) { DeadAbove(run[i], b.maxDepth, s, c); }
  }

  lemma MovedKeepsStates(t: Arena, p: ScopeRevision, c: ScopeId)
    requires c in t
    ensures ScopesMoved(t, p)[c].state == t[c].state && ScopesBack(ScopesMoved(t, p), p)[c].state == t[c].state
  {
  }

  lemma TreeStepKeepsTerminated(w: World, a: Step, n: World, b: Bounds, c: ScopeId)
    requires NextTree(w, a, n, b.maxScopes, b.maxDepth) && c in w.t && w.t[c].state == Terminated && c < w.next
    ensures c in n.t && n.t[c].state == Terminated && n.done == w.done
  {
    if a.Reload? || a.ReloadUndone? { MovedKeepsStates(w.t, a.p, c); }
  }

  lemma FinalizeKeepsEnds(w: World, scope: ScopeId, n: World)
    requires WorkersOk(w) && DoneOk(w) && NextDisposal(w, Finalize(scope), n)
    ensures forall c <- w.t :: w.t[c].state == Terminated ==> c in n.t && n.t[c].state == Terminated
    ensures forall s <- w.done :: s in n.done && n.done[s] == w.done[s]
  {
    assert WorkerOk(w.t, scope, w.workers[scope]);
    FinalizeFrame(w.t, scope, w.workers[scope].terminated);
  }

  lemma DisposalStepKeepsEnds(w: World, a: Step, n: World, maxDepth: nat)
    requires WorkersOk(w) && DoneOk(w) && NextDisposal(w, a, n)
    ensures forall c <- w.t :: w.t[c].state == Terminated ==> c in n.t && n.t[c].state == Terminated
    ensures forall s <- w.done :: s in n.done && n.done[s] == w.done[s]
  {
    if a.Finalize? {
      FinalizeKeepsEnds(w, a.scope, n);
    } else {
      assert n.done == w.done;
    }
  }

  lemma EndsStay(run: seq<World>, steps: seq<Step>, b: Bounds, i: nat)
    requires Run(run, steps, b) && i < |steps|
    ensures forall c <- run[i].t :: run[i].t[c].state == Terminated ==> c in run[i + 1].t && run[i + 1].t[c].state == Terminated
    ensures forall s <- run[i].done :: s in run[i + 1].done && run[i + 1].done[s] == run[i].done[s]
  {
    RunInv(run, steps, b, i);
    assert Linked(run, steps, b, i);
    var w, a, n := run[i], steps[i], run[i + 1];
    if NextTree(w, a, n, b.maxScopes, b.maxDepth) {
      forall c | c in w.t && w.t[c].state == Terminated ensures c in n.t && n.t[c].state == Terminated {
        TreeStepKeepsTerminated(w, a, n, b, c);
      }
    } else {
      DisposalStepKeepsEnds(w, a, n, b.maxDepth);
    }
  }

  lemma {:induction false} TerminatedStays(run: seq<World>, steps: seq<Step>, b: Bounds, i: nat, j: nat, c: ScopeId)
    requires Run(run, steps, b) && i <= j < |run| && c in run[i].t && run[i].t[c].state == Terminated
    ensures c in run[j].t && run[j].t[c].state == Terminated
    decreases j
  {
    if i < j {
      TerminatedStays(run, steps, b, i, j - 1, c);
      EndsStay(run, steps, b, j - 1);
    }
  }

  lemma LiveAncestors(w: World, maxDepth: nat, c: ScopeId)
    requires Inv(w, maxDepth) && Live(w.t, c)
    ensures LeafToRoot(w.t, c).Ok? && forall a <- LeafToRoot(w.t, c).value :: Live(w.t, a)
  {
    LivePath(w.t, w.next, c);
  }

  /** A scope that terminates stays so, and whatever is above it is never disposed again. */
  lemma TerminatedBlocksAncestors(run: seq<World>, steps: seq<Step>, b: Bounds, i: nat, j: nat, c: ScopeId)
    requires Run(run, steps, b) && i <= j < |run| && c in run[i].t && run[i].t[c].state == Terminated
    ensures var t := run[j].t;
            && c in t && t[c].state == Terminated
            && Parented(t) && LeafToRoot(t, c).Ok? && forall a <- LeafToRoot(t, c).value :: Live(t, a)
  {
    TerminatedStays(run, steps, b, i, j, c);
    RunInv(run, steps, b, j);
    LiveAncestors(run[j], b.maxDepth, c);
  }

  lemma FinalizeOutcome(w: World, s: ScopeId, n: World, c: ScopeId, maxDepth: nat)
    requires Inv(w, maxDepth) && NextDisposal(w, Finalize(s), n) && Live(w.t, c) && c != ROOT && w.t[c].parent == Some(s)
    ensures s in n.t && n.t[s].state == Terminated && s in n.done && n.done[s] == Incomplete
  {
    assert WorkerOk(w.t, s, w.workers[s]);
    ParentIsLive(w.t, w.next, c);
  }

  /** The end of a disposal: with a scope still there below, it is termination, and incomplete is
      what the waiters are told. */
  lemma LiveChildTerminatesParent(run: seq<World>, steps: seq<Step>, b: Bounds, i: nat, c: ScopeId)
    requires Run(run, steps, b) && i < |steps| && steps[i].Finalize?
    requires Live(run[i].t, c) && c != ROOT && run[i].t[c].parent == Some(steps[i].scope)
    ensures var s, n := steps[i].scope, run[i + 1];
            s in n.t && n.t[s].state == Terminated && s in n.done && n.done[s] == Incomplete
  {
    RunInv(run, steps, b, i);
    assert Linked(run, steps, b, i);
    FinalizeOutcome(run[i], steps[i].scope, run[i + 1], c, b.maxDepth);
  }

  lemma OutcomeHolds(w: World, maxDepth: nat, s: ScopeId)
    requires Inv(w, maxDepth) && s in w.done
    ensures if w.done[s] == Incomplete then s in w.t && w.t[s].state == Terminated else !Live(w.t, s)
  {
  }

  lemma {:induction false} OutcomeStays(run: seq<World>, steps: seq<Step>, b: Bounds, i: nat, j: nat, s: ScopeId)
    requires Run(run, steps, b) && i <= j < |run| && s in run[i].done
    ensures s in run[j].done && run[j].done[s] == run[i].done[s]
    decreases j
  {
    if i < j {
      OutcomeStays(run, steps, b, i, j - 1, s);
      EndsStay(run, steps, b, j - 1);
    }
  }

  /** A published outcome is final and true: clean and with issues mean disposed for good. */
  lemma OutcomeIsTruth(run: seq<World>, steps: seq<Step>, b: Bounds, i: nat, j: nat, s: ScopeId)
    requires Run(run, steps, b) && i <= j < |run| && s in run[i].done
    ensures s in run[j].done && run[j].done[s] == run[i].done[s]
    ensures if run[i].done[s] == Incomplete then s in run[j].t && run[j].t[s].state == Terminated else !Live(run[j].t, s)
  {
    OutcomeStays(run, steps, b, i, j, s);
    RunInv(run, steps, b, j);
    OutcomeHolds(run[j], b.maxDepth, s);
  }

  // ---- Exactly when a disposal terminates, and what it publishes -------------------------------------

  /** A step of the disposal of `scope` that spoils it: it dies, a fiber is not committed, or a child
      of its snapshot is, at its visit, missing from the arena, or observed incomplete, or observed
      with issues and not disposed. */
  predicate Spoils(w: World, a: Step, scope: ScopeId) {
    match a
    case Die(s) => s == scope
    case FibersDone(s, terminated, _) => s == scope && terminated
    case Visit(s) => s == scope && Visiting(w, s) && w.workers[s].todo[|w.workers[s].todo| - 1] !in w.t
    case Observe(s) => s == scope && Observing(w, s) && !SoundEnd(w, w.workers[s].waiting.value)
    case _ => false
  }

  /** A step of the disposal of `scope` that reports something: it dies, a fiber ends otherwise than
      well, or a child of its snapshot is missing at its visit, or observed to have ended otherwise
      than clean. */
  predicate Reports(w: World, a: Step, scope: ScopeId) {
    match a
    case Die(s) => s == scope
    case FibersDone(s, terminated, issues) => s == scope && (terminated || issues)
    case Visit(s) => s == scope && Visiting(w, s) && w.workers[s].todo[|w.workers[s].todo| - 1] !in w.t
    case Observe(s) => s == scope && Observing(w, s) && w.done[w.workers[s].waiting.value] != Clean
    case _ => false
  }

  /** The grave reports spoil the disposal, the others do not. */
  predicate Tells(w: World, a: Step, scope: ScopeId, grave: bool) {
    if grave then Spoils(w, a, scope) else Reports(w, a, scope)
  }

  predicate Visiting(w: World, scope: ScopeId) {
    scope in w.workers && w.workers[scope].Traversing? && w.workers[scope].todo != []
  }

  predicate Observing(w: World, scope: ScopeId) {
    && scope in w.workers && w.workers[scope].Traversing? && w.workers[scope].waiting.Some?
    && w.workers[scope].waiting.value in w.done
  }

  predicate SoundEnd(w: World, child: ScopeId)
    requires child in w.done
  {
    || w.done[child] == Clean
    || (w.done[child] == WithIssues && child in w.t && w.t[child].state == Disposed)
  }

  predicate Told(k: Worker, grave: bool) {
    !k.Starting? && if grave then k.terminated else k.issues
  }

  /** A disposal knows what it has been told; one that has not begun cannot have been told anything. */
  predicate ToldIs(w: World, scope: ScopeId, grave: bool, told: bool) {
    && (scope in w.workers ==> (Told(w.workers[scope], grave) <==> told))
    && (scope !in w.workers && scope !in w.done ==> !told)
  }

  lemma TellTree(w: World, a: Step, n: World, scope: ScopeId, grave: bool, told: bool, b: Bounds)
    requires ToldIs(w, scope, grave, told) && NextTree(w, a, n, b.maxScopes, b.maxDepth)
    ensures ToldIs(n, scope, grave, told) && !Tells(w, a, scope, grave)
  {
  }

  /** Who works, or has ended, is not active. */
  predicate Apart(w: World, scope: ScopeId) {
    scope in w.t && w.t[scope].state == Active ==> scope !in w.workers && scope !in w.done
  }

  lemma TellBegin(w: World, scope: ScopeId, child: ScopeId, grave: bool, told: bool)
    requires ToldIs(w, scope, grave, told) && Apart(w, child) && child in w.t && w.t[child].state == Active
    ensures ToldIs(Begin(w, child), scope, grave, told)
  {
  }

  lemma TellWork(w: World, s: ScopeId, k: Worker, scope: ScopeId, grave: bool, told: bool, now: bool)
    requires s in w.workers && ToldIs(w, scope, grave, told) && (s == scope ==> (Told(k, grave) <==> Told(w.workers[s], grave) || now))
    requires now ==> s == scope
    ensures ToldIs(Work(w, s, k), scope, grave, told || now)
  {
  }

  lemma TellVisit(w: World, s: ScopeId, n: World, scope: ScopeId, grave: bool, told: bool)
    requires ToldIs(w, scope, grave, told) && NextDisposal(w, Visit(s), n)
    requires var todo := w.workers[s].todo; Apart(w, todo[|todo| - 1])
    ensures ToldIs(n, scope, grave, told || Tells(w, Visit(s), scope, grave))
  {
    var child := w.workers[s].todo[|w.workers[s].todo| - 1];
    if child in w.t && w.t[child].state == Active {
      TellBegin(w, scope, child, grave, told);
      assert child != s;
      TellWork(Begin(w, child), s, n.workers[s], scope, grave, told, false);
    }
  }

  lemma AreApart(w: World, s: ScopeId, maxDepth: nat)
    requires Inv(w, maxDepth)
    ensures Apart(w, s)
  {
    if s in w.workers { assert WorkerOk(w.t, s, w.workers[s]); }
  }

  lemma TellDisposal(w: World, a: Step, n: World, scope: ScopeId, grave: bool, told: bool, maxDepth: nat)
    requires Inv(w, maxDepth) && ToldIs(w, scope, grave, told) && NextDisposal(w, a, n)
    ensures ToldIs(n, scope, grave, told || Tells(w, a, scope, grave))
  {
    match a {
      case Dispose(s) =>
        AreApart(w, s, maxDepth);
        TellBegin(w, scope, s, grave, told);
      case Visit(s) =>
        AreApart(w, w.workers[s].todo[|w.workers[s].todo| - 1], maxDepth);
        TellVisit(w, s, n, scope, grave, told);
      case Finalize(_) =>
      case _ => TellOwn(w, a, n, scope, grave, told);
    }
  }

  lemma TellOwn(w: World, a: Step, n: World, scope: ScopeId, grave: bool, told: bool)
    requires WorkersOk(w) && ToldIs(w, scope, grave, told) && NextDisposal(w, a, n) && !a.Dispose? && !a.Visit? && !a.Finalize?
    ensures ToldIs(n, scope, grave, told || Tells(w, a, scope, grave))
  {
    match a {
      case Snapshot(s) =>
        assert WorkerOk(w.t, s, w.workers[s]);
        TellWork(w, s, n.workers[s], scope, grave, told, false);
      case Observe(s) => TellWork(w, s, n.workers[s], scope, grave, told, Tells(w, a, scope, grave));
      case ChildrenDone(s) => TellWork(w, s, n.workers[s], scope, grave, told, false);
      case FibersDone(s, _, _) => TellWork(w, s, n.workers[s], scope, grave, told, Tells(w, a, scope, grave));
      case Die(s) => TellWork(w, s, n.workers[s], scope, grave, told, Tells(w, a, scope, grave));
    }
  }

  ghost predicate SpoiltBefore(run: seq<World>, steps: seq<Step>, i: nat, scope: ScopeId)
    requires i <= |steps| && |run| == |steps| + 1
  {
    exists j :: 0 <= j < i && Spoils(run[j], steps[j], scope)
  }

  ghost predicate ReportedBefore(run: seq<World>, steps: seq<Step>, i: nat, scope: ScopeId)
    requires i <= |steps| && |run| == |steps| + 1
  {
    exists j :: 0 <= j < i && Reports(run[j], steps[j], scope)
  }

  ghost predicate ToldBefore(run: seq<World>, steps: seq<Step>, i: nat, scope: ScopeId, grave: bool)
    requires i <= |steps| && |run| == |steps| + 1
  {
    exists j :: 0 <= j < i && Tells(run[j], steps[j], scope, grave)
  }

  lemma TellStep(w: World, a: Step, n: World, scope: ScopeId, grave: bool, told: bool, b: Bounds)
    requires Inv(w, b.maxDepth) && ToldIs(w, scope, grave, told) && Next(w, a, n, b.maxScopes, b.maxDepth)
    ensures ToldIs(n, scope, grave, told || Tells(w, a, scope, grave))
  {
    if NextTree(w, a, n, b.maxScopes, b.maxDepth) {
      TellTree(w, a, n, scope, grave, told, b);
    } else {
      TellDisposal(w, a, n, scope, grave, told, b.maxDepth);
    }
  }

  lemma TellStepAt(run: seq<World>, steps: seq<Step>, b: Bounds, i: nat, scope: ScopeId, grave: bool, told: bool)
    requires Run(run, steps, b) && i < |steps| && ToldIs(run[i], scope, grave, told)
    ensures ToldIs(run[i + 1], scope, grave, told || Tells(run[i], steps[i], scope, grave))
  {
    RunInv(run, steps, b, i);
    assert Linked(run, steps, b, i);
    TellStep(run[i], steps[i], run[i + 1], scope, grave, told, b);
  }

  lemma {:induction false} ToldSince(run: seq<World>, steps: seq<Step>, b: Bounds, i: nat, scope: ScopeId, grave: bool)
    requires Run(run, steps, b) && i < |run|
    ensures ToldIs(run[i], scope, grave, ToldBefore(run, steps, i, scope, grave))
  {
    if i > 0 {
      ToldSince(run, steps, b, i - 1, scope, grave);
      TellStepAt(run, steps, b, i - 1, scope, grave, ToldBefore(run, steps, i - 1, scope, grave));
      OneMoreTells(run, steps, i - 1, scope, grave);
    }
  }

  lemma OneMoreTells(run: seq<World>, steps: seq<Step>, i: nat, scope: ScopeId, grave: bool)
    requires i < |steps| && |run| == |steps| + 1
    ensures ToldBefore(run, steps, i + 1, scope, grave) <==> ToldBefore(run, steps, i, scope, grave) || Tells(run[i], steps[i], scope, grave)
  {
  }

  /** A disposal ends Terminated exactly if something spoilt it, and Disposed otherwise.  It publishes
      a clean end exactly if nothing was ever reported, an incomplete one exactly if something spoilt
      it, and an end with issues in the case between. */
  lemma TerminatedExactly(run: seq<World>, steps: seq<Step>, b: Bounds, i: nat, scope: ScopeId)
    requires Run(run, steps, b) && i < |steps| && steps[i] == Finalize(scope)
    ensures scope in run[i + 1].t && scope in run[i + 1].done
    ensures run[i + 1].t[scope].state == Terminated <==> SpoiltBefore(run, steps, i, scope)
    ensures run[i + 1].t[scope].state != Terminated ==> run[i + 1].t[scope].state == Disposed
    ensures run[i + 1].done[scope] == Incomplete <==> SpoiltBefore(run, steps, i, scope)
    ensures run[i + 1].done[scope] == WithIssues <==>
              ReportedBefore(run, steps, i, scope) && !SpoiltBefore(run, steps, i, scope)
    ensures run[i + 1].done[scope] == Clean <==> !ReportedBefore(run, steps, i, scope)
  {
    RunInv(run, steps, b, i);
    ToldSince(run, steps, b, i, scope, true);
    ToldSince(run, steps, b, i, scope, false);
    assert Linked(run, steps, b, i);
    assert WorkerOk(run[i].t, scope, run[i].workers[scope]);
    FinalizeFrame(run[i].t, scope, run[i].workers[scope].terminated);
    GraveIsReported(run, steps, i, scope);
  }

  /** What spoils a disposal is reported. */
  lemma GraveIsReported(run: seq<World>, steps: seq<Step>, i: nat, scope: ScopeId)
    requires i <= |steps| && |run| == |steps| + 1
    ensures SpoiltBefore(run, steps, i, scope) ==> ReportedBefore(run, steps, i, scope)
    ensures SpoiltBefore(run, steps, i, scope) == ToldBefore(run, steps, i, scope, true)
    ensures ReportedBefore(run, steps, i, scope) == ToldBefore(run, steps, i, scope, false)
  {
    if j :| 0 <= j < i && Spoils(run[j], steps[j], scope) {
      assert Reports(run[j], steps[j], scope) && Tells(run[j], steps[j], scope, true);
    }
    if j :| 0 <= j < i && Reports(run[j], steps[j], scope) {
      assert Tells(run[j], steps[j], scope, false);
    }
  }

  // ---- Disposals never wait for each other in a circle ------------------------------------------------

  predicate Is(t: Arena, scope: ScopeId, state: ScopeState) {
    scope in t && t[scope].state == state
  }

  /** What a body has still to visit, or waits for, is younger than its scope; and what it waits for is being
      disposed of or has been. */
  predicate WaitOk(w: World, scope: ScopeId, k: Worker) {
    k.Traversing? ==>
      && (forall c <- k.todo :: scope < c)
      && (k.waiting.Some? ==> scope < k.waiting.value < w.next && !Is(w.t, k.waiting.value, Active))
  }

  predicate WaitsOk(w: World) {
    forall s <- w.workers :: WaitOk(w, s, w.workers[s])
  }

  /** Nobody becomes active again. */
  predicate NobodyRevives(w: World, n: World) {
    w.next <= n.next && forall c <- n.t :: c < w.next && n.t[c].state == Active ==> Is(w.t, c, Active)
  }

  lemma WaitsStay(w: World, n: World)
    requires WaitsOk(w) && NobodyRevives(w, n) && n.workers == w.workers
    ensures WaitsOk(n)
  {
    forall s | s in n.workers ensures WaitOk(n, s, n.workers[s]) { assert WaitOk(w, s, w.workers[s]); }
  }

  lemma WaitsBut(w: World, n: World, scope: ScopeId)
    requires WaitsOk(w) && NobodyRevives(w, n)
    requires forall s <- n.workers :: s == scope || (s in w.workers && n.workers[s] == w.workers[s]) || n.workers[s].Starting?
    requires scope in n.workers ==> WaitOk(n, scope, n.workers[scope])
    ensures WaitsOk(n)
  {
    forall s | s in n.workers ensures WaitOk(n, s, n.workers[s]) {
      if s in w.workers { assert WaitOk(w, s, w.workers[s]); }
    }
  }

  lemma CreateRevivesNobody(w: World, parent: ScopeId, n: World, b: Bounds)
    requires parent in w.t && NextTree(w, Create(parent), n, b.maxScopes, b.maxDepth)
    ensures NobodyRevives(w, n) && n.workers == w.workers
  {
  }

  lemma MoveRevivesNobody(w: World, a: Step, n: World, b: Bounds)
    requires (a.Reload? || a.ReloadUndone?) && NextTree(w, a, n, b.maxScopes, b.maxDepth)
    ensures NobodyRevives(w, n) && n.workers == w.workers
  {
    forall c | c in n.t && n.t[c].state == Active ensures Is(w.t, c, Active) { MovedKeepsStates(w.t, a.p, c); }
  }

  lemma SweepRevivesNobody(w: World, a: Step, n: World, b: Bounds)
    requires (a.SetFibers? || a.Collect?) && NextTree(w, a, n, b.maxScopes, b.maxDepth)
    ensures NobodyRevives(w, n) && n.workers == w.workers
  {
  }

  lemma TreeRevivesNobody(w: World, a: Step, n: World, b: Bounds)
    requires Inv(w, b.maxDepth) && NextTree(w, a, n, b.maxScopes, b.maxDepth)
    ensures NobodyRevives(w, n) && n.workers == w.workers
  {
    match a {
      case Create(parent) => CreateRevivesNobody(w, parent, n, b);
      case Reload(_) => MoveRevivesNobody(w, a, n, b);
      case ReloadUndone(_) => MoveRevivesNobody(w, a, n, b);
      case _ => SweepRevivesNobody(w, a, n, b);
    }
  }

  lemma BeginRevivesNobody(w: World, scope: ScopeId)
    requires scope in w.t
    ensures NobodyRevives(w, Begin(w, scope))
  {
  }

  /** A scope that is looked at goes into its own body's hands, or is not active. */
  lemma StartedWaits(w: World, child: ScopeId)
    requires WaitsOk(w) && child in w.t
    ensures var begun := if w.t[child].state == Active then Begin(w, child) else w;
            WaitsOk(begun) && !Is(begun.t, child, Active) && begun.next == w.next
  {
    if w.t[child].state == Active {
      BeginRevivesNobody(w, child);
      WaitsBut(w, Begin(w, child), child);
    }
  }

  lemma WorkWaits(w: World, scope: ScopeId, k: Worker)
    requires WaitsOk(w) && WaitOk(w, scope, k)
    ensures WaitsOk(Work(w, scope, k))
  {
    WaitsBut(w, Work(w, scope, k), scope);
  }

  lemma VisitWaits(w: World, scope: ScopeId, n: World)
    requires TreeOk(w.t, w.next) && WaitsOk(w) && NextDisposal(w, Visit(scope), n)
    ensures WaitsOk(n)
  {
    var k := w.workers[scope];
    var child, rest := k.todo[|k.todo| - 1], k.todo[..|k.todo| - 1];
    assert WaitOk(w, scope, k) && child in k.todo && forall c <- rest :: c in k.todo;
    if child in w.t {
      StartedWaits(w, child);
      WorkWaits(if w.t[child].state == Active then Begin(w, child) else w, scope, Traversing(rest, Some(child), k.terminated, k.issues));
    } else {
      WorkWaits(w, scope, Traversing(rest, None, true, true));
    }
  }

  lemma SnapshotWaits(w: World, scope: ScopeId, n: World)
    requires TreeOk(w.t, w.next) && WaitsOk(w) && NextDisposal(w, Snapshot(scope), n)
    ensures WaitsOk(n)
  {
    if scope in w.t {
      assert RecordOk(w.t, scope);
      forall c | c in w.t[scope].children ensures scope < c { assert RecordOk(w.t, c); }
    }
    WaitsBut(w, n, scope);
  }

  lemma FinalizeWaits(w: World, scope: ScopeId, n: World)
    requires WorkersOk(w) && WaitsOk(w) && NextDisposal(w, Finalize(scope), n)
    ensures WaitsOk(n)
  {
    assert WorkerOk(w.t, scope, w.workers[scope]);
    FinalizeFrame(w.t, scope, w.workers[scope].terminated);
    WaitsBut(w, n, scope);
  }

  lemma DisposeWaits(w: World, scope: ScopeId, n: World)
    requires WaitsOk(w) && NextDisposal(w, Dispose(scope), n)
    ensures WaitsOk(n)
  {
    BeginRevivesNobody(w, scope);
    WaitsBut(w, n, scope);
  }

  /** The others only work on. */
  lemma OwnWaits(w: World, a: Step, n: World)
    requires WaitsOk(w) && NextDisposal(w, a, n) && !a.Visit? && !a.Snapshot? && !a.Finalize? && !a.Dispose?
    ensures WaitsOk(n)
  {
    assert a.scope in w.workers && WaitOk(w, a.scope, w.workers[a.scope]);
    assert n == Work(w, a.scope, n.workers[a.scope]);
    assert n.workers[a.scope].Traversing? ==> w.workers[a.scope].Traversing? && n.workers[a.scope].todo == w.workers[a.scope].todo
                                              && n.workers[a.scope].waiting == None;
    WaitsBut(w, n, a.scope);
  }

  lemma DisposalWaits(w: World, a: Step, n: World, maxDepth: nat)
    requires Inv(w, maxDepth) && WaitsOk(w) && NextDisposal(w, a, n)
    ensures WaitsOk(n)
  {
    match a {
      case Visit(scope) => VisitWaits(w, scope, n);
      case Snapshot(scope) => SnapshotWaits(w, scope, n);
      case Finalize(scope) => FinalizeWaits(w, scope, n);
      case Dispose(scope) => DisposeWaits(w, scope, n);
      case _ => OwnWaits(w, a, n);
    }
  }

  lemma WaitsNext(w: World, a: Step, n: World, b: Bounds)
    requires Inv(w, b.maxDepth) && WaitsOk(w) && Next(w, a, n, b.maxScopes, b.maxDepth)
    ensures WaitsOk(n)
  {
    if NextTree(w, a, n, b.maxScopes, b.maxDepth) {
      TreeRevivesNobody(w, a, n, b);
      WaitsStay(w, n);
    } else {
      DisposalWaits(w, a, n, b.maxDepth);
    }
  }

  lemma WaitsAfter(run: seq<World>, steps: seq<Step>, b: Bounds, i: nat)
    requires Run(run, steps, b) && i < |steps| && WaitsOk(run[i])
    ensures WaitsOk(run[i + 1])
  {
    RunInv(run, steps, b, i);
    assert Linked(run, steps, b, i);
    WaitsNext(run[i], steps[i], run[i + 1], b);
  }

  lemma {:induction false} RunWaits(run: seq<World>, steps: seq<Step>, b: Bounds, i: nat)
    requires Run(run, steps, b) && i < |run|
    ensures WaitsOk(run[i])
  {
    if i > 0 {
      RunWaits(run, steps, b, i - 1);
      WaitsAfter(run, steps, b, i - 1);
    }
  }

  /** In every run, what a body waits for is being disposed of, or its end has been published. */
  lemma AwaitedIsUnderWay(run: seq<World>, steps: seq<Step>, b: Bounds, i: nat, scope: ScopeId)
    requires Run(run, steps, b) && i < |run| && scope in run[i].workers
    ensures var k := run[i].workers[scope];
            k.Traversing? && k.waiting.Some? ==> scope < k.waiting.value && (k.waiting.value in run[i].workers || k.waiting.value in run[i].done)
  {
    RunInv(run, steps, b, i);
    RunWaits(run, steps, b, i);
    assert WaitOk(run[i], scope, run[i].workers[scope]);
    var k := run[i].workers[scope];
    if k.Traversing? && k.waiting.Some? { UnderWay(run[i], k.waiting.value); }
  }

  lemma UnderWay(w: World, child: ScopeId)
    requires WorkersOk(w) && DoneOk(w) && child < w.next && !Is(w.t, child, Active)
    ensures child in w.workers || child in w.done
  {
    if child in w.t && w.t[child].state == Disposing { assert child in w.workers; }
  }

  lemma {:induction false} Youngest(scopes: set<ScopeId>) returns (youngest: ScopeId)
    requires scopes != {}
    ensures youngest in scopes && forall s <- scopes :: s <= youngest
    decreases |scopes|
  {
    var one :| one in scopes;
    var rest := scopes - {one};
    youngest := one;
    if rest != {} {
      var other := Youngest(rest);
      youngest := if one < other then other else one;
    }
    assert forall s <- scopes :: s == one || s in rest;
  }

  /** A body can always take a step unless it waits for a child that is still being disposed of. */
  lemma BodyGoesOn(w: World, scope: ScopeId, maxDepth: nat) returns (a: Step, n: World)
    requires Inv(w, maxDepth) && scope in w.workers
    requires var k := w.workers[scope]; k.Traversing? && k.waiting.Some? ==> k.waiting.value in w.done
    ensures NextDisposal(w, a, n) && !a.Die? && !a.Dispose? && a.scope == scope
  {
    assert WorkerOk(w.t, scope, w.workers[scope]);
    match w.workers[scope] {
      case Starting =>
        a, n := Snapshot(scope), Work(w, scope, Traversing(w.t[scope].children, None, false, false));
      case Traversing(todo, waiting, terminated, issues) =>
        if waiting.Some? {
          var child := waiting.value;
          var committed := child in w.t && w.t[child].state == Disposed;
          a := Observe(scope);
          n := Work(w, scope, if w.done[child] == Clean then Traversing(todo, None, terminated, issues)
                              else Traversing(todo, None, terminated || !committed || w.done[child] == Incomplete, true));
        } else if todo == [] {
          a, n := ChildrenDone(scope), Work(w, scope, OnFibers(terminated, issues));
        } else {
          var child, rest := todo[|todo| - 1], todo[..|todo| - 1];
          a := Visit(scope);
          n := if child !in w.t then Work(w, scope, Traversing(rest, None, true, true))
               else Work(if w.t[child].state == Active then Begin(w, child) else w, scope, Traversing(rest, Some(child), terminated, issues));
        }
      case OnFibers(terminated, issues) =>
        a, n := FibersDone(scope, false, false), Work(w, scope, Finalizing(terminated, issues));
      case Finalizing(terminated, issues) =>
        a := Finalize(scope);
        n := w.(t := Finalized(w.t, scope, terminated), workers := w.workers - {scope},
                done := w.done[scope := if terminated then Incomplete else if issues then WithIssues else Clean]);
    }
  }

  /** In every run, while anything is being disposed of, one of the disposals can go on: disposals that wait for
      each other never wait in a circle, whatever reloads have moved in between. */
  lemma SomeoneGoesOn(run: seq<World>, steps: seq<Step>, b: Bounds, i: nat) returns (a: Step, n: World)
    requires Run(run, steps, b) && i < |run| && run[i].workers != map[]
    ensures NextDisposal(run[i], a, n) && !a.Die? && !a.Dispose? && a.scope in run[i].workers
  {
    RunInv(run, steps, b, i);
    assert run[i].workers.Keys != {};
    var scope := Youngest(run[i].workers.Keys);
    AwaitedIsUnderWay(run, steps, b, i, scope);
    a, n := BodyGoesOn(run[i], scope, b.maxDepth);
  }

  // ---- Two runs ----------------------------------------------------------------------------------------

  const BOUNDS: Bounds := Bounds(9, 9)

  lemma Extend(run: seq<World>, steps: seq<Step>, a: Step, n: World) returns (longer: seq<World>, more: seq<Step>)
    requires Run(run, steps, BOUNDS) && Next(run[|run| - 1], a, n, BOUNDS.maxScopes, BOUNDS.maxDepth)
    ensures longer == run + [n] && more == steps + [a] && Run(longer, more, BOUNDS)
    ensures longer[|longer| - 1] == n
  {
    longer, more := run + [n], steps + [a];
    forall i: nat ensures Linked(longer, more, BOUNDS, i) {
      assert Linked(run, steps, BOUNDS, i);
      if i < |steps| { assert longer[i] == run[i] && longer[i + 1] == run[i + 1] && more[i] == steps[i]; }
    }
  }

  /** Takes an emptied scope from its snapshot to its end. */
  lemma DisposeEmpty(run: seq<World>, steps: seq<Step>, scope: ScopeId) returns (longer: seq<World>, more: seq<Step>)
    requires Run(run, steps, BOUNDS) && var w := run[|run| - 1]; scope in w.workers && w.workers[scope].Starting? && scope in w.t && w.t[scope].children == []
    ensures Run(longer, more, BOUNDS) && run <= longer && steps <= more && |longer| == |run| + 4 && more[|more| - 1] == Finalize(scope)
    ensures var w := run[|run| - 1];
            longer[|longer| - 1] == w.(t := Finalized(w.t, scope, false), workers := w.workers - {scope}, done := w.done[scope := Clean])
  {
    var w := run[|run| - 1];
    var a := Work(w, scope, Traversing([], None, false, false));
    longer, more := Extend(run, steps, Snapshot(scope), a);
    var c := Work(a, scope, OnFibers(false, false));
    longer, more := Extend(longer, more, ChildrenDone(scope), c);
    var d := Work(c, scope, Finalizing(false, false));
    longer, more := Extend(longer, more, FibersDone(scope, false, false), d);
    var e := d.(t := Finalized(d.t, scope, false), workers := d.workers - {scope}, done := d.done[scope := Clean]);
    longer, more := Extend(longer, more, Finalize(scope), e);
    assert d.workers - {scope} == w.workers - {scope};
  }

  const Family: Arena := map[0 := Scope(None, [1], [], Active), 1 := Scope(Some(0), [2], [], Active), 2 := Scope(Some(1), [], [], Active)]

  const Born: World := World(Family, 3, map[], map[], map[1 := 0, 2 := 1])

  lemma AFamily() returns (run: seq<World>, steps: seq<Step>)
    ensures Run(run, steps, BOUNDS) && |run| == 3 && run[2] == Born
  {
    var w0 := World(map[ROOT := Scope(None, [], [], Active)], 1, map[], map[], map[]);
    run, steps := [w0], [];
    assert Depth(w0.t, 0) == 0;
    var w1 := w0.(t := Created(w0.t, 0, 1), next := 2, lineage := map[1 := 0]);
    run, steps := Extend(run, steps, Create(0), w1);
    assert [] + [1] == [1] && [] + [2] == [2];
    assert w1.t == map[0 := Scope(None, [1], [], Active), 1 := Scope(Some(0), [], [], Active)];
    assert Depth(w1.t, 1) == 1 + Depth(w1.t, 0);
    var w2 := w1.(t := Created(w1.t, 1, 2), next := 3, lineage := map[1 := 0, 2 := 1]);
    run, steps := Extend(run, steps, Create(1), w2);
    assert w2.t == Family;
  }

  /** The child has been disposed cleanly by somebody else, and reclaimed. */
  const Orphaned: World := World(map[0 := Scope(None, [1], [], Active), 1 := Scope(Some(0), [], [], Disposing)], 3,
                                 map[1 := Traversing([2], None, false, false)], map[2 := Clean], map[1 := 0, 2 := 1])

  /** The parent has found its child, and then somebody else disposes of that. */
  const Found: World := World(map[0 := Scope(None, [1], [], Active), 1 := Scope(Some(0), [2], [], Disposing), 2 := Scope(Some(1), [], [], Disposing)], 3,
                              map[1 := Traversing([2], None, false, false), 2 := Starting], map[], map[1 := 0, 2 := 1])

  lemma ChildFound() returns (run: seq<World>, steps: seq<Step>)
    ensures Run(run, steps, BOUNDS) && run[|run| - 1] == Found
  {
    run, steps := AFamily();
    run, steps := Extend(run, steps, Dispose(1), Begin(Born, 1));
    var w4 := Work(Begin(Born, 1), 1, Traversing([2], None, false, false));
    run, steps := Extend(run, steps, Snapshot(1), w4);
    run, steps := Extend(run, steps, Dispose(2), Begin(w4, 2));
    assert Begin(w4, 2) == Found;
  }

  lemma MinusAll()
    ensures Minus([2], [2]) == []
  {
  }

  const Childless: Arena :=
    map[0 := Scope(None, [1], [], Active), 1 := Scope(Some(0), [], [], Disposing), 2 := Scope(Some(1), [], [], Disposed)]

  lemma ChildEnds()
    ensures Finalized(Found.t, 2, false) == Childless
  {
    MinusAll();
    var t := Finalized(Found.t, 2, false);
    assert t.Keys == Childless.Keys;
    assert t[2] == Childless[2] && t[1] == Childless[1] && t[0] == Childless[0];
  }

  lemma ReclaimsOne(t: Arena, id: ScopeId)
    requires forall s <- t :: t[s].fibers == [] && (Reclaimable(ROOT, s, t[s]) <==> s == id)
    ensures Reclaimed(Detached(t, {}), ROOT) == t - {id}
  {
    forall s | s in t ensures Detached(t, {})[s] == t[s] {
      assert WithoutFibers([], {}) == [];
    }
    assert Detached(t, {}) == t;
  }

  lemma ChildReclaimed() returns (run: seq<World>, steps: seq<Step>)
    ensures Run(run, steps, BOUNDS) && run[|run| - 1] == Orphaned
  {
    run, steps := ChildFound();
    run, steps := DisposeEmpty(run, steps, 2);
    var w9 := run[|run| - 1];
    ChildEnds();
    assert w9.workers == Orphaned.workers && w9.done == Orphaned.done;
    assert w9.t == Childless && Childless - {2} == Orphaned.t;
    ReclaimsOne(w9.t, 2);
    var n := w9.(t := Reclaimed(Detached(w9.t, {}), ROOT));
    assert NextTree(w9, Collect({}), n, BOUNDS.maxScopes, BOUNDS.maxDepth);
    run, steps := Extend(run, steps, Collect({}), n);
  }

  /** The parent ends Terminated although no scope below it did: a child that was disposed cleanly by
      somebody else and reclaimed before the parent's body looked for it counts as not committed. */
  lemma ReclaimedChildTerminatesParent() returns (run: seq<World>, steps: seq<Step>)
    ensures Run(run, steps, BOUNDS) && |steps| > 0 && steps[|steps| - 1] == Finalize(1)
    ensures var last := run[|run| - 1];
            && Is(last.t, 1, Terminated) && 1 in last.done && last.done[1] == Incomplete
            && 2 in last.lineage && last.lineage[2] == 1 && 2 in last.done && last.done[2] == Clean
            && forall i, s :: 0 <= i < |run| && s in run[i].t && run[i].t[s].state == Terminated ==> s == 1
  {
    run, steps := ChildReclaimed();
    var a := Work(Orphaned, 1, Traversing([], None, true, true));
    run, steps := Extend(run, steps, Visit(1), a);
    var c := Work(a, 1, OnFibers(true, true));
    run, steps := Extend(run, steps, ChildrenDone(1), c);
    var d := Work(c, 1, Finalizing(true, true));
    run, steps := Extend(run, steps, FibersDone(1, false, false), d);
    var e := d.(t := Finalized(d.t, 1, true), workers := d.workers - {1}, done := d.done[1 := Incomplete]);
    run, steps := Extend(run, steps, Finalize(1), e);
    var last := |run| - 1;
    forall i, s | 0 <= i < |run| && s in run[i].t && run[i].t[s].state == Terminated ensures s == 1 {
      TerminatedStays(run, steps, BOUNDS, i, last, s);
    }
  }

  lemma ChildMoved() returns (run: seq<World>, steps: seq<Step>)
    ensures Run(run, steps, BOUNDS) && |run| > 2 && run[2] == Born && run[|run| - 1] == Adopted
  {
    run, steps := AFamily();
    var w3 := Born.(t := Born.t[0 := Scope(None, [1], [7], Active)]);
    run, steps := Extend(run, steps, SetFibers(0, [7]), w3);
    run, steps := Extend(run, steps, SetFibers(1, [8]), Born.(t := Staging));
    StagingMoves();
    run, steps := Extend(run, steps, Reload(Handover), Adopted);
  }

  /** A staging scope is disposed although a scope that was once below it lives on: the reload has
      moved it to the target. */
  lemma MovedChildOutlivesStaging() returns (run: seq<World>, steps: seq<Step>)
    ensures Run(run, steps, BOUNDS) && |run| > 2 && run[2].lineage == map[1 := 0, 2 := 1]
    ensures var last := run[|run| - 1]; Is(last.t, 1, Disposed) && Is(last.t, 2, Active) && last.t[2].parent == Some(0)
  {
    run, steps := ChildMoved();
    run, steps := Extend(run, steps, Dispose(1), Begin(Adopted, 1));
    run, steps := DisposeEmpty(run, steps, 1);
  }

  const Staging: Arena := map[0 := Scope(None, [1], [7], Active), 1 := Scope(Some(0), [2], [8], Active), 2 := Scope(Some(1), [], [], Active)]

  const Adopted: World :=
    World(map[0 := Scope(None, [1, 2], [7, 8], Active), 1 := Scope(Some(0), [], [], Active), 2 := Scope(Some(0), [], [], Active)], 3,
          map[], map[], map[1 := 0, 2 := 0])

  const Handover: ScopeRevision := ScopeRevision(1, 0, 8, 7, [2])

  lemma StagingMoves()
    ensures Staged(Staging, Handover) && ScopesMoved(Staging, Handover) == Adopted.t && Moved(Born.lineage, Handover) == Adopted.lineage
  {
    StagingLists();
    var u := ScopesMoved(Staging, Handover);
    assert u.Keys == Adopted.t.Keys;
    assert u[2] == Adopted.t[2];
    assert u[1] == Adopted.t[1];
    assert u[0] == Adopted.t[0];
    assert Moved(Born.lineage, Handover) == Adopted.lineage;
    StagingIsStaged();
  }

  lemma StagingLists()
    ensures Minus([2], [2]) == [] && Without([8], 8) == [] && [1] + [2] == [1, 2] && [7] + [8] == [7, 8]
  {
    assert [8][..0] == [];
  }

  lemma StagingIsStaged()
    ensures Staged(Staging, Handover)
  {
    assert multiset([8])[8] == 1 && multiset([7])[7] == 1;
    assert OnlyAt(Staging, 1, 8);
  }

  // ---- Every descendant ever had -----------------------------------------------------------------------

  /** A reload that takes `c`, or a scope on the way from it up to `s`, away from where it was. */
  predicate TakesAway(w: World, a: Step, c: ScopeId, s: ScopeId) {
    && (forall x <- w.lineage :: w.lineage[x] < x)
    && a.Reload? && exists y <- a.p.children :: (y == c || Below(w.lineage, c, y)) && Below(w.lineage, y, s)
  }

  lemma {:induction false} LineageKept(w: World, n: World, a: Step, c: ScopeId, s: ScopeId)
    requires (forall x <- w.lineage :: w.lineage[x] < x) && (forall x <- n.lineage :: n.lineage[x] < x)
    requires Below(w.lineage, c, s) && !TakesAway(w, a, c, s)
    requires forall x <- w.lineage :: x in n.lineage && (n.lineage[x] == w.lineage[x] || (a.Reload? && x in a.p.children))
    ensures Below(n.lineage, c, s)
    decreases c
  {
    if w.lineage[c] != s {
      LineageKept(w, n, a, w.lineage[c], s);
    }
  }

  lemma LineageStep(w: World, a: Step, n: World, b: Bounds)
    requires Next(w, a, n, b.maxScopes, b.maxDepth) && LineageOk(w)
    ensures forall x <- w.lineage :: x in n.lineage && (n.lineage[x] == w.lineage[x] || (a.Reload? && x in a.p.children))
  {
  }

  lemma LineageStepAt(run: seq<World>, steps: seq<Step>, b: Bounds, i: nat)
    requires Run(run, steps, b) && i < |steps| && LineageOk(run[i])
    ensures var l, m := run[i].lineage, run[i + 1].lineage;
            forall x <- l :: x in m && (m[x] == l[x] || (steps[i].Reload? && x in steps[i].p.children))
  {
    assert Linked(run, steps, b, i);
    LineageStep(run[i], steps[i], run[i + 1], b);
  }

  lemma {:induction false} StillBelow(run: seq<World>, steps: seq<Step>, b: Bounds, i: nat, j: nat, s: ScopeId, c: ScopeId)
    requires Run(run, steps, b) && i <= j < |run| && LineageOk(run[i]) && Below(run[i].lineage, c, s)
    requires forall m :: i <= m < j ==> !TakesAway(run[m], steps[m], c, s)
    ensures LineageOk(run[j]) && Below(run[j].lineage, c, s)
    decreases j
  {
    RunInv(run, steps, b, j);
    if i < j {
      StillBelow(run, steps, b, i, j - 1, s, c);
      LineageStepAt(run, steps, b, j - 1);
      LineageKept(run[j - 1], run[j], steps[j - 1], c, s);
    }
  }

  /** Over every descendant a scope ever had: what was once below it and lives on after its end has
      been taken away from below it by a reload. */
  lemma OnlyMovedOutlive(run: seq<World>, steps: seq<Step>, b: Bounds, i: nat, j: nat, s: ScopeId, c: ScopeId)
    requires Run(run, steps, b) && i <= j < |run| && LineageOk(run[i]) && Below(run[i].lineage, c, s)
    requires s < run[j].next && !Live(run[j].t, s) && Live(run[j].t, c)
    ensures exists m :: i <= m < j && TakesAway(run[m], steps[m], c, s)
  {
    if forall m :: i <= m < j ==> !TakesAway(run[m], steps[m], c, s) {
      StillBelow(run, steps, b, i, j, s, c);
      DisposedOnlyBelowDisposed(run, steps, b, j, s, c);
      assert false;
    }
  }
}
