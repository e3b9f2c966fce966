/** The arena of scopes: creation, ancestry, the reload's move of a staged plugin's scopes and its
    rollback, and reclamation. */
module Scopes {
  import opened Wrappers
  import opened Sequences
  import opened ServiceRegistry
  import opened DependencyGraph

  datatype ScopeState = Active | Disposing | Disposed | Terminated

  datatype Scope = Scope(parent: Option<ScopeId>, children: seq<ScopeId>, fibers: seq<FiberId>, state: ScopeState)

  type Arena = map<ScopeId, Scope>

  datatype Error = NotFound | NotActive(scope: ScopeId) | TooMany | TooDeep | Refused

  /** Ids are handed out in order and never again, and a scope is younger than its parent. */
  predicate Parented(t: Arena) {
    forall id <- t :: t[id].parent.Some? ==> t[id].parent.value < id
  }

  // ---- Ancestry ----------------------------------------------------------------------------------

  function LeafToRoot(t: Arena, id: ScopeId): Result<seq<ScopeId>, Error>
    requires Parented(t)
    decreases id
  {
    if id !in t then Err(NotFound)
    else if t[id].parent == None then Ok([id])
    else match LeafToRoot(t, t[id].parent.value)
      case Err(e) => Err(e)
      case Ok(path) => Ok([id] + path)
  }

  function RootToLeaf(t: Arena, id: ScopeId, requireActive: bool): Result<seq<ScopeId>, Error>
    requires Parented(t)
    decreases id
  {
    if id !in t then Err(NotFound)
    else if requireActive && t[id].state != Active then Err(NotActive(id))
    else if t[id].parent == None then Ok([id])
    else match RootToLeaf(t, t[id].parent.value, requireActive)
      case Err(e) => Err(e)
      case Ok(path) => Ok(path + [id])
  }

  /** Edges above a scope. */
  function Depth(t: Arena, id: ScopeId): nat
    requires Parented(t)
    decreases id
  {
    if id in t && t[id].parent.Some? then 1 + Depth(t, t[id].parent.value) else 0
  }

  /** A path of parents up to a scope without one. */
  predicate Climbs(t: Arena, path: seq<ScopeId>) {
    && path != [] && (forall i :: 0 <= i < |path| ==> path[i] in t)
    && (forall i :: 0 <= i < |path| - 1 ==> t[path[i]].parent == Some(path[i + 1]))
    && t[path[|path| - 1]].parent == None
  }

  lemma {:induction false} PathClimbs(t: Arena, id: ScopeId)
    requires Parented(t) && LeafToRoot(t, id).Ok?
    ensures var path := LeafToRoot(t, id).value;
            Climbs(t, path) && path[0] == id && |path| == Depth(t, id) + 1
  {
    if t[id].parent.Some? {
      PathClimbs(t, t[id].parent.value);
    }
  }

  /** The two ancestry queries see the same path from its two ends, and with `requireActive` only a
      path of active scopes. */
  lemma {:induction false} PathsMirror(t: Arena, id: ScopeId, requireActive: bool)
    requires Parented(t)
    ensures RootToLeaf(t, id, requireActive).Ok? <==>
              LeafToRoot(t, id).Ok? && (requireActive ==> forall a <- LeafToRoot(t, id).value :: a in t && t[a].state == Active)
    ensures RootToLeaf(t, id, requireActive).Ok? ==>
              var down, up := RootToLeaf(t, id, requireActive).value, LeafToRoot(t, id).value;
              |down| == |up| && forall i :: 0 <= i < |up| ==> down[i] == up[|up| - 1 - i]
    decreases id
  {
    if id in t && t[id].parent.Some? {
      PathsMirror(t, t[id].parent.value, requireActive);
    }
  }

  // ---- The reload's move -------------------------------------------------------------------------

  datatype ScopeRevision = ScopeRevision(staging: ScopeId, target: ScopeId, staged: FiberId, replaced: FiberId, children: seq<ScopeId>)

  function Minus(s: seq<ScopeId>, gone: seq<ScopeId>): (r: seq<ScopeId>)
    ensures forall x :: x in r <==> x in s && x !in gone
    ensures forall x :: multiset(r)[x] == if x in gone then 0 else multiset(s)[x]
  {
    if s == [] then []
    else
      assert s == [s[0]] + s[1..];
      if s[0] in gone then Minus(s[1..], gone) else [s[0]] + Minus(s[1..], gone)
  }

  predicate OnlyAt(t: Arena, scope: ScopeId, f: FiberId) {
    forall id <- t :: id != scope ==> f !in t[id].fibers
  }

  predicate ParentIs(t: Arena, children: seq<ScopeId>, scope: ScopeId) {
    forall c <- children :: c in t && t[c].parent == Some(scope)
  }

  predicate AllIn(children: seq<ScopeId>, s: seq<ScopeId>) {
    forall c <- children :: c in s
  }

  predicate NoneIn(children: seq<ScopeId>, s: seq<ScopeId>) {
    forall c <- children :: c !in s
  }

  predicate CanCommit(t: Arena, p: ScopeRevision) {
    && p.staging in t && t[p.staging].state == Active && Count(t[p.staging].fibers, p.staged) == 1
    && AllIn(p.children, t[p.staging].children)
    && p.target in t && t[p.target].state == Active && Count(t[p.target].fibers, p.replaced) == 1
    && p.staged !in t[p.target].fibers && NoneIn(p.children, t[p.target].children)
    && OnlyAt(t, p.staging, p.staged) && ParentIs(t, p.children, p.staging)
  }

  predicate CanRollBack(t: Arena, p: ScopeRevision) {
    && p.target in t && t[p.target].state == Active && Count(t[p.target].fibers, p.replaced) == 1
    && Count(t[p.target].fibers, p.staged) == 1 && AllIn(p.children, t[p.target].children)
    && p.staging in t && t[p.staging].state == Active
    && p.staged !in t[p.staging].fibers && NoneIn(p.children, t[p.staging].children)
    && OnlyAt(t, p.target, p.staged) && ParentIs(t, p.children, p.target)
  }

  /** The fiber and the scopes leave one scope and arrive at the other. */
  function MoveScopes(t: Arena, from: ScopeId, to: ScopeId, f: FiberId, children: seq<ScopeId>): Arena {
    map id | id in t ::
      var r := if id == from then t[id].(fibers := Without(t[id].fibers, f), children := Minus(t[id].children, children))
               else if id == to then t[id].(fibers := t[id].fibers + [f], children := t[id].children + children)
               else t[id];
      if id in children then r.(parent := Some(to)) else r
  }

  function ScopesMoved(t: Arena, p: ScopeRevision): Arena {
    MoveScopes(t, p.staging, p.target, p.staged, p.children)
  }

  function ScopesBack(t: Arena, p: ScopeRevision): Arena {
    MoveScopes(t, p.target, p.staging, p.staged, p.children)
  }

  /** The same records up to the order of the lists. */
  ghost predicate SameScopes(t: Arena, u: Arena) {
    && t.Keys == u.Keys
    && forall id <- t :: SameScope(t[id], u[id])
  }

  ghost predicate SameScope(r: Scope, s: Scope) {
    && r.parent == s.parent && r.state == s.state
    && multiset(r.children) == multiset(s.children) && multiset(r.fibers) == multiset(s.fibers)
  }

  lemma MinusThenPlus(s: seq<ScopeId>, part: seq<ScopeId>)
    requires Distinct(s) && Distinct(part) && AllIn(part, s)
    ensures multiset(Minus(s, part) + part) == multiset(s)
  {
    DistinctCounts(s);
    DistinctCounts(part);
    forall x ensures multiset(Minus(s, part) + part)[x] == multiset(s)[x] {
    }
  }

  lemma PlusThenMinus(s: seq<ScopeId>, part: seq<ScopeId>)
    requires NoneIn(part, s)
    ensures multiset(Minus(s + part, part)) == multiset(s)
  {
    forall x ensures multiset(Minus(s + part, part))[x] == multiset(s)[x] {
      assert x in part ==> x !in s;
    }
  }

  /** Right after a commit the rollback's own check passes. */
  lemma ScopesRollbackSucceeds(t: Arena, p: ScopeRevision)
    requires CanCommit(t, p)
    ensures CanRollBack(ScopesMoved(t, p), p)
  {
    var u := ScopesMoved(t, p);
    BackAndForth(t[p.staging].fibers, p.staged);
    assert p.staged in t[p.staging].fibers && p.staging != p.target;
    assert multiset(t[p.target].fibers + [p.staged])[p.staged] == 1;
    assert p.replaced in t[p.target].fibers && p.replaced != p.staged;
  }

  /** And it restores every record. */
  lemma ScopesRollbackRestores(t: Arena, p: ScopeRevision)
    requires CanCommit(t, p) && Distinct(p.children) && Distinct(t[p.staging].children)
    ensures SameScopes(t, ScopesBack(ScopesMoved(t, p), p))
  {
    assert p.staged in t[p.staging].fibers && p.staging != p.target;
    forall id | id in t ensures SameScope(t[id], ScopesBack(ScopesMoved(t, p), p)[id]) {
      OneBack(t, p, id);
    }
  }

  lemma OneBack(t: Arena, p: ScopeRevision, id: ScopeId)
    requires CanCommit(t, p) && Distinct(p.children) && Distinct(t[p.staging].children) && p.staging != p.target && id in t
    ensures SameScope(t[id], ScopesBack(ScopesMoved(t, p), p)[id])
  {
    var u := ScopesMoved(t, p);
    if id == p.staging {
      BackAndForth(t[id].fibers, p.staged);
      MinusThenPlus(t[id].children, p.children);
    } else if id == p.target {
      BackAndForth(t[id].fibers, p.staged);
      PlusThenMinus(t[id].children, p.children);
    }
  }

  /** The rollback would be allowed and would restore every record. */
  ghost predicate Undoable(t: Arena, p: ScopeRevision) {
    && p.staging in t && p.target in t && p.staging != p.target && p.staged != p.replaced
    && CanRollBack(ScopesMoved(t, p), p) && SameScopes(t, ScopesBack(ScopesMoved(t, p), p))
  }

  /** The move is allowed exactly if, between two scopes that are there and apart, it could be taken back. */
  lemma CommitAllowedExactly(t: Arena, p: ScopeRevision)
    requires Distinct(p.children) && (p.staging in t ==> Distinct(t[p.staging].children))
    ensures CanCommit(t, p) <==> Undoable(t, p)
  {
    if CanCommit(t, p) {
      ScopesRollbackSucceeds(t, p);
      ScopesRollbackRestores(t, p);
      assert p.staged in t[p.staging].fibers && p.replaced in t[p.target].fibers;
    }
    if Undoable(t, p) {
      UndoableFibers(t, p);
      forall c | c in p.children
        ensures c in t && t[c].parent == Some(p.staging) && c in t[p.staging].children && c !in t[p.target].children
      {
        UndoableChild(t, p, c);
      }
    }
  }

  lemma UndoableFibers(t: Arena, p: ScopeRevision)
    requires Undoable(t, p)
    ensures Count(t[p.staging].fibers, p.staged) == 1 && p.staged !in t[p.target].fibers && Count(t[p.target].fibers, p.replaced) == 1
    ensures OnlyAt(t, p.staging, p.staged)
  {
    var u := ScopesMoved(t, p);
    var v := ScopesBack(u, p);
    assert SameScope(t[p.staging], v[p.staging]);
    WithoutCounts(t[p.staging].fibers, p.staged);
    assert v[p.staging].fibers == Without(t[p.staging].fibers, p.staged) + [p.staged];
    assert u[p.target].fibers == t[p.target].fibers + [p.staged];
    forall id | id in t && id != p.staging && id != p.target ensures p.staged !in t[id].fibers { assert u[id].fibers == t[id].fibers; }
  }

  lemma UndoableLists(t: Arena, p: ScopeRevision)
    requires Undoable(t, p)
    ensures multiset(t[p.staging].children) == multiset(Minus(t[p.staging].children, p.children) + p.children)
    ensures multiset(t[p.target].children) == multiset(Minus(t[p.target].children + p.children, p.children))
  {
    var v := ScopesBack(ScopesMoved(t, p), p);
    assert SameScope(t[p.staging], v[p.staging]) && SameScope(t[p.target], v[p.target]);
  }

  lemma UndoableChild(t: Arena, p: ScopeRevision, c: ScopeId)
    requires Undoable(t, p) && c in p.children
    ensures c in t && t[c].parent == Some(p.staging) && c in t[p.staging].children && c !in t[p.target].children
  {
    var u := ScopesMoved(t, p);
    assert c in u;
    assert SameScope(t[c], ScopesBack(u, p)[c]);
    UndoableLists(t, p);
    assert c in multiset(t[p.staging].children) && multiset(t[p.target].children)[c] == 0;
  }

  /** The move after the rollback would be allowed and would restore every record. */
  ghost predicate Redoable(u: Arena, p: ScopeRevision) {
    && p.staging in u && p.target in u && p.staging != p.target && p.staged != p.replaced
    && CanCommit(ScopesBack(u, p), p) && SameScopes(u, ScopesMoved(ScopesBack(u, p), p))
  }

  /** And the rollback is allowed exactly if it could be taken back in turn. */
  lemma RollbackAllowedExactly(u: Arena, p: ScopeRevision)
    requires Distinct(p.children) && (p.target in u ==> Distinct(u[p.target].children)) && p.staged != p.replaced
    ensures CanRollBack(u, p) <==> Redoable(u, p)
  {
    if CanRollBack(u, p) {
      assert p.staged in u[p.target].fibers;
      RollbackCanBeRedone(u, p);
      RollbackRestores(u, p);
    }
    if Redoable(u, p) { RedoableIsAllowed(u, p); }
  }

  lemma RedoableIsAllowed(u: Arena, p: ScopeRevision)
    requires Redoable(u, p)
    ensures CanRollBack(u, p)
  {
    RedoableFibers(u, p);
    RedoableElsewhere(u, p);
    forall c | c in p.children
      ensures c in u && u[c].parent == Some(p.target) && c in u[p.target].children && c !in u[p.staging].children
    {
      RedoableChild(u, p, c);
    }
  }

  lemma OneRedone(u: Arena, p: ScopeRevision, id: ScopeId)
    requires CanRollBack(u, p) && Distinct(p.children) && Distinct(u[p.target].children) && p.staging != p.target && id in u
    ensures SameScope(u[id], ScopesMoved(ScopesBack(u, p), p)[id])
  {
    if id == p.target {
      BackAndForth(u[id].fibers, p.staged);
      MinusThenPlus(u[id].children, p.children);
    } else if id == p.staging {
      BackAndForth(u[id].fibers, p.staged);
      PlusThenMinus(u[id].children, p.children);
    }
  }

  lemma RollbackRestores(u: Arena, p: ScopeRevision)
    requires CanRollBack(u, p) && Distinct(p.children) && Distinct(u[p.target].children) && p.staging != p.target
    ensures SameScopes(u, ScopesMoved(ScopesBack(u, p), p))
  {
    forall id | id in u ensures SameScope(u[id], ScopesMoved(ScopesBack(u, p), p)[id]) { OneRedone(u, p, id); }
  }

  lemma RollbackCanBeRedone(u: Arena, p: ScopeRevision)
    requires CanRollBack(u, p) && p.staging != p.target && p.staged != p.replaced
    ensures CanCommit(ScopesBack(u, p), p)
  {
    var v := ScopesBack(u, p);
    WithoutCounts(u[p.target].fibers, p.staged);
    assert v[p.staging].fibers == u[p.staging].fibers + [p.staged];
    assert v[p.target].fibers == Without(u[p.target].fibers, p.staged);
    assert multiset(v[p.staging].fibers)[p.staged] == 1 && multiset(v[p.target].fibers)[p.staged] == 0;
  }

  lemma RedoableFibers(u: Arena, p: ScopeRevision)
    requires Redoable(u, p)
    ensures Count(u[p.target].fibers, p.staged) == 1 && p.staged !in u[p.staging].fibers && Count(u[p.target].fibers, p.replaced) == 1
  {
    var v := ScopesBack(u, p);
    var w := ScopesMoved(v, p);
    assert SameScope(u[p.target], w[p.target]);
    WithoutCounts(u[p.target].fibers, p.staged);
    assert w[p.target].fibers == Without(u[p.target].fibers, p.staged) + [p.staged];
    assert v[p.staging].fibers == u[p.staging].fibers + [p.staged];
    assert multiset(v[p.staging].fibers)[p.staged] == multiset(u[p.staging].fibers)[p.staged] + 1;
  }

  lemma RedoableElsewhere(u: Arena, p: ScopeRevision)
    requires Redoable(u, p) && p.staged !in u[p.staging].fibers
    ensures OnlyAt(u, p.target, p.staged)
  {
    forall id | id in u && id != p.staging && id != p.target ensures p.staged !in u[id].fibers {
      assert ScopesBack(u, p)[id].fibers == u[id].fibers;
    }
  }

  lemma RedoableLists(u: Arena, p: ScopeRevision)
    requires Redoable(u, p)
    ensures multiset(u[p.target].children) == multiset(Minus(u[p.target].children, p.children) + p.children)
    ensures multiset(u[p.staging].children) == multiset(Minus(u[p.staging].children + p.children, p.children))
  {
    var w := ScopesMoved(ScopesBack(u, p), p);
    assert SameScope(u[p.staging], w[p.staging]) && SameScope(u[p.target], w[p.target]);
  }

  lemma RedoableChild(u: Arena, p: ScopeRevision, c: ScopeId)
    requires Redoable(u, p) && c in p.children
    ensures c in u && u[c].parent == Some(p.target) && c in u[p.target].children && c !in u[p.staging].children
  {
    var v := ScopesBack(u, p);
    assert c in v;
    assert SameScope(u[c], ScopesMoved(v, p)[c]);
    RedoableLists(u, p);
    assert c in multiset(u[p.target].children) && multiset(u[p.staging].children)[c] == 0;
  }

  // ---- Creation and reclamation --------------------------------------------------------------------

  /** In the order of the checks. */
  function CreateCheck(t: Arena, parent: ScopeId, maxScopes: nat, maxDepth: nat): Result<(), Error>
    requires Parented(t)
  {
    if |t| >= maxScopes then Err(TooMany)
    else if 1 + Depth(t, parent) > maxDepth then Err(TooDeep)
    else if parent !in t then Err(NotFound)
    else if t[parent].state != Active then Err(NotActive(parent))
    else Ok(())
  }

  function Created(t: Arena, parent: ScopeId, id: ScopeId): Arena
    requires parent in t
  {
    t[id := Scope(Some(parent), [], [], Active)][parent := t[parent].(children := t[parent].children + [id])]
  }

  function WithoutFibers(s: seq<FiberId>, gone: set<FiberId>): (r: seq<FiberId>)
    ensures forall f :: multiset(r)[f] == if f in gone then 0 else multiset(s)[f]
  {
    if s == [] then []
    else
      assert s == [s[0]] + s[1..];
      if s[0] in gone then WithoutFibers(s[1..], gone) else [s[0]] + WithoutFibers(s[1..], gone)
  }

  function Detached(t: Arena, gone: set<FiberId>): Arena {
    map id | id in t :: t[id].(fibers := WithoutFibers(t[id].fibers, gone))
  }

  predicate Reclaimable(root: ScopeId, id: ScopeId, s: Scope) {
    id != root && s.state == Disposed && s.children == [] && s.fibers == []
  }

  function Reclaimed(t: Arena, root: ScopeId): Arena {
    map id | id in t && !Reclaimable(root, id, t[id]) :: t[id]
  }

  lemma {:induction false} WithoutAll(s: seq<FiberId>, gone: set<FiberId>)
    ensures WithoutFibers(s, gone) == [] <==> forall f <- s :: f in gone
  {
    if s != [] { WithoutAll(s[1..], gone); }
  }

  /** What a sweep takes: the scopes other than the root that are disposed, without children, and without
      fibers but those that are gone.  Every other stays as it is, but for those fibers. */
  lemma SweptExactly(t: Arena, root: ScopeId, gone: set<FiberId>)
    ensures var u := Reclaimed(Detached(t, gone), root);
            && (forall id :: id in u <==> id in t && !(id != root && t[id].state == Disposed && t[id].children == []
                                                    && forall f <- t[id].fibers :: f in gone))
            && (forall id <- u :: u[id].parent == t[id].parent && u[id].state == t[id].state && u[id].children == t[id].children)
            && (forall id <- u, f :: multiset(u[id].fibers)[f] == if f in gone then 0 else multiset(t[id].fibers)[f])
  {
    forall id | id in t ensures WithoutFibers(t[id].fibers, gone) == [] <==> forall f <- t[id].fibers :: f in gone {
      WithoutAll(t[id].fibers, gone);
    }
  }

  /** A full arena is swept first; `gone` are the fibers that are disposed by then. */
  function Swept(t: Arena, root: ScopeId, maxScopes: nat, gone: set<FiberId>): Arena {
    if |t| >= maxScopes then Reclaimed(Detached(t, gone), root) else t
  }

  class ScopeRegistry {
    var scopes: Arena
    var next: ScopeId
    const root: ScopeId

    ghost predicate Valid()
      reads this
    {
      Parented(scopes) && forall id <- scopes :: id < next
    }

    constructor ()
      ensures Valid() && root == 0 && next == 1 && scopes == map[0 := Scope(None, [], [], Active)]
    {
      root, next := 0, 1;
      scopes := map[0 := Scope(None, [], [], Active)];
    }

    method Ancestry(scope: ScopeId) returns (r: Result<seq<ScopeId>, Error>)
      requires Valid()
      ensures r == LeafToRoot(scopes, scope)
    {
      var result: seq<ScopeId> := [];
      var cursor := Some(scope);
      assert forall path: seq<ScopeId> :: [] + path == path;
      while cursor.Some?
        invariant LeafToRoot(scopes, scope) ==
                    match cursor
                    case None => Ok(result)
                    case Some(id) => match LeafToRoot(scopes, id) case Err(e) => Err(e) case Ok(path) => Ok(result + path)
        decreases if cursor.Some? then cursor.value + 1 else 0
      {
        var id := cursor.value;
        if id !in scopes { return Err(NotFound); }
        ghost var before := result;
        result := result + [id];
        cursor := scopes[id].parent;
        if cursor.Some? && LeafToRoot(scopes, cursor.value).Ok? {
          ghost var path := LeafToRoot(scopes, cursor.value).value;
          assert before + ([id] + path) == result + path;
        }
      }
      return Ok(result);
    }

    method AncestryRootToLeaf(scope: ScopeId, requireActive: bool) returns (r: Result<seq<ScopeId>, Error>)
      requires Valid()
      ensures r == RootToLeaf(scopes, scope, requireActive)
    {
      var result: seq<ScopeId> := [];
      var cursor := Some(scope);
      assert forall path: seq<ScopeId> :: path + Reverse([]) == path;
      while cursor.Some?
        invariant RootToLeaf(scopes, scope, requireActive) ==
                    match cursor
                    case None => Ok(Reverse(result))
                    case Some(id) =>
                      match RootToLeaf(scopes, id, requireActive) case Err(e) => Err(e) case Ok(path) => Ok(path + Reverse(result))
        decreases if cursor.Some? then cursor.value + 1 else 0
      {
        var id := cursor.value;
        if id !in scopes { return Err(NotFound); }
        if requireActive && scopes[id].state != Active { return Err(NotActive(id)); }
        ghost var before := result;
        result := result + [id];
        ReverseAppend(before, id);
        cursor := scopes[id].parent;
        if cursor.Some? && RootToLeaf(scopes, cursor.value, requireActive).Ok? {
          ghost var path := RootToLeaf(scopes, cursor.value, requireActive).value;
          assert (path + [id]) + Reverse(before) == path + Reverse(result);
        }
      }
      return Ok(Reverse(result));
    }

    /** How deep a child of `parent` would be. */
    method DepthBelow(parent: ScopeId) returns (depth: nat)
      requires Valid()
      ensures depth == 1 + Depth(scopes, parent)
    {
      depth := 1;
      var cursor := Some(parent);
      while cursor.Some?
        invariant 1 + Depth(scopes, parent) == depth + (if cursor.Some? then Depth(scopes, cursor.value) else 0)
        decreases if cursor.Some? then cursor.value + 1 else 0
      {
        cursor := if cursor.value in scopes then scopes[cursor.value].parent else None;
        if cursor.Some? { depth := depth + 1; }
      }
    }

    method Insert(parent: ScopeId) returns (id: ScopeId)
      requires Valid() && parent in scopes
      modifies this
      ensures Valid() && id == old(next) && next == id + 1 && scopes == Created(old(scopes), parent, id)
    {
      id := next;
      next := next + 1;
      scopes := scopes[id := Scope(Some(parent), [], [], Active)];
      scopes := scopes[parent := scopes[parent].(children := scopes[parent].children + [id])];
    }

    /** The runtime's own creation. */
    method CreateScope(parent: ScopeId, maxScopes: nat, maxDepth: nat, gone: set<FiberId>) returns (r: Result<ScopeId, Error>)
      requires Valid()
      modifies this
      ensures Valid() && Parented(Swept(old(scopes), root, maxScopes, gone))
      ensures var t := Swept(old(scopes), root, maxScopes, gone);
              match CreateCheck(t, parent, maxScopes, maxDepth)
              case Err(e) => r == Err(e) && scopes == t && next == old(next)
              case Ok(_) => r == Ok(old(next)) && scopes == Created(t, parent, old(next)) && next == old(next) + 1
    {
      if |scopes| >= maxScopes { CollectGarbage(gone); }
      if |scopes| >= maxScopes { return Err(TooMany); }
      var depth := DepthBelow(parent);
      if depth > maxDepth { return Err(TooDeep); }
      if parent !in scopes { return Err(NotFound); }
      if scopes[parent].state != Active { return Err(NotActive(parent)); }
      var id := Insert(parent);
      return Ok(id);
    }

    /** A plugin's creation under its own scope: the same conditions, checked in another order; the
        plugin may be refused for reasons of its own in between. */
    method CreateChild(parent: ScopeId, maxScopes: nat, maxDepth: nat, gone: set<FiberId>, admitted: bool) returns (r: Result<ScopeId, Error>)
      requires Valid()
      modifies this
      ensures Valid() && Parented(Swept(old(scopes), root, maxScopes, gone))
      ensures var t := Swept(old(scopes), root, maxScopes, gone);
              && (r.Ok? <==> admitted && CreateCheck(t, parent, maxScopes, maxDepth).Ok?)
              && (r.Err? ==> scopes == t && next == old(next))
              && (r.Err? ==> r.error == if !admitted then Refused else if parent !in t then NotFound
                                        else if t[parent].state != Active then NotActive(parent)
                                        else if |t| >= maxScopes then TooMany else TooDeep)
              && (r.Ok? ==> r == Ok(old(next)) && scopes == Created(t, parent, old(next)) && next == old(next) + 1)
    {
      if |scopes| >= maxScopes { CollectGarbage(gone); }
      if !admitted { return Err(Refused); }
      if parent !in scopes { return Err(NotFound); }
      if scopes[parent].state != Active { return Err(NotActive(parent)); }
      if |scopes| >= maxScopes { return Err(TooMany); }
      var depth := DepthBelow(parent);
      if depth > maxDepth { return Err(TooDeep); }
      var id := Insert(parent);
      return Ok(id);
    }

    method Reparent(children: seq<ScopeId>, to: ScopeId)
      requires forall c <- children :: c in scopes
      modifies this`scopes
      ensures scopes == map id | id in old(scopes) :: if id in children then old(scopes)[id].(parent := Some(to)) else old(scopes)[id]
    {
      for i := 0 to |children|
        invariant scopes == map id | id in old(scopes) ::
                    if id in children[..i] then old(scopes)[id].(parent := Some(to)) else old(scopes)[id]
      {
        assert children[..i + 1] == children[..i] + [children[i]] && children[i] in children;
        scopes := scopes[children[i] := scopes[children[i]].(parent := Some(to))];
      }
      assert children[..|children|] == children;
    }

    method Move(from: ScopeId, to: ScopeId, f: FiberId, children: seq<ScopeId>)
      requires from in scopes && to in scopes && from != to && forall c <- children :: c in scopes
      modifies this`scopes
      ensures scopes == MoveScopes(old(scopes), from, to, f, children)
    {
      var source := scopes[from];
      scopes := scopes[from := source.(fibers := Without(source.fibers, f), children := Minus(source.children, children))];
      var target := scopes[to];
      scopes := scopes[to := target.(fibers := target.fibers + [f], children := target.children + children)];
      Reparent(children, to);
    }

    method CommitLocked(p: ScopeRevision) returns (ok: bool)
      modifies this`scopes
      ensures ok == CanCommit(old(scopes), p)
      ensures scopes == if ok then ScopesMoved(old(scopes), p) else old(scopes)
      ensures old(Valid()) && (forall c <- p.children :: p.target < c) ==> Valid()
    {
      ok := CanCommit(scopes, p);
      if ok {
        assert p.staged in scopes[p.staging].fibers;
        Move(p.staging, p.target, p.staged, p.children);
      }
    }

    method RollbackLocked(p: ScopeRevision) returns (ok: bool)
      modifies this`scopes
      ensures ok == CanRollBack(old(scopes), p)
      ensures scopes == if ok then ScopesBack(old(scopes), p) else old(scopes)
      ensures old(Valid()) && (forall c <- p.children :: p.staging < c) ==> Valid()
    {
      ok := CanRollBack(scopes, p);
      if ok {
        assert p.staged in scopes[p.target].fibers;
        Move(p.target, p.staging, p.staged, p.children);
      }
    }

    method CollectGarbage(gone: set<FiberId>)
      modifies this`scopes
      ensures scopes == Reclaimed(Detached(old(scopes), gone), root)
      ensures old(Valid()) ==> Valid()
    {
      scopes := map id | id in scopes :: scopes[id].(fibers := WithoutFibers(scopes[id].fibers, gone));
      var reclaim := set id | id in scopes && Reclaimable(root, id, scopes[id]);
      scopes := scopes - reclaim;
    }
  }
}
