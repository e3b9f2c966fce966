/** Who provides which symbol in which scope, the move of a fiber's provisions on a reload, and the
    search for dependency cycles. */
module DependencyGraph {
  import opened Wrappers
  import opened Sequences
  import opened ServiceRegistry

  type Declared = map<Key, seq<FiberId>>

  function ProvidersAt(d: Declared, key: Key): seq<FiberId> {
    if key in d then d[key] else []
  }

  function Count(s: seq<FiberId>, f: FiberId): nat {
    multiset(s)[f]
  }

  /** The provider is listed once where it moves from and nowhere else, for each of the symbols. */
  ghost predicate CanMove(d: Declared, from: ScopeId, to: ScopeId, symbols: seq<Symbol>, f: FiberId) {
    Distinct(symbols) && forall symbol <- symbols :: AttachedOnlyAt(d, from, symbol, f) && f !in ProvidersAt(d, Key(to, symbol))
  }

  ghost predicate AttachedOnlyAt(d: Declared, from: ScopeId, symbol: Symbol, f: FiberId) {
    && Count(ProvidersAt(d, Key(from, symbol)), f) == 1
    && forall key <- d :: key.symbol == symbol && key.scope != from ==> f !in d[key]
  }

  function MovedAt(d: Declared, from: ScopeId, to: ScopeId, symbols: seq<Symbol>, f: FiberId, key: Key): seq<FiberId> {
    if key.symbol !in symbols then ProvidersAt(d, key)
    else if key.scope == to then ProvidersAt(d, key) + [f]
    else if key.scope == from then Without(ProvidersAt(d, key), f)
    else ProvidersAt(d, key)
  }

  /** Every list as the move leaves it. */
  ghost predicate IsMoved(d: Declared, from: ScopeId, to: ScopeId, symbols: seq<Symbol>, f: FiberId, e: Declared) {
    forall key: Key :: ProvidersAt(e, key) == MovedAt(d, from, to, symbols, f, key)
  }

  function MoveAll(d: Declared, from: ScopeId, to: ScopeId, symbols: seq<Symbol>, f: FiberId): Declared {
    map key | key in d.Keys + (set symbol <- symbols :: Key(to, symbol)) :: MovedAt(d, from, to, symbols, f, key)
  }

  lemma MoveAllIsMoved(d: Declared, from: ScopeId, to: ScopeId, symbols: seq<Symbol>, f: FiberId)
    ensures IsMoved(d, from, to, symbols, f, MoveAll(d, from, to, symbols, f))
  {
    var e := MoveAll(d, from, to, symbols, f);
    forall key: Key ensures ProvidersAt(e, key) == MovedAt(d, from, to, symbols, f, key) {
      if key !in e { assert ProvidersAt(d, key) == []; }
    }
  }

  /** The same lists up to the order in which providers were declared. */
  ghost predicate SameProviders(d: Declared, e: Declared) {
    forall key: Key :: multiset(ProvidersAt(d, key)) == multiset(ProvidersAt(e, key))
  }

  /** One fiber's part of the graph, whatever happens to the others. */
  ghost predicate SameFor(f: FiberId, d: Declared, e: Declared) {
    forall key: Key :: Count(ProvidersAt(d, key), f) == Count(ProvidersAt(e, key), f)
  }

  class DependencyGraph {
    var declared: Declared

    constructor ()
      ensures declared == map[]
    {
      declared := map[];
    }

    method AddProvider(scope: ScopeId, symbol: Symbol, f: FiberId)
      modifies this
      ensures declared == old(declared)[Key(scope, symbol) := ProvidersAt(old(declared), Key(scope, symbol)) + [f]]
    {
      declared := declared[Key(scope, symbol) := ProvidersAt(declared, Key(scope, symbol)) + [f]];
    }

    method RemoveProvider(scope: ScopeId, symbol: Symbol, f: FiberId)
      modifies this
      ensures forall key: Key :: ProvidersAt(declared, key) ==
                (if key == Key(scope, symbol) then Without(ProvidersAt(old(declared), key), f) else ProvidersAt(old(declared), key))
    {
      var key := Key(scope, symbol);
      if key in declared { declared := declared[key := Without(declared[key], f)]; }
    }

    method CheckMove(from: ScopeId, to: ScopeId, symbols: seq<Symbol>, f: FiberId) returns (ok: bool)
      ensures ok <==> CanMove(declared, from, to, symbols, f)
    {
      SetOfDistinct(symbols);
      if |Elements(symbols)| != |symbols| { return false; }
      DistinctOfSet(symbols);
      for i := 0 to |symbols|
        invariant forall s <- symbols[..i] :: AttachedOnlyAt(declared, from, s, f) && f !in ProvidersAt(declared, Key(to, s))
      {
        var symbol := symbols[i];
        assert symbol in symbols && symbols[..i + 1] == symbols[..i] + [symbol];
        var there := f in ProvidersAt(declared, Key(to, symbol));
        var elsewhere := exists key <- declared :: key.symbol == symbol && key.scope != from && f in declared[key];
        if Count(ProvidersAt(declared, Key(from, symbol)), f) != 1 || there || elsewhere { return false; }
      }
      return true;
    }

    /** All the symbols, or an error and none. */
    method MoveProviders(from: ScopeId, to: ScopeId, symbols: seq<Symbol>, f: FiberId) returns (ok: bool)
      modifies this
      ensures ok <==> CanMove(old(declared), from, to, symbols, f)
      ensures !ok ==> declared == old(declared)
      ensures ok ==> IsMoved(old(declared), from, to, symbols, f, declared)
    {
      ok := CheckMove(from, to, symbols, f);
      if !ok { return; }
      ghost var was := declared;
      NotInPlace(was, from, to, symbols, f);
      for i := 0 to |symbols|
        invariant IsMoved(was, from, to, symbols[..i], f, declared)
      {
        ghost var before := declared;
        RemoveProvider(from, symbols[i], f);
        ghost var removed := declared;
        AddProvider(to, symbols[i], f);
        OneMoved(was, from, to, symbols, i, f, before, removed, declared);
      }
      assert symbols[..|symbols|] == symbols;
    }
  }

  lemma OneMoved(d: Declared, from: ScopeId, to: ScopeId, symbols: seq<Symbol>, i: nat, f: FiberId, before: Declared, removed: Declared, e: Declared)
    requires i < |symbols| && Distinct(symbols) && from != to && IsMoved(d, from, to, symbols[..i], f, before)
    requires forall key: Key :: ProvidersAt(removed, key) ==
               (if key == Key(from, symbols[i]) then Without(ProvidersAt(before, key), f) else ProvidersAt(before, key))
    requires e == removed[Key(to, symbols[i]) := ProvidersAt(removed, Key(to, symbols[i])) + [f]]
    ensures IsMoved(d, from, to, symbols[..i + 1], f, e)
  {
    var symbol := symbols[i];
    assert symbols[..i + 1] == symbols[..i] + [symbol] && symbol !in symbols[..i];
    forall key: Key ensures ProvidersAt(e, key) == MovedAt(d, from, to, symbols[..i + 1], f, key) {
      assert ProvidersAt(before, key) == MovedAt(d, from, to, symbols[..i], f, key);
      assert key.symbol in symbols[..i + 1] <==> key.symbol in symbols[..i] || key.symbol == symbol;
    }
  }

  lemma NotInPlace(d: Declared, from: ScopeId, to: ScopeId, symbols: seq<Symbol>, f: FiberId)
    requires CanMove(d, from, to, symbols, f)
    ensures symbols != [] ==> from != to
  {
    if symbols != [] {
      assert symbols[0] in symbols;
      assert Count(ProvidersAt(d, Key(from, symbols[0])), f) == 1;
    }
  }

  // ---- Rollback --------------------------------------------------------------------------------

  lemma MovedCount(d: Declared, from: ScopeId, to: ScopeId, symbols: seq<Symbol>, f: FiberId, e: Declared, symbol: Symbol, scope: ScopeId)
    requires CanMove(d, from, to, symbols, f) && IsMoved(d, from, to, symbols, f, e) && symbol in symbols
    ensures Count(ProvidersAt(e, Key(scope, symbol)), f) == if scope == to then 1 else 0
  {
    NotInPlace(d, from, to, symbols, f);
    var key := Key(scope, symbol);
    WithoutCounts(ProvidersAt(d, key), f);
    assert AttachedOnlyAt(d, from, symbol, f);
    assert ProvidersAt(e, key) == MovedAt(d, from, to, symbols, f, key);
    assert multiset(ProvidersAt(d, key) + [f])[f] == Count(ProvidersAt(d, key), f) + 1;
    if scope != from { assert f !in ProvidersAt(d, key); }
  }

  /** A move can be taken back at once, and still can after anything that does not concern the
      fiber. */
  lemma ProvidersRollbackSucceeds(d: Declared, from: ScopeId, to: ScopeId, symbols: seq<Symbol>, f: FiberId, e: Declared, later: Declared)
    requires CanMove(d, from, to, symbols, f) && IsMoved(d, from, to, symbols, f, e) && SameFor(f, e, later)
    ensures CanMove(later, to, from, symbols, f)
  {
    NotInPlace(d, from, to, symbols, f);
    forall symbol | symbol in symbols
      ensures AttachedOnlyAt(later, to, symbol, f) && f !in ProvidersAt(later, Key(from, symbol))
    {
      forall scope: ScopeId ensures Count(ProvidersAt(later, Key(scope, symbol)), f) == if scope == to then 1 else 0 {
        MovedCount(d, from, to, symbols, f, e, symbol, scope);
      }
      CountedOnce(later, to, symbol, f);
    }
  }

  lemma CountedOnce(d: Declared, scope: ScopeId, symbol: Symbol, f: FiberId)
    requires forall s: ScopeId :: Count(ProvidersAt(d, Key(s, symbol)), f) == if s == scope then 1 else 0
    ensures AttachedOnlyAt(d, scope, symbol, f)
    ensures forall s: ScopeId :: s != scope ==> f !in ProvidersAt(d, Key(s, symbol))
  {
    forall key | key in d && key.symbol == symbol && key.scope != scope ensures f !in d[key] {
      assert Count(ProvidersAt(d, Key(key.scope, symbol)), f) == 0 && key == Key(key.scope, symbol);
    }
  }

  lemma OneListBack(d: Declared, from: ScopeId, to: ScopeId, symbols: seq<Symbol>, f: FiberId, e: Declared, key: Key)
    requires from != to && ProvidersAt(e, key) == MovedAt(d, from, to, symbols, f, key)
    requires key.symbol in symbols && key.scope == from ==> Count(ProvidersAt(d, key), f) == 1
    requires key.symbol in symbols && key.scope == to ==> f !in ProvidersAt(d, key)
    ensures multiset(MovedAt(e, to, from, symbols, f, key)) == multiset(ProvidersAt(d, key))
  {
    BackAndForth(ProvidersAt(d, key), f);
  }

  /** Taking the move back gives every list its providers again. */
  lemma ProvidersRollbackRestores(d: Declared, from: ScopeId, to: ScopeId, symbols: seq<Symbol>, f: FiberId, e: Declared, back: Declared)
    requires CanMove(d, from, to, symbols, f) && IsMoved(d, from, to, symbols, f, e) && IsMoved(e, to, from, symbols, f, back)
    ensures SameProviders(d, back)
  {
    NotInPlace(d, from, to, symbols, f);
    if symbols != [] {
      forall key: Key ensures multiset(ProvidersAt(d, key)) == multiset(ProvidersAt(back, key)) {
        assert ProvidersAt(back, key) == MovedAt(e, to, from, symbols, f, key);
        if key.symbol in symbols { assert AttachedOnlyAt(d, from, key.symbol, f); }
        OneListBack(d, from, to, symbols, f, e, key);
      }
    } else {
      forall key: Key ensures multiset(ProvidersAt(d, key)) == multiset(ProvidersAt(back, key)) {
        assert ProvidersAt(back, key) == ProvidersAt(e, key) == ProvidersAt(d, key);
      }
    }
  }

  // ---- Cycles ------------------------------------------------------------------------------------

  type Edges = map<FiberId, seq<FiberId>>

  predicate Edge(edges: Edges, a: FiberId, b: FiberId) {
    a in edges && b in edges[a]
  }

  predicate Follows(edges: Edges, p: seq<FiberId>) {
    forall i :: 0 <= i < |p| - 1 ==> Edge(edges, p[i], p[i + 1])
  }

  predicate Cycle(edges: Edges, p: seq<FiberId>) {
    |p| >= 2 && Follows(edges, p) && p[0] == p[|p| - 1]
  }

  ghost predicate Acyclic(edges: Edges) {
    forall p: seq<FiberId> :: !Cycle(edges, p)
  }

  /** A path that has come back to a node on it. */
  predicate Returns(edges: Edges, p: seq<FiberId>) {
    |p| >= 2 && Follows(edges, p) && p[|p| - 1] in p[..|p| - 1]
  }

  function Universe(edges: Edges): set<FiberId> {
    edges.Keys + set a, b | a in edges && b in edges[a] :: b
  }

  /** Finished nodes, each after everything it depends on. */
  ghost predicate Ordered(edges: Edges, post: seq<FiberId>) {
    forall i :: 0 <= i < |post| ==> forall b :: Edge(edges, post[i], b) ==> b in post[..i]
  }

  lemma MarkedFinished(visited: set<FiberId>, visiting: set<FiberId>, node: FiberId)
    requires node !in visited && visiting <= visited
    ensures visited + {node} - (visiting + {node}) == visited - visiting && visiting + {node} <= visited + {node}
  {
  }

  class Search {
    const edges: Edges
    var visiting: set<FiberId>
    var visited: set<FiberId>
    var path: seq<FiberId>
    ghost var post: seq<FiberId>

    ghost predicate Valid()
      reads this
    {
      && Elements(path) == visiting && Distinct(path) && Follows(edges, path)
      && visiting <= visited <= Universe(edges)
      && Elements(post) == visited - visiting && Ordered(edges, post)
    }

    constructor (edges: Edges)
      ensures Valid() && this.edges == edges && visiting == {} && visited == {} && path == [] && post == []
    {
      this.edges := edges;
      visiting, visited, path, post := {}, {}, [], [];
    }

    method Enter(node: FiberId)
      requires Valid() && node in Universe(edges) && node !in visited
      requires path != [] ==> Edge(edges, path[|path| - 1], node)
      modifies this
      ensures Valid() && path == old(path) + [node]
      ensures visiting == old(visiting) + {node} && visited == old(visited) + {node}
    {
      EnterKeeps(path, node);
      MarkedFinished(visited, visiting, node);
      visited := visited + {node};
      visiting := visiting + {node};
      path := path + [node];
    }

    method Leave(ghost before: seq<FiberId>, node: FiberId)
      requires Valid() && path == before + [node]
      requires forall b :: Edge(edges, node, b) ==> b in visited - visiting
      modifies this
      ensures Valid() && path == before && visiting == old(visiting) - {node} && visited == old(visited)
      ensures node in visited - visiting
    {
      EnterKeeps(before, node);
      path := path[..|path| - 1];
      visiting := visiting - {node};
      FinishKeeps(edges, post, visited - visiting, node);
      post := post + [node];
    }

    method Visit(node: FiberId) returns (r: Result<(), seq<FiberId>>)
      requires Valid() && node in Universe(edges)
      requires path != [] ==> Edge(edges, path[|path| - 1], node)
      modifies this
      ensures r.Err? ==> Returns(edges, r.error)
      ensures r.Ok? ==> Valid() && path == old(path) && visiting == old(visiting)
      ensures r.Ok? ==> node in visited - visiting && old(visited) <= visited
      decreases Universe(edges) - visited
    {
      if node in visiting {
        path := path + [node];
        assert node in old(path);
        return Err(path);
      }
      if node in visited { return Ok(()); }
      Enter(node);
      if node in edges {
        var next := edges[node];
        for k := 0 to |next|
          invariant Valid() && path == old(path) + [node] && visiting == old(visiting) + {node}
          invariant old(visited) + {node} <= visited
          invariant forall j :: 0 <= j < k ==> next[j] in visited - visiting
        {
          assert Edge(edges, node, next[k]);
          var _ :- Visit(next[k]);
        }
      }
      Leave(old(path), node);
      return Ok(());
    }
  }

  lemma EnterKeeps(path: seq<FiberId>, node: FiberId)
    ensures node !in path ==> (Distinct(path + [node]) <==> Distinct(path))
    ensures Distinct(path + [node]) ==> node !in path
    ensures Elements(path + [node]) == Elements(path) + {node}
    ensures (path + [node])[..|path|] == path
  {
    var longer := path + [node];
    assert longer[|path|] == node && forall i :: 0 <= i < |path| ==> longer[i] == path[i];
  }

  lemma FinishKeeps(edges: Edges, post: seq<FiberId>, done: set<FiberId>, node: FiberId)
    requires Ordered(edges, post) && Elements(post) == done - {node} && node in done
    requires forall b :: Edge(edges, node, b) ==> b in done - {node}
    ensures Ordered(edges, post + [node]) && Elements(post + [node]) == done
  {
    var now := post + [node];
    forall i | 0 <= i < |now| ensures forall b :: Edge(edges, now[i], b) ==> b in now[..i] {
      if i < |post| {
        assert now[..i] == post[..i];
      } else {
        assert now[..i] == post;
        forall b | Edge(edges, node, b) ensures b in post { assert b in Elements(post); }
      }
    }
    assert forall x :: x in now <==> x in Elements(post) || x == node;
  }

  /** Ok exactly if there is no cycle; otherwise a path along the edges that has met itself. */
  method ValidateCycles(edges: Edges) returns (r: Result<(), seq<FiberId>>)
    ensures r.Ok? <==> Acyclic(edges)
    ensures r.Err? ==> Returns(edges, r.error)
  {
    var search := new Search(edges);
    var keys := edges.Keys;
    while keys != {}
      invariant search.Valid() && search.path == [] && search.visiting == {} && fresh(search) && search.edges == edges
      invariant keys <= edges.Keys && edges.Keys - keys <= search.visited
      decreases keys
    {
      var node :| node in keys;
      keys := keys - {node};
      r := search.Visit(node);
      if r.Err? {
        ReturnIsCycle(edges, r.error);
        return;
      }
    }
    forall a | a in edges ensures a in search.post { assert a in Elements(search.post); }
    OrderedIsAcyclic(edges, search.post);
    return Ok(());
  }

  lemma ReturnIsCycle(edges: Edges, p: seq<FiberId>)
    requires Returns(edges, p)
    ensures !Acyclic(edges)
  {
    var i :| 0 <= i < |p| - 1 && p[i] == p[|p| - 1];
    assert Cycle(edges, p[i..]);
  }

  lemma {:induction false} DownhillPath(edges: Edges, post: seq<FiberId>, p: seq<FiberId>, i: nat)
    requires Ordered(edges, post) && Follows(edges, p) && |p| > 0
    requires i < |post| && p[0] in post[..i]
    ensures p[|p| - 1] in post[..i]
  {
    if |p| > 1 {
      var j :| 0 <= j < i && post[j] == p[0];
      assert Edge(edges, p[0], p[1]);
      assert p[1] in post[..j];
      forall k | 0 <= k < |p[1..]| - 1 ensures Edge(edges, p[1..][k], p[1..][k + 1]) {
        assert Edge(edges, p[k + 1], p[k + 2]);
      }
      DownhillPath(edges, post, p[1..], j);
    }
  }

  /** Nodes listed after what they depend on cannot be on a cycle. */
  lemma OrderedIsAcyclic(edges: Edges, post: seq<FiberId>)
    requires Ordered(edges, post) && forall a <- edges :: a in post
    ensures Acyclic(edges)
  {
    forall p | Cycle(edges, p) ensures false {
      assert Edge(edges, p[0], p[1]) && p[0] in post;
      var i := First(post, p[0]);
      assert p[1] in post[..i];
      forall k | 0 <= k < |p[1..]| - 1 ensures Edge(edges, p[1..][k], p[1..][k + 1]) {
        assert Edge(edges, p[k + 1], p[k + 2]);
      }
      DownhillPath(edges, post, p[1..], i);
    }
  }

  function First(s: seq<FiberId>, x: FiberId): (i: nat)
    requires x in s
    ensures i < |s| && s[i] == x && x !in s[..i]
  {
    if s[0] == x then 0 else
      var j := First(s[1..], x);
      assert s[..j + 1] == [s[0]] + s[1..][..j];
      j + 1
  }
}
