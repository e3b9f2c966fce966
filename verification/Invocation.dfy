/** Invocation handlers and middleware by scope and key, and the snapshot one invocation runs on:
    the handler of the deepest scope, the middleware around it, and a lease on each of their
    generations. */
module Invocation {
  import opened Wrappers
  import opened CapabilityGate
  import opened ServiceRegistry

  type InvocationKey = nat
  type EntryId = nat

  datatype Handler = Handler(id: EntryId, scope: ScopeId, key: InvocationKey, gate: Gate)

  datatype Middleware = Middleware(id: EntryId, scope: ScopeId, key: InvocationKey, gate: Gate, order: nat)

  datatype Error = HandlerNotFound | GenerationChanged | DuplicateHandler | UnknownHandler

  // ---- The plain meaning of a snapshot -------------------------------------------------------------

  predicate Serves(h: Handler, active: Active, scope: ScopeId, key: InvocationKey) {
    Visible(active, h.gate) && h.scope == scope && h.key == key
  }

  predicate NoneServes(handlers: seq<Handler>, active: Active, scope: ScopeId, key: InvocationKey) {
    forall h <- handlers :: !Serves(h, active, scope, key)
  }

  ghost predicate NoHandler(handlers: seq<Handler>, active: Active, scopes: seq<ScopeId>, key: InvocationKey) {
    forall e :: 0 <= e < |scopes| ==> NoneServes(handlers, active, scopes[e], key)
  }

  /** The deepest scope with a visible handler is `scopes[d]`, and there the `i`th is the first in slot
      order. */
  ghost predicate DeepestAt(handlers: seq<Handler>, active: Active, scopes: seq<ScopeId>, key: InvocationKey, d: nat, i: nat) {
    && d < |scopes| && i < |handlers| && Serves(handlers[i], active, scopes[d], key)
    && NoneServes(handlers[..i], active, scopes[d], key) && NoHandler(handlers, active, scopes[d + 1..], key)
  }

  ghost predicate IsDeepestHandler(h: Handler, handlers: seq<Handler>, active: Active, scopes: seq<ScopeId>, key: InvocationKey) {
    exists d: nat, i: nat :: DeepestAt(handlers, active, scopes, key, d, i) && handlers[i] == h
  }

  /** The depth of a scope on the way down, or past the end if it is not on the way. */
  function Depth(scopes: seq<ScopeId>, scope: ScopeId): (d: nat)
    ensures d <= |scopes| && (d < |scopes| ==> scopes[d] == scope) && forall e :: 0 <= e < d ==> scopes[e] != scope
  {
    if scopes == [] || scopes[0] == scope then 0 else 1 + Depth(scopes[1..], scope)
  }

  predicate Wraps(m: Middleware, active: Active, scopes: seq<ScopeId>, key: InvocationKey) {
    m.scope in scopes && Visible(active, m.gate) && m.key == key
  }

  function Selected(middleware: seq<Middleware>, active: Active, scopes: seq<ScopeId>, key: InvocationKey): seq<Middleware> {
    if middleware == [] then []
    else
      var last := middleware[|middleware| - 1];
      var before := Selected(middleware[..|middleware| - 1], active, scopes, key);
      if Wraps(last, active, scopes, key) then before + [last] else before
  }

  /** Outer scopes first, and in a scope the earlier registered first. */
  predicate Before(scopes: seq<ScopeId>, a: Middleware, b: Middleware) {
    Depth(scopes, a.scope) < Depth(scopes, b.scope) || (Depth(scopes, a.scope) == Depth(scopes, b.scope) && a.order <= b.order)
  }

  predicate Sorted(scopes: seq<ScopeId>, ms: seq<Middleware>) {
    forall i, j :: 0 <= i < j < |ms| ==> Before(scopes, ms[i], ms[j])
  }

  function InsertSorted(scopes: seq<ScopeId>, ms: seq<Middleware>, m: Middleware): (r: seq<Middleware>)
    ensures multiset(r) == multiset(ms) + multiset{m}
  {
    if ms == [] || Before(scopes, ms[|ms| - 1], m) then ms + [m]
    else
      assert ms == ms[..|ms| - 1] + [ms[|ms| - 1]];
      InsertSorted(scopes, ms[..|ms| - 1], m) + [ms[|ms| - 1]]
  }

  lemma {:induction false} InsertKeepsSorted(scopes: seq<ScopeId>, ms: seq<Middleware>, m: Middleware)
    requires Sorted(scopes, ms)
    ensures Sorted(scopes, InsertSorted(scopes, ms, m))
    ensures forall x :: x in InsertSorted(scopes, ms, m) ==> x in ms || x == m
  {
    if ms != [] && !Before(scopes, ms[|ms| - 1], m) {
      var front, last := ms[..|ms| - 1], ms[|ms| - 1];
      InsertKeepsSorted(scopes, front, m);
      forall x | x in InsertSorted(scopes, front, m) ensures Before(scopes, x, last) {
        if x != m {
          var i :| 0 <= i < |front| && front[i] == x;
          assert ms[i] == x;
        }
      }
    }
  }

  lemma {:induction false} SelectedIsExact(middleware: seq<Middleware>, active: Active, scopes: seq<ScopeId>, key: InvocationKey)
    ensures forall m :: m in Selected(middleware, active, scopes, key) <==> m in middleware && Wraps(m, active, scopes, key)
    ensures forall m :: multiset(Selected(middleware, active, scopes, key))[m] ==
                        if Wraps(m, active, scopes, key) then multiset(middleware)[m] else 0
  {
    if middleware != [] {
      var front, last := middleware[..|middleware| - 1], middleware[|middleware| - 1];
      assert middleware == front + [last];
      SelectedIsExact(front, active, scopes, key);
    }
  }

  // ---- Looking while the gates change ------------------------------------------------------------------

  /** What has been looked at already is read the same ever after. */
  lemma SeenStays(a: Active, b: Active, gate: Gate)
    requires Extends(a, b) && gate.selector in a
    ensures gate.selector in b && Visible(a, gate) == Visible(b, gate)
  {
  }

  predicate AllSeen(handlers: seq<Handler>, seen: Active) {
    forall h <- handlers :: h.gate.selector in seen
  }

  lemma HandlersStay(handlers: seq<Handler>, a: Active, b: Active, scope: ScopeId, key: InvocationKey)
    requires Extends(a, b) && AllSeen(handlers, a)
    ensures AllSeen(handlers, b) && NoneServes(handlers, a, scope, key) == NoneServes(handlers, b, scope, key)
  {
    forall h | h in handlers ensures Serves(h, a, scope, key) == Serves(h, b, scope, key) { SeenStays(a, b, h.gate); }
  }

  lemma OneMoreSeen(handlers: seq<Handler>, i: nat, seen: Active, scope: ScopeId, key: InvocationKey)
    requires i < |handlers| && AllSeen(handlers[..i], seen) && NoneServes(handlers[..i], seen, scope, key)
    requires handlers[i].gate.selector in seen && !Serves(handlers[i], seen, scope, key)
    ensures AllSeen(handlers[..i + 1], seen) && NoneServes(handlers[..i + 1], seen, scope, key)
  {
    assert handlers[..i + 1] == handlers[..i] + [handlers[i]];
  }

  lemma DeeperStay(handlers: seq<Handler>, a: Active, b: Active, scopes: seq<ScopeId>, key: InvocationKey)
    requires Extends(a, b) && (scopes != [] ==> AllSeen(handlers, a)) && NoHandler(handlers, a, scopes, key)
    ensures NoHandler(handlers, b, scopes, key) && (scopes != [] ==> AllSeen(handlers, b))
  {
    forall e | 0 <= e < |scopes| ensures NoneServes(handlers, b, scopes[e], key) { HandlersStay(handlers, a, b, scopes[e], key); }
    if scopes != [] { HandlersStay(handlers, a, b, scopes[0], key); }
  }

  /** Everything that was looked at until the handler was found. */
  predicate LookedUpTo(handlers: seq<Handler>, seen: Active, scopes: seq<ScopeId>, d: nat, i: nat) {
    d < |scopes| && i < |handlers| && AllSeen(handlers[..i + 1], seen) && (d + 1 < |scopes| ==> AllSeen(handlers, seen))
  }

  /** The handler is the deepest one, as far as the cache has looked. */
  ghost predicate Found(h: Handler, handlers: seq<Handler>, seen: Active, scopes: seq<ScopeId>, key: InvocationKey) {
    exists d: nat, i: nat :: DeepestAt(handlers, seen, scopes, key, d, i) && handlers[i] == h && LookedUpTo(handlers, seen, scopes, d, i)
  }

  lemma FoundHere(handlers: seq<Handler>, seen: Active, scopes: seq<ScopeId>, key: InvocationKey, d: nat, i: nat)
    requires d < |scopes| && i < |handlers| && Serves(handlers[i], seen, scopes[d], key) && handlers[i].gate.selector in seen
    requires NoneServes(handlers[..i], seen, scopes[d], key) && AllSeen(handlers[..i], seen)
    requires NoHandler(handlers, seen, scopes[d + 1..], key) && (d + 1 < |scopes| ==> AllSeen(handlers, seen))
    ensures Found(handlers[i], handlers, seen, scopes, key)
  {
    assert handlers[..i + 1] == handlers[..i] + [handlers[i]];
    assert DeepestAt(handlers, seen, scopes, key, d, i) && LookedUpTo(handlers, seen, scopes, d, i);
  }

  lemma NoneHere(handlers: seq<Handler>, seen: Active, scopes: seq<ScopeId>, key: InvocationKey, d: nat)
    requires d < |scopes| && NoneServes(handlers[..|handlers|], seen, scopes[d], key) && AllSeen(handlers[..|handlers|], seen)
    requires NoHandler(handlers, seen, scopes[d + 1..], key)
    ensures NoHandler(handlers, seen, scopes[d..], key) && AllSeen(handlers, seen)
  {
    assert handlers[..|handlers|] == handlers && scopes[d..] == [scopes[d]] + scopes[d + 1..];
  }

  lemma FoundStays(h: Handler, handlers: seq<Handler>, a: Active, b: Active, scopes: seq<ScopeId>, key: InvocationKey)
    requires Extends(a, b) && Found(h, handlers, a, scopes, key)
    ensures Found(h, handlers, b, scopes, key)
  {
    var d: nat, i: nat :| DeepestAt(handlers, a, scopes, key, d, i) && handlers[i] == h && LookedUpTo(handlers, a, scopes, d, i);
    assert handlers[..i + 1] == handlers[..i] + [h];
    HandlersStay(handlers[..i], a, b, scopes[d], key);
    HandlersStay([h], a, b, scopes[d], key);
    DeeperStay(handlers, a, b, scopes[d + 1..], key);
    assert DeepestAt(handlers, b, scopes, key, d, i) && LookedUpTo(handlers, b, scopes, d, i);
  }

  lemma FoundIsDeepest(h: Handler, handlers: seq<Handler>, seen: Active, scopes: seq<ScopeId>, key: InvocationKey)
    requires Found(h, handlers, seen, scopes, key)
    ensures IsDeepestHandler(h, handlers, seen, scopes, key)
    ensures Visible(seen, h.gate) && h.gate.selector in seen && h.key == key && h.scope in scopes
  {
    var d: nat, i: nat :| DeepestAt(handlers, seen, scopes, key, d, i) && handlers[i] == h && LookedUpTo(handlers, seen, scopes, d, i);
    assert h in handlers[..i + 1];
  }

  predicate OnPathSeen(ms: seq<Middleware>, scopes: seq<ScopeId>, seen: Active) {
    forall m <- ms :: m.scope in scopes ==> m.gate.selector in seen
  }

  lemma {:induction false} SelectedStays(ms: seq<Middleware>, a: Active, b: Active, scopes: seq<ScopeId>, key: InvocationKey)
    requires Extends(a, b) && OnPathSeen(ms, scopes, a)
    ensures Selected(ms, a, scopes, key) == Selected(ms, b, scopes, key) && OnPathSeen(ms, scopes, b)
  {
    if ms != [] {
      var front, last := ms[..|ms| - 1], ms[|ms| - 1];
      assert ms == front + [last];
      SelectedStays(front, a, b, scopes, key);
    }
  }

  /** One middleware more, if it wraps. */
  function Chosen(ms: seq<Middleware>, m: Middleware, wraps: bool, scopes: seq<ScopeId>): seq<Middleware> {
    if wraps then InsertSorted(scopes, ms, m) else ms
  }

  lemma OneMoreChosen(all: seq<Middleware>, i: nat, a: Active, b: Active, scopes: seq<ScopeId>, key: InvocationKey, ms: seq<Middleware>)
    requires i < |all| && Extends(a, b) && OnPathSeen(all[..i], scopes, a)
    requires all[i].scope in scopes ==> all[i].gate.selector in b
    requires Sorted(scopes, ms) && multiset(ms) == multiset(Selected(all[..i], a, scopes, key))
    ensures OnPathSeen(all[..i + 1], scopes, b)
    ensures var next := Chosen(ms, all[i], Wraps(all[i], b, scopes, key), scopes);
            Sorted(scopes, next) && multiset(next) == multiset(Selected(all[..i + 1], b, scopes, key))
  {
    assert all[..i + 1] == all[..i] + [all[i]];
    assert all[..i + 1][..i] == all[..i];
    SelectedStays(all[..i], a, b, scopes, key);
    if Wraps(all[i], b, scopes, key) { InsertKeepsSorted(scopes, ms, all[i]); }
  }

  // ---- The registry ----------------------------------------------------------------------------------

  datatype Snapshot = Snapshot(handler: Handler, middleware: seq<Middleware>)

  /** In the order in which leases are asked for. */
  function GatesOf(s: Snapshot): (gs: seq<Gate>)
    ensures |gs| == |s.middleware| + 1 && gs[0] == s.handler.gate
    ensures forall i :: 0 <= i < |s.middleware| ==> gs[i + 1] == s.middleware[i].gate
  {
    [s.handler.gate] + seq(|s.middleware|, i requires 0 <= i < |s.middleware| => s.middleware[i].gate)
  }

  datatype Registrations = Registrations(handlers: seq<Handler>, middleware: seq<Middleware>)

  /** One attempt: the generations as it first saw them, the instant it started at, and the one at
      which it asked for its first lease. */
  datatype Attempt = Attempt(seen: Active, start: nat, asked: nat)

  /** The reading of the registrations under the first looks. */
  ghost predicate IsChoice(s: Snapshot, r: Registrations, a: Attempt, at: nat -> Moment, scopes: seq<ScopeId>, key: InvocationKey) {
    && FirstLooks(a.seen, at, a.start, a.asked)
    && Found(s.handler, r.handlers, a.seen, scopes, key)
    && Sorted(scopes, s.middleware)
    && multiset(s.middleware) == multiset(Selected(r.middleware, a.seen, scopes, key))
    && OnPathSeen(r.middleware, scopes, a.seen)
  }

  /** Whose lease was refused, if any: leases are asked for one after the other. */
  predicate GrantedUpTo(gates: seq<Gate>, at: nat -> Moment, asked: nat, i: nat)
    requires i <= |gates|
  {
    forall j :: 0 <= j < i ==> !ClosedAt(at, asked + j, gates[j])
  }

  predicate RefusedSome(gates: seq<Gate>, at: nat -> Moment, asked: nat) {
    exists i | 0 <= i < |gates| :: GrantedUpTo(gates, at, asked, i) && ClosedAt(at, asked + i, gates[i])
  }

  ghost predicate IsSnapshot(s: Snapshot, r: Registrations, a: Attempt, at: nat -> Moment, scopes: seq<ScopeId>, key: InvocationKey) {
    IsChoice(s, r, a, at, scopes, key) && GrantedUpTo(GatesOf(s), at, a.asked, |GatesOf(s)|)
  }

  ghost predicate IsRefusal(s: Snapshot, r: Registrations, a: Attempt, at: nat -> Moment, scopes: seq<ScopeId>, key: InvocationKey) {
    && IsChoice(s, r, a, at, scopes, key)
    && RefusedSome(GatesOf(s), at, a.asked)
  }

  ghost predicate WasRefused(r: Registrations, a: Attempt, at: nat -> Moment, scopes: seq<ScopeId>, key: InvocationKey) {
    exists s :: IsRefusal(s, r, a, at, scopes, key)
  }

  ghost predicate IsMiss(r: Registrations, a: Attempt, at: nat -> Moment, scopes: seq<ScopeId>, key: InvocationKey) {
    && FirstLooks(a.seen, at, a.start, a.asked) && NoHandler(r.handlers, a.seen, scopes, key)
    && (scopes != [] ==> AllSeen(r.handlers, a.seen))
  }

  /** What became of one attempt; `choice` is what it would have been. */
  datatype Tried = Taken(snapshot: Snapshot) | Refused(choice: Snapshot) | Missing

  ghost predicate IsTried(t: Tried, r: Registrations, a: Attempt, at: nat -> Moment, scopes: seq<ScopeId>, key: InvocationKey) {
    match t
    case Taken(s) => IsSnapshot(s, r, a, at, scopes, key)
    case Refused(s) => IsRefusal(s, r, a, at, scopes, key)
    case Missing => IsMiss(r, a, at, scopes, key)
  }

  lemma RefusedIsRefused(t: Tried, r: Registrations, a: Attempt, at: nat -> Moment, scopes: seq<ScopeId>, key: InvocationKey)
    requires IsTried(t, r, a, at, scopes, key)
    ensures t.Refused? ==> WasRefused(r, a, at, scopes, key)
  {
  }

  lemma OneMoreLease(gates: seq<Gate>, i: nat, at: nat -> Moment, asked: nat, held: multiset<Gate>)
    requires i < |gates| && GrantedUpTo(gates, at, asked, i) && !ClosedAt(at, asked + i, gates[i])
    ensures GrantedUpTo(gates, at, asked, i + 1)
    ensures held + multiset(gates[..i]) + multiset{gates[i]} == held + multiset(gates[..i + 1])
  {
    assert gates[..i + 1] == gates[..i] + [gates[i]];
  }

  class InvocationRegistry {
    var handlers: seq<Handler>
    var middleware: seq<Middleware>
    /** Leases held on executions. */
    var leases: multiset<Gate>

    ghost function Entries(): Registrations
      reads this`handlers, this`middleware
    {
      Registrations(handlers, middleware)
    }

    constructor ()
      ensures handlers == [] && middleware == [] && leases == multiset{}
    {
      handlers, middleware, leases := [], [], multiset{};
    }

    /** The first of the handlers that serves, each looked at in turn; its place, or past the end. */
    method FindIn(scope: ScopeId, key: InvocationKey, cache: VisibilityCache, world: Surroundings, ghost start: nat) returns (i: nat)
      requires FirstLooks(cache.seen, world.at, start, world.now)
      modifies cache, world
      ensures Extends(old(cache.seen), cache.seen) && FirstLooks(cache.seen, world.at, start, world.now)
      ensures i <= |handlers| && NoneServes(handlers[..i], cache.seen, scope, key) && AllSeen(handlers[..i], cache.seen)
      ensures i < |handlers| ==> Serves(handlers[i], cache.seen, scope, key) && handlers[i].gate.selector in cache.seen
    {
      i := 0;
      while i < |handlers|
        invariant i <= |handlers|
        invariant Extends(old(cache.seen), cache.seen) && FirstLooks(cache.seen, world.at, start, world.now)
        invariant AllSeen(handlers[..i], cache.seen) && NoneServes(handlers[..i], cache.seen, scope, key)
      {
        ghost var before := cache.seen;
        var visible := cache.Sees(handlers[i].gate, world, start);
        HandlersStay(handlers[..i], before, cache.seen, scope, key);
        if visible && handlers[i].scope == scope && handlers[i].key == key { return; }
        OneMoreSeen(handlers, i, cache.seen, scope, key);
        i := i + 1;
      }
    }

    /** One scope more on the way up, when nothing was found below it. */
    method FindAt(scopes: seq<ScopeId>, d: nat, key: InvocationKey, cache: VisibilityCache, world: Surroundings, ghost start: nat)
      returns (r: Option<Handler>)
      requires FirstLooks(cache.seen, world.at, start, world.now) && d < |scopes|
      requires NoHandler(handlers, cache.seen, scopes[d + 1..], key) && (d + 1 < |scopes| ==> AllSeen(handlers, cache.seen))
      modifies cache, world
      ensures Extends(old(cache.seen), cache.seen) && FirstLooks(cache.seen, world.at, start, world.now)
      ensures r.Some? ==> Found(r.value, handlers, cache.seen, scopes, key)
      ensures r.None? ==> NoHandler(handlers, cache.seen, scopes[d..], key) && AllSeen(handlers, cache.seen)
    {
      ghost var before := cache.seen;
      var i := FindIn(scopes[d], key, cache, world, start);
      DeeperStay(handlers, before, cache.seen, scopes[d + 1..], key);
      if i < |handlers| {
        FoundHere(handlers, cache.seen, scopes, key, d, i);
        return Some(handlers[i]);
      }
      NoneHere(handlers, cache.seen, scopes, key, d);
      return None;
    }

    method FindHandler(scopes: seq<ScopeId>, key: InvocationKey, cache: VisibilityCache, world: Surroundings, ghost start: nat)
      returns (r: Option<Handler>)
      requires FirstLooks(cache.seen, world.at, start, world.now)
      modifies cache, world
      ensures Extends(old(cache.seen), cache.seen) && FirstLooks(cache.seen, world.at, start, world.now)
      ensures match r
              case Some(h) => Found(h, handlers, cache.seen, scopes, key)
              case None => NoHandler(handlers, cache.seen, scopes, key) && (scopes != [] ==> AllSeen(handlers, cache.seen))
    {
      var d := |scopes|;
      while d > 0
        invariant 0 <= d <= |scopes|
        invariant Extends(old(cache.seen), cache.seen) && FirstLooks(cache.seen, world.at, start, world.now)
        invariant NoHandler(handlers, cache.seen, scopes[d..], key) && (d < |scopes| ==> AllSeen(handlers, cache.seen))
      {
        d := d - 1;
        r := FindAt(scopes, d, key, cache, world, start);
        if r.Some? { return; }
      }
      assert scopes[0..] == scopes;
      return None;
    }

    method FindMiddleware(scopes: seq<ScopeId>, key: InvocationKey, cache: VisibilityCache, world: Surroundings, ghost start: nat)
      returns (ms: seq<Middleware>)
      requires FirstLooks(cache.seen, world.at, start, world.now)
      modifies cache, world
      ensures Extends(old(cache.seen), cache.seen) && FirstLooks(cache.seen, world.at, start, world.now)
      ensures OnPathSeen(middleware, scopes, cache.seen)
      ensures Sorted(scopes, ms) && multiset(ms) == multiset(Selected(middleware, cache.seen, scopes, key))
    {
      ms := [];
      var i := 0;
      while i < |middleware|
        invariant i <= |middleware|
        invariant Extends(old(cache.seen), cache.seen) && FirstLooks(cache.seen, world.at, start, world.now)
        invariant OnPathSeen(middleware[..i], scopes, cache.seen)
        invariant Sorted(scopes, ms) && multiset(ms) == multiset(Selected(middleware[..i], cache.seen, scopes, key))
      {
        ghost var before := cache.seen;
        var wraps := LooksAndWraps(middleware[i], scopes, key, cache, world, start);
        OneMoreChosen(middleware, i, before, cache.seen, scopes, key, ms);
        ms := Chosen(ms, middleware[i], wraps, scopes);
        i := i + 1;
      }
      assert middleware[..|middleware|] == middleware;
    }

    /** Only what is on the way is looked at. */
    method LooksAndWraps(m: Middleware, scopes: seq<ScopeId>, key: InvocationKey, cache: VisibilityCache, world: Surroundings, ghost start: nat)
      returns (wraps: bool)
      requires FirstLooks(cache.seen, world.at, start, world.now)
      modifies cache, world
      ensures Extends(old(cache.seen), cache.seen) && FirstLooks(cache.seen, world.at, start, world.now)
      ensures wraps == Wraps(m, cache.seen, scopes, key)
      ensures cache.seen.Keys == old(cache.seen).Keys + if m.scope in scopes then {m.gate.selector} else {}
    {
      if m.scope !in scopes { return false; }
      var visible := cache.Sees(m.gate, world, start);
      return visible && m.key == key;
    }

    /** One lease after the other until one is refused; how many were granted. */
    method AcquireFirst(gates: seq<Gate>, world: Surroundings) returns (i: nat)
      modifies this`leases, world
      ensures i <= |gates| && leases == old(leases) + multiset(gates[..i])
      ensures GrantedUpTo(gates, world.at, old(world.now), i)
      ensures i < |gates| ==> ClosedAt(world.at, old(world.now) + i, gates[i])
    {
      i := 0;
      while i < |gates|
        invariant i <= |gates| && world.now == old(world.now) + i
        invariant leases == old(leases) + multiset(gates[..i]) && GrantedUpTo(gates, world.at, old(world.now), i)
      {
        var got := world.TryAcquire(gates[i]);
        if !got { return; }
        OneMoreLease(gates, i, world.at, old(world.now), old(leases));
        leases := leases + multiset{gates[i]};
        i := i + 1;
      }
    }

    /** A lease for the handler and for each middleware, or none. */
    method AcquireAll(gates: seq<Gate>, world: Surroundings) returns (ok: bool)
      modifies this`leases, world
      ensures ok <==> GrantedUpTo(gates, world.at, old(world.now), |gates|)
      ensures !ok ==> RefusedSome(gates, world.at, old(world.now))
      ensures leases == if ok then old(leases) + multiset(gates) else old(leases)
    {
      var granted := AcquireFirst(gates, world);
      ok := granted == |gates|;
      if ok {
        assert gates[..granted] == gates;
      } else {
        leases := leases - multiset(gates[..granted]);
      }
    }

    method TryOnce(scopes: seq<ScopeId>, key: InvocationKey, world: Surroundings) returns (r: Tried, a: Attempt)
      modifies this`leases, world
      ensures a.start == old(world.now) && IsTried(r, Entries(), a, world.at, scopes, key)
      ensures leases == if r.Taken? then old(leases) + multiset(GatesOf(r.snapshot)) else old(leases)
    {
      var cache := new VisibilityCache();
      var start := world.now;
      var h := FindHandler(scopes, key, cache, world, start);
      if h == None { return Missing, Attempt(cache.seen, start, world.now); }
      ghost var before := cache.seen;
      var ms := FindMiddleware(scopes, key, cache, world, start);
      FoundStays(h.value, handlers, before, cache.seen, scopes, key);
      a := Attempt(cache.seen, start, world.now);
      var s := Snapshot(h.value, ms);
      var admitted := AcquireAll(GatesOf(s), world);
      r := if admitted then Taken(s) else Refused(s);
    }

    /** Two attempts, each with its own looks, while the gates change from one instant to the next. */
    method TakeSnapshot(scopes: seq<ScopeId>, key: InvocationKey, world: Surroundings) returns (r: Result<Snapshot, Error>, attempts: seq<Attempt>)
      modifies this`leases, world
      ensures 1 <= |attempts| <= 2 && attempts[0].start == old(world.now)
      ensures |attempts| == 2 ==> WasRefused(Entries(), attempts[0], world.at, scopes, key)
      ensures r.Ok? ==> IsSnapshot(r.value, Entries(), attempts[|attempts| - 1], world.at, scopes, key)
      ensures r == Err(HandlerNotFound) ==> IsMiss(Entries(), attempts[|attempts| - 1], world.at, scopes, key)
      ensures r == Err(GenerationChanged) ==> |attempts| == 2 && WasRefused(Entries(), attempts[1], world.at, scopes, key)
      ensures r.Err? ==> r.error == HandlerNotFound || r.error == GenerationChanged
      ensures leases == if r.Ok? then old(leases) + multiset(GatesOf(r.value)) else old(leases)
    {
      var tried, first := TryOnce(scopes, key, world);
      RefusedIsRefused(tried, Entries(), first, world.at, scopes, key);
      attempts := [first];
      if tried.Refused? {
        var again, second := TryOnce(scopes, key, world);
        RefusedIsRefused(again, Entries(), second, world.at, scopes, key);
        tried, attempts := again, [first, second];
      }
      match tried {
        case Taken(s) => r := Ok(s);
        case Refused(_) => r := Err(GenerationChanged);
        case Missing => r := Err(HandlerNotFound);
      }
    }

    /** A staged handler may not meet another one that is, or will be, visible at the target. */
    method ValidateRevision(replaced: seq<EntryId>, staged: seq<EntryId>, target: ScopeId, gates: Gates) returns (ok: bool)
      ensures ok <==> RevisionOk(handlers, replaced, staged, target, gates.active)
    {
      for i := 0 to |staged|
        invariant forall id <- staged[..i] :: StagedOk(handlers, replaced, staged, target, gates.active, id)
      {
        var id := staged[i];
        assert staged[..i + 1] == staged[..i] + [id] && id in staged;
        if !StagedOk(handlers, replaced, staged, target, gates.active, id) { return false; }
      }
      assert staged[..|staged|] == staged;
      return true;
    }

    method SetHandlerScope(id: EntryId, scope: ScopeId)
      modifies this`handlers
      ensures handlers == HandlersAt(old(handlers), [id], scope)
    {
      for i := 0 to |handlers|
        invariant |handlers| == |old(handlers)|
        invariant forall k :: 0 <= k < |handlers| ==>
                    handlers[k] == if k < i && old(handlers)[k].id == id then old(handlers)[k].(scope := scope) else old(handlers)[k]
      {
        if handlers[i].id == id { handlers := handlers[i := handlers[i].(scope := scope)]; }
      }
    }

    method SetMiddlewareScope(id: EntryId, scope: ScopeId)
      modifies this`middleware
      ensures middleware == MiddlewareAt(old(middleware), [id], scope)
    {
      for i := 0 to |middleware|
        invariant |middleware| == |old(middleware)|
        invariant forall k :: 0 <= k < |middleware| ==>
                    middleware[k] == if k < i && old(middleware)[k].id == id then old(middleware)[k].(scope := scope) else old(middleware)[k]
      {
        if middleware[i].id == id { middleware := middleware[i := middleware[i].(scope := scope)]; }
      }
    }

    /** Id by id.  Every listed entry that exists is then registered at the target, nothing else has
        moved, and nothing but scopes has changed; the same call with the staging scope takes it back. */
    method CommitRevision(staged: seq<EntryId>, stagedMiddleware: seq<EntryId>, target: ScopeId)
      modifies this`handlers, this`middleware
      ensures Registered(Entries(), staged, stagedMiddleware, target)
      ensures |handlers| == |old(handlers)| && |middleware| == |old(middleware)|
      ensures forall k :: 0 <= k < |handlers| ==>
                && handlers[k].(scope := old(handlers)[k].scope) == old(handlers)[k]
                && (handlers[k].id !in staged ==> handlers[k] == old(handlers)[k])
      ensures forall k :: 0 <= k < |middleware| ==>
                && middleware[k].(scope := old(middleware)[k].scope) == old(middleware)[k]
                && (middleware[k].id !in stagedMiddleware ==> middleware[k] == old(middleware)[k])
      ensures handlers == HandlersAt(old(handlers), staged, target) && middleware == MiddlewareAt(old(middleware), stagedMiddleware, target)
    {
      for i := 0 to |staged|
        invariant handlers == HandlersAt(old(handlers), staged[..i], target) && middleware == old(middleware)
      {
        assert staged[..i + 1] == staged[..i] + [staged[i]];
        SetHandlerScope(staged[i], target);
      }
      assert staged[..|staged|] == staged;
      for i := 0 to |stagedMiddleware|
        invariant middleware == MiddlewareAt(old(middleware), stagedMiddleware[..i], target)
        invariant handlers == HandlersAt(old(handlers), staged, target)
      {
        assert stagedMiddleware[..i + 1] == stagedMiddleware[..i] + [stagedMiddleware[i]];
        SetMiddlewareScope(stagedMiddleware[i], target);
      }
      assert stagedMiddleware[..|stagedMiddleware|] == stagedMiddleware;
    }
  }

  lemma ChosenIsVisible(s: Snapshot, r: Registrations, a: Attempt, at: nat -> Moment, scopes: seq<ScopeId>, key: InvocationKey, i: nat)
    requires IsChoice(s, r, a, at, scopes, key) && i < |GatesOf(s)|
    ensures GatesOf(s)[i].selector in a.seen && a.seen[GatesOf(s)[i].selector] == GatesOf(s)[i].generation
  {
    if i == 0 {
      FoundIsDeepest(s.handler, r.handlers, a.seen, scopes, key);
    } else {
      var m := s.middleware[i - 1];
      assert m in multiset(s.middleware);
      assert m in multiset(Selected(r.middleware, a.seen, scopes, key));
      SelectedIsExact(r.middleware, a.seen, scopes, key);
    }
  }

  /** All entries of a snapshot that belong to one plugin belong to one generation of it, however the
      selectors change between the looks; and that generation was the live one at an instant of the
      attempt. */
  lemma OneGenerationPerPlugin(s: Snapshot, r: Registrations, a: Attempt, at: nat -> Moment, scopes: seq<ScopeId>, key: InvocationKey,
                               i: nat, j: nat)
    requires IsSnapshot(s, r, a, at, scopes, key) && i < |GatesOf(s)| && j < |GatesOf(s)|
    ensures GatesOf(s)[i].selector == GatesOf(s)[j].selector ==> GatesOf(s)[i] == GatesOf(s)[j]
    ensures exists m: nat :: a.start <= m < a.asked && SawAt(at, m, GatesOf(s)[i].selector, GatesOf(s)[i].generation)
  {
    ChosenIsVisible(s, r, a, at, scopes, key, i);
    ChosenIsVisible(s, r, a, at, scopes, key, j);
  }

  /** As executions never accept again, all that were admitted accepted at once: when the first lease
      was asked for, and each already when it was seen to be live. */
  lemma AdmittedTogether(s: Snapshot, r: Registrations, a: Attempt, at: nat -> Moment, scopes: seq<ScopeId>, key: InvocationKey, i: nat)
    requires IsSnapshot(s, r, a, at, scopes, key) && i < |GatesOf(s)|
    requires forall m: nat, n: nat :: m <= n ==> at(m).closed <= at(n).closed
    ensures GatesOf(s)[i] !in at(a.asked).closed
    ensures exists m: nat :: a.start <= m < a.asked && SawAt(at, m, GatesOf(s)[i].selector, GatesOf(s)[i].generation) && GatesOf(s)[i] !in at(m).closed
  {
    OneGenerationPerPlugin(s, r, a, at, scopes, key, i, i);
    var m: nat :| a.start <= m < a.asked && SawAt(at, m, GatesOf(s)[i].selector, GatesOf(s)[i].generation);
    assert GatesOf(s)[i] !in at(a.asked + i).closed;
    assert at(a.asked).closed <= at(a.asked + i).closed && at(m).closed <= at(a.asked + i).closed;
  }

  /** And no middleware that should be there is missing. */
  lemma NoMiddlewareMissing(s: Snapshot, r: Registrations, a: Attempt, at: nat -> Moment, scopes: seq<ScopeId>, key: InvocationKey, m: Middleware)
    requires IsSnapshot(s, r, a, at, scopes, key)
    ensures m in s.middleware <==> m in r.middleware && m.scope in scopes && m.key == key
                                   && m.gate.selector in a.seen && a.seen[m.gate.selector] == m.gate.generation
  {
    SelectedIsExact(r.middleware, a.seen, scopes, key);
    assert m in multiset(s.middleware) <==> m in multiset(Selected(r.middleware, a.seen, scopes, key));
  }

  /** Of any two middlewares of a snapshot the one that comes first is registered further up, or in the same
      scope and earlier. */
  lemma OuterComesFirst(s: Snapshot, r: Registrations, a: Attempt, at: nat -> Moment, scopes: seq<ScopeId>, key: InvocationKey, i: nat, j: nat)
    requires IsSnapshot(s, r, a, at, scopes, key) && i < j < |s.middleware|
    ensures exists d: nat, e: nat ::
              && d <= e < |scopes| && scopes[d] == s.middleware[i].scope && scopes[e] == s.middleware[j].scope
              && s.middleware[i].scope !in scopes[..d] && s.middleware[j].scope !in scopes[..e]
    ensures s.middleware[i].scope == s.middleware[j].scope ==> s.middleware[i].order <= s.middleware[j].order
  {
    NoMiddlewareMissing(s, r, a, at, scopes, key, s.middleware[i]);
    NoMiddlewareMissing(s, r, a, at, scopes, key, s.middleware[j]);
    var d, e := Depth(scopes, s.middleware[i].scope), Depth(scopes, s.middleware[j].scope);
    DepthOfMember(scopes, s.middleware[i].scope);
    DepthOfMember(scopes, s.middleware[j].scope);
    assert Before(scopes, s.middleware[i], s.middleware[j]);
    assert d <= e < |scopes| && scopes[d] == s.middleware[i].scope && scopes[e] == s.middleware[j].scope;
  }

  lemma DepthOfMember(scopes: seq<ScopeId>, scope: ScopeId)
    requires scope in scopes
    ensures Depth(scopes, scope) < |scopes| && scope !in scopes[..Depth(scopes, scope)]
  {
  }

  // ---- Reload ------------------------------------------------------------------------------------------

  function HandlersAt(hs: seq<Handler>, ids: seq<EntryId>, scope: ScopeId): (r: seq<Handler>)
    ensures |r| == |hs| && forall i :: 0 <= i < |hs| ==> r[i] == if hs[i].id in ids then hs[i].(scope := scope) else hs[i]
  {
    seq(|hs|, i requires 0 <= i < |hs| => if hs[i].id in ids then hs[i].(scope := scope) else hs[i])
  }

  function MiddlewareAt(ms: seq<Middleware>, ids: seq<EntryId>, scope: ScopeId): (r: seq<Middleware>)
    ensures |r| == |ms| && forall i :: 0 <= i < |ms| ==> r[i] == if ms[i].id in ids then ms[i].(scope := scope) else ms[i]
  {
    seq(|ms|, i requires 0 <= i < |ms| => if ms[i].id in ids then ms[i].(scope := scope) else ms[i])
  }

  /** Every listed entry that exists is registered at the scope. */
  predicate Registered(r: Registrations, hs: seq<EntryId>, ms: seq<EntryId>, scope: ScopeId) {
    && (forall h <- r.handlers :: h.id in hs ==> h.scope == scope)
    && (forall m <- r.middleware :: m.id in ms ==> m.scope == scope)
  }

  /** Moving staged entries and moving them back changes nothing. */
  lemma MoveBack(r: Registrations, hs: seq<EntryId>, ms: seq<EntryId>, from: ScopeId, to: ScopeId)
    requires Registered(r, hs, ms, from)
    ensures HandlersAt(HandlersAt(r.handlers, hs, to), hs, from) == r.handlers
    ensures MiddlewareAt(MiddlewareAt(r.middleware, ms, to), ms, from) == r.middleware
  {
    forall i | 0 <= i < |r.handlers| ensures HandlersAt(HandlersAt(r.handlers, hs, to), hs, from)[i] == r.handlers[i] {
      assert r.handlers[i] in r.handlers;
    }
    forall i | 0 <= i < |r.middleware| ensures MiddlewareAt(MiddlewareAt(r.middleware, ms, to), ms, from)[i] == r.middleware[i] {
      assert r.middleware[i] in r.middleware;
    }
  }

  predicate Clashes(h: Handler, other: Handler, replaced: seq<EntryId>, staged: seq<EntryId>, target: ScopeId, active: Active) {
    && other.id !in replaced && other.id != h.id && (Visible(active, other.gate) || other.id in staged)
    && other.scope == target && other.key == h.key
  }

  predicate StagedOk(hs: seq<Handler>, replaced: seq<EntryId>, staged: seq<EntryId>, target: ScopeId, active: Active, id: EntryId) {
    exists h <- hs :: h.id == id && forall other <- hs :: !Clashes(h, other, replaced, staged, target, active)
  }

  predicate RevisionOk(hs: seq<Handler>, replaced: seq<EntryId>, staged: seq<EntryId>, target: ScopeId, active: Active) {
    forall id <- staged :: StagedOk(hs, replaced, staged, target, active, id)
  }

  /** No two visible handlers answer for one key in one scope. */
  predicate UniqueVisible(hs: seq<Handler>, active: Active) {
    forall g, h :: g in hs && h in hs && Visible(active, g.gate) && Visible(active, h.gate) && g.scope == h.scope && g.key == h.key ==> g == h
  }

  /** What holds of the handlers when a plugin is replaced: the staged ones are those of the new gate,
      the old ones those of the gate it replaces, and a plugin registers no key twice in a scope. */
  predicate Replaces(hs: seq<Handler>, replaced: seq<EntryId>, staged: seq<EntryId>, from: ScopeId, before: Gate, gate: Gate) {
    && (forall g, h :: g in hs && h in hs && g.id == h.id ==> g == h)
    && (forall h <- hs :: h.id in staged <==> h.gate == gate)
    && (forall h <- hs :: h.id in replaced <==> h.gate == before)
    && (forall h <- hs :: h.id in staged ==> h.scope == from)
    && (forall g, h :: g in hs && h in hs && g.gate == h.gate && g.scope == h.scope && g.key == h.key ==> g == h)
    && gate.selector == before.selector && gate.generation != before.generation
  }

  lemma NewcomerIsAlone(hs: seq<Handler>, replaced: seq<EntryId>, staged: seq<EntryId>, from: ScopeId, target: ScopeId,
                        active: Active, before: Gate, gate: Gate, g: Handler, h: Handler)
    requires RevisionOk(hs, replaced, staged, target, active) && Replaces(hs, replaced, staged, from, before, gate) && g in hs && h in hs
    requires g.id in staged && h.id !in staged && Visible(Select(active, gate), h.gate) && h.scope == target
    ensures g.key != h.key
  {
    assert StagedOk(hs, replaced, staged, target, active, g.id);
    var x :| x in hs && x.id == g.id && forall other <- hs :: !Clashes(x, other, replaced, staged, target, active);
    assert x == g && !Clashes(g, h, replaced, staged, target, active);
  }

  lemma PairUnique(hs: seq<Handler>, replaced: seq<EntryId>, staged: seq<EntryId>, from: ScopeId, target: ScopeId,
                   active: Active, before: Gate, gate: Gate, g: Handler, h: Handler)
    requires UniqueVisible(hs, active) && RevisionOk(hs, replaced, staged, target, active)
    requires Replaces(hs, replaced, staged, from, before, gate) && g in hs && h in hs && g.key == h.key
    requires Visible(Select(active, gate), g.gate) && Visible(Select(active, gate), h.gate)
    requires (if g.id in staged then target else g.scope) == if h.id in staged then target else h.scope
    ensures g == h
  {
    if g.id in staged && h.id !in staged {
      NewcomerIsAlone(hs, replaced, staged, from, target, active, before, gate, g, h);
    } else if h.id in staged && g.id !in staged {
      NewcomerIsAlone(hs, replaced, staged, from, target, active, before, gate, h, g);
    }
  }

  /** A reload keeps handlers unique. */
  lemma ReloadKeepsUnique(hs: seq<Handler>, replaced: seq<EntryId>, staged: seq<EntryId>, from: ScopeId, target: ScopeId,
                          active: Active, before: Gate, gate: Gate)
    requires UniqueVisible(hs, active) && RevisionOk(hs, replaced, staged, target, active)
    requires Replaces(hs, replaced, staged, from, before, gate)
    ensures UniqueVisible(HandlersAt(hs, staged, target), Select(active, gate))
  {
    var after, now := HandlersAt(hs, staged, target), Select(active, gate);
    forall g, h | g in after && h in after && Visible(now, g.gate) && Visible(now, h.gate) && g.scope == h.scope && g.key == h.key
      ensures g == h
    {
      var i :| 0 <= i < |after| && after[i] == g;
      var j :| 0 <= j < |after| && after[j] == h;
      PairUniqueAt(hs, replaced, staged, from, target, active, before, gate, i, j);
    }
  }

  lemma PairUniqueAt(hs: seq<Handler>, replaced: seq<EntryId>, staged: seq<EntryId>, from: ScopeId, target: ScopeId,
                     active: Active, before: Gate, gate: Gate, i: nat, j: nat)
    requires i < |hs| && j < |hs| && UniqueVisible(hs, active) && RevisionOk(hs, replaced, staged, target, active)
    requires Replaces(hs, replaced, staged, from, before, gate)
    ensures var g, h, now := HandlersAt(hs, staged, target)[i], HandlersAt(hs, staged, target)[j], Select(active, gate);
            Visible(now, g.gate) && Visible(now, h.gate) && g.scope == h.scope && g.key == h.key ==> g == h
  {
    var g, h, now := HandlersAt(hs, staged, target)[i], HandlersAt(hs, staged, target)[j], Select(active, gate);
    if Visible(now, g.gate) && Visible(now, h.gate) && g.scope == h.scope && g.key == h.key {
      PairUnique(hs, replaced, staged, from, target, active, before, gate, hs[i], hs[j]);
    }
  }

  /** The staged handlers may be moved exactly if each exists and the move keeps the visible handlers of a
      scope and key unique: nothing is refused that would do no harm. */
  lemma RevisionOkExactly(hs: seq<Handler>, replaced: seq<EntryId>, staged: seq<EntryId>, from: ScopeId, target: ScopeId,
                          active: Active, before: Gate, gate: Gate)
    requires UniqueVisible(hs, active) && Replaces(hs, replaced, staged, from, before, gate) && from != target && Visible(active, before)
    ensures RevisionOk(hs, replaced, staged, target, active) <==>
              (forall id <- staged :: exists h <- hs :: h.id == id) && UniqueVisible(HandlersAt(hs, staged, target), Select(active, gate))
  {
    if RevisionOk(hs, replaced, staged, target, active) {
      ReloadKeepsUnique(hs, replaced, staged, from, target, active, before, gate);
      forall id | id in staged ensures exists h <- hs :: h.id == id { assert StagedOk(hs, replaced, staged, target, active, id); }
    }
    if (forall id <- staged :: exists h <- hs :: h.id == id) && UniqueVisible(HandlersAt(hs, staged, target), Select(active, gate)) {
      forall id | id in staged ensures StagedOk(hs, replaced, staged, target, active, id) {
        var h :| h in hs && h.id == id;
        forall other | other in hs ensures !Clashes(h, other, replaced, staged, target, active) {
          if Clashes(h, other, replaced, staged, target, active) {
            ClashIsVisible(hs, replaced, staged, from, target, active, before, gate, h, other);
          }
        }
      }
    }
  }

  lemma ClashIsVisible(hs: seq<Handler>, replaced: seq<EntryId>, staged: seq<EntryId>, from: ScopeId, target: ScopeId,
                       active: Active, before: Gate, gate: Gate, h: Handler, other: Handler)
    requires Replaces(hs, replaced, staged, from, before, gate) && from != target && Visible(active, before)
    requires h in hs && h.id in staged && other in hs && Clashes(h, other, replaced, staged, target, active)
    ensures !UniqueVisible(HandlersAt(hs, staged, target), Select(active, gate))
  {
    var after, now := HandlersAt(hs, staged, target), Select(active, gate);
    var i :| 0 <= i < |hs| && hs[i] == h;
    var j :| 0 <= j < |hs| && hs[j] == other;
    assert after[i] in after && after[j] in after;
    assert Visible(now, after[i].gate) && Visible(now, after[j].gate);
    assert after[i].scope == after[j].scope == target && after[i].key == after[j].key && after[i] != after[j];
  }
}
