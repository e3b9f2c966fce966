/** Services by scope and symbol, with a cache of resolutions.  The registry is proved against a
    state whose resolution is the plain walk from the requesting scope to the root. */
module ServiceRegistry {
  import opened Wrappers
  import opened CapabilityGate
  import opened Sequences

  type ScopeId = nat
  type FiberId = nat
  type Symbol = nat
  type Value = nat

  const EPOCHS: nat := 0x1_0000_0000_0000_0000

  datatype Key = Key(scope: ScopeId, symbol: Symbol)

  datatype Entry = Entry(owner: FiberId, scope: ScopeId, value: Value, gate: Gate)

  datatype Location = At(scope: ScopeId, owner: FiberId)

  datatype Cached = Cached(epoch: nat, location: Option<Location>)

  datatype State = State(entries: map<Key, Entry>, epoch: nat, cache: map<Key, Cached>, order: seq<Key>)

  // ---- The plain walk ----------------------------------------------------------------------------

  predicate VisibleAt(entries: map<Key, Entry>, active: Active, key: Key) {
    key in entries && Visible(active, entries[key].gate)
  }

  /** Leaf to root, the first scope with a visible entry. */
  function Walk(entries: map<Key, Entry>, active: Active, ancestry: seq<ScopeId>, symbol: Symbol): Option<ScopeId> {
    if ancestry == [] then None
    else if VisibleAt(entries, active, Key(ancestry[0], symbol)) then Some(ancestry[0])
    else Walk(entries, active, ancestry[1..], symbol)
  }

  /** Which scope that is. */
  lemma {:induction false} WalkIsFirstVisible(entries: map<Key, Entry>, active: Active, ancestry: seq<ScopeId>, symbol: Symbol, i: nat)
    requires i < |ancestry|
    requires forall j :: 0 <= j < i ==> !VisibleAt(entries, active, Key(ancestry[j], symbol))
    ensures VisibleAt(entries, active, Key(ancestry[i], symbol)) ==> Walk(entries, active, ancestry, symbol) == Some(ancestry[i])
    ensures i == |ancestry| - 1 && !VisibleAt(entries, active, Key(ancestry[i], symbol)) ==> Walk(entries, active, ancestry, symbol) == None
  {
    if i > 0 {
      assert !VisibleAt(entries, active, Key(ancestry[0], symbol));
      WalkIsFirstVisible(entries, active, ancestry[1..], symbol, i - 1);
    }
  }

  /** And conversely, what an answer says about the scopes on the way. */
  lemma {:induction false} WalkSaw(entries: map<Key, Entry>, active: Active, ancestry: seq<ScopeId>, symbol: Symbol) returns (i: nat)
    ensures match Walk(entries, active, ancestry, symbol)
            case None => i == |ancestry|
            case Some(scope) => i < |ancestry| && ancestry[i] == scope && VisibleAt(entries, active, Key(scope, symbol))
    ensures forall j :: 0 <= j < i ==> !VisibleAt(entries, active, Key(ancestry[j], symbol))
  {
    if ancestry == [] || VisibleAt(entries, active, Key(ancestry[0], symbol)) {
      i := 0;
    } else {
      var k := WalkSaw(entries, active, ancestry[1..], symbol);
      i := k + 1;
      forall j | 0 <= j < i ensures !VisibleAt(entries, active, Key(ancestry[j], symbol)) {
        assert j > 0 ==> ancestry[j] == ancestry[1..][j - 1];
      }
    }
  }

  function WalkEntry(entries: map<Key, Entry>, active: Active, ancestry: seq<ScopeId>, symbol: Symbol): Option<Entry> {
    match Walk(entries, active, ancestry, symbol)
    case None => None
    case Some(scope) => if Key(scope, symbol) in entries then Some(entries[Key(scope, symbol)]) else None
  }

  // ---- The state ---------------------------------------------------------------------------------

  /** The queue lists each cached key once, every entry is of this epoch, and the cache is within
      its bound. */
  predicate Kept(s: State, max: nat) {
    Queued(s) && |s.cache| <= max
  }

  predicate Queued(s: State) {
    && s.epoch < EPOCHS
    && Distinct(s.order) && Elements(s.order) == s.cache.Keys
    && forall k <- s.cache :: s.cache[k].epoch == s.epoch
  }

  function Bumped(s: State): State {
    State(s.entries, (s.epoch + 1) % EPOCHS, map[], [])
  }

  function Inserted(s: State, key: Key, entry: Entry): State {
    Bumped(s.(entries := s.entries[key := entry.(scope := key.scope)]))
  }

  function Removed(s: State, key: Key): State {
    if key in s.entries then Bumped(s.(entries := s.entries - {key})) else s
  }

  datatype Lookup = Miss | Hit(entry: Option<Entry>)

  function CachedResolution(s: State, active: Active, requested: ScopeId, symbol: Symbol): Lookup {
    var k := Key(requested, symbol);
    if k !in s.cache || s.cache[k].epoch != s.epoch then Miss
    else match s.cache[k].location
      case None => Hit(None)
      case Some(at) =>
        var e := Key(at.scope, symbol);
        if e in s.entries && s.entries[e].owner == at.owner && Visible(active, s.entries[e].gate) then Hit(Some(s.entries[e]))
        else Miss
  }

  function WithoutOldest(s: State): State
    requires s.order != []
  {
    s.(cache := s.cache - {s.order[0]}, order := s.order[1..])
  }

  /** Old entries leave until there is room for one. */
  function WithRoom(s: State, max: nat): State
    decreases |s.order|
  {
    if |s.cache| >= max && s.order != [] then WithRoom(WithoutOldest(s), max) else s
  }

  /** The cache as a miss leaves it. */
  function Remembered(s: State, max: nat, k: Key, location: Option<Location>): State {
    if max == 0 then s
    else
      var t := if k in s.cache then s else var r := WithRoom(s, max); r.(order := r.order + [k]);
      t.(cache := t.cache[k := Cached(s.epoch, location)])
  }

  lemma OldestLeaves(s: State)
    requires Queued(s) && s.order != []
    ensures Queued(WithoutOldest(s)) && |WithoutOldest(s).cache| == |s.cache| - 1
  {
    var t := WithoutOldest(s);
    forall x ensures x in t.order <==> x in t.cache {
      assert x in s.order <==> x in Elements(s.order);
      if x in s.order && x != s.order[0] {
        var i :| 0 <= i < |s.order| && s.order[i] == x;
        assert t.order[i - 1] == x;
      }
    }
    assert Elements(t.order) == t.cache.Keys;
    assert t.cache.Keys == s.cache.Keys - {s.order[0]};
    assert |t.cache| == |t.cache.Keys| && |s.cache| == |s.cache.Keys|;
  }

  lemma Nonempty(s: State)
    requires Queued(s) && |s.cache| > 0
    ensures s.order != []
  {
    assert |s.cache.Keys| == |s.cache|;
    assert s.order == [] ==> Elements(s.order) == {};
  }

  /** A queue that lists what is cached never runs dry before there is room, and as the cache was
      within its bound at most the oldest entry leaves. */
  lemma RoomIsMade(s: State, max: nat)
    requires Kept(s, max) && max > 0
    ensures WithRoom(s, max) == (if |s.cache| == max then WithoutOldest(s) else s)
    ensures |s.cache| == max ==> s.order != []
  {
    if |s.cache| == max {
      Nonempty(s);
      OldestLeaves(s);
    }
  }

  lemma WithRoomKeeps(s: State, max: nat)
    requires Kept(s, max) && max > 0
    ensures Queued(WithRoom(s, max)) && |WithRoom(s, max).cache| < max
    ensures WithRoom(s, max).entries == s.entries && WithRoom(s, max).epoch == s.epoch
    ensures WithRoom(s, max).cache.Keys <= s.cache.Keys
  {
    RoomIsMade(s, max);
    if |s.cache| == max { OldestLeaves(s); }
  }

  lemma Enqueued(s: State, k: Key, c: Cached)
    requires Queued(s) && k !in s.cache && c.epoch == s.epoch
    ensures var t := s.(cache := s.cache[k := c], order := s.order + [k]); Queued(t) && |t.cache| == |s.cache| + 1
  {
    var t := s.(cache := s.cache[k := c], order := s.order + [k]);
    assert k !in Elements(s.order);
    forall x ensures x in t.order <==> x in t.cache {
      assert x in s.order <==> x in Elements(s.order);
    }
    assert Elements(t.order) == t.cache.Keys;
    assert t.cache.Keys == s.cache.Keys + {k};
    assert |t.cache| == |t.cache.Keys| && |s.cache| == |s.cache.Keys|;
  }

  /** The bookkeeping of the cache survives every miss. */
  lemma RememberKeeps(s: State, max: nat, k: Key, location: Option<Location>)
    requires Kept(s, max)
    ensures Kept(Remembered(s, max, k, location), max)
    ensures var t := Remembered(s, max, k, location); t.entries == s.entries && t.epoch == s.epoch
  {
    if max > 0 {
      if k in s.cache {
        assert s.cache[k := Cached(s.epoch, location)].Keys == s.cache.Keys;
        assert |s.cache.Keys| == |s.cache|;
      } else {
        WithRoomKeeps(s, max);
        Enqueued(WithRoom(s, max), k, Cached(s.epoch, location));
      }
    }
  }

  // ---- Resolution, one look at a selector after the other ----------------------------------------------

  /** The walk looks at each entry on the way at an instant of its own; where it stops, and the instant
      after its last look. */
  function WalkAt(entries: map<Key, Entry>, at: nat -> Moment, now: nat, ancestry: seq<ScopeId>, symbol: Symbol): (Option<ScopeId>, nat)
    decreases |ancestry|
  {
    if ancestry == [] then (None, now)
    else
      var key := Key(ancestry[0], symbol);
      if key !in entries then WalkAt(entries, at, now, ancestry[1..], symbol)
      else if Visible(at(now).active, entries[key].gate) then (Some(ancestry[0]), now + 1)
      else WalkAt(entries, at, now + 1, ancestry[1..], symbol)
  }

  function LocationAt(s: State, at: nat -> Moment, now: nat, ancestry: seq<ScopeId>, symbol: Symbol): (Option<Location>, nat) {
    var (scope, last) := WalkAt(s.entries, at, now, ancestry, symbol);
    (if scope.Some? && Key(scope.value, symbol) in s.entries then Some(At(scope.value, s.entries[Key(scope.value, symbol)].owner)) else None,
     last)
  }

  /** The cached location is looked at if its entry is still the same owner's. */
  predicate LooksAtCached(s: State, requested: ScopeId, symbol: Symbol) {
    var k := Key(requested, symbol);
    && k in s.cache && s.cache[k].epoch == s.epoch && s.cache[k].location.Some?
    && var e := Key(s.cache[k].location.value.scope, symbol);
       e in s.entries && s.entries[e].owner == s.cache[k].location.value.owner
  }

  function CachedAt(s: State, at: nat -> Moment, now: nat, requested: ScopeId, symbol: Symbol): (Lookup, nat) {
    (CachedResolution(s, at(now).active, requested, symbol), if LooksAtCached(s, requested, symbol) then now + 1 else now)
  }

  /** What is looked up in the cache before any walk. */
  function FirstAt(s: State, max: nat, at: nat -> Moment, now: nat, requested: ScopeId, symbol: Symbol): (Lookup, nat) {
    if max == 0 then (Miss, now) else CachedAt(s, at, now, requested, symbol)
  }

  /** What a miss answers: a located entry is looked at once more before it is the answer. */
  function LocatedAt(s: State, at: nat -> Moment, now: nat, ancestry: seq<ScopeId>, symbol: Symbol): (Option<Entry>, nat) {
    var (location, last) := LocationAt(s, at, now, ancestry, symbol);
    if location == None || Key(location.value.scope, symbol) !in s.entries then (None, last)
    else
      var e := s.entries[Key(location.value.scope, symbol)];
      (if Visible(at(last).active, e.gate) then Some(e) else None, last + 1)
  }

  function AnswerAt(s: State, max: nat, at: nat -> Moment, now: nat, requested: ScopeId, ancestry: seq<ScopeId>, symbol: Symbol): (Option<Entry>, nat) {
    var (cached, next) := FirstAt(s, max, at, now, requested, symbol);
    if cached.Hit? then (cached.entry, next) else LocatedAt(s, at, next, ancestry, symbol)
  }

  function ResolvedAt(s: State, max: nat, at: nat -> Moment, now: nat, requested: ScopeId, ancestry: seq<ScopeId>, symbol: Symbol): State {
    var (cached, next) := FirstAt(s, max, at, now, requested, symbol);
    if max == 0 || cached.Hit? then s
    else Remembered(s, max, Key(requested, symbol), LocationAt(s, at, next, ancestry, symbol).0)
  }

  /** What a look has found out. */
  predicate UnseenBetween(entries: map<Key, Entry>, at: nat -> Moment, now: nat, last: nat, key: Key) {
    key in entries ==> exists m | now <= m < last :: !Visible(at(m).active, entries[key].gate)
  }

  /** What the walk has seen: the entry it stopped at in its last look, and none before it. */
  lemma {:induction false} WalkAtSaw(entries: map<Key, Entry>, at: nat -> Moment, now: nat, ancestry: seq<ScopeId>, symbol: Symbol) returns (i: nat)
    ensures var (scope, last) := WalkAt(entries, at, now, ancestry, symbol);
            && now <= last && i <= |ancestry|
            && (forall j :: 0 <= j < i ==> UnseenBetween(entries, at, now, last, Key(ancestry[j], symbol)))
            && match scope
               case None => i == |ancestry|
               case Some(found) => && i < |ancestry| && ancestry[i] == found && Key(found, symbol) in entries && last > now
                                   && Visible(at(last - 1).active, entries[Key(found, symbol)].gate)
    decreases |ancestry|
  {
    i := 0;
    if ancestry != [] {
      var key := Key(ancestry[0], symbol);
      if key !in entries || !Visible(at(now).active, entries[key].gate) {
        var next := if key in entries then now + 1 else now;
        var k := WalkAtSaw(entries, at, next, ancestry[1..], symbol);
        i := k + 1;
        var last := WalkAt(entries, at, now, ancestry, symbol).1;
        forall j | 0 <= j < i ensures UnseenBetween(entries, at, now, last, Key(ancestry[j], symbol)) {
          if j > 0 {
            assert ancestry[j] == ancestry[1..][j - 1];
            assert UnseenBetween(entries, at, next, last, Key(ancestry[j], symbol));
          }
        }
      }
    }
  }

  predicate OwnedAt(entries: map<Key, Entry>, owner: FiberId, key: Key) {
    key in entries && entries[key].owner == owner
  }

  function Withdrawn(entries: map<Key, Entry>, owner: FiberId, scope: ScopeId, provided: seq<Symbol>): map<Key, Entry> {
    map key | key in entries && !(key.scope == scope && key.symbol in provided && entries[key].owner == owner) :: entries[key]
  }

  /** A prepared reload: these symbols move from the staged scope to the live one. */
  datatype Revision = Revision(from: ScopeId, to: ScopeId, symbols: seq<Symbol>, oldOwner: FiberId, stagedOwner: FiberId)

  predicate Movable(entries: map<Key, Entry>, p: Revision, symbol: Symbol) {
    && Key(p.from, symbol) in entries && entries[Key(p.from, symbol)].owner == p.stagedOwner
    && (Key(p.to, symbol) in entries ==> entries[Key(p.to, symbol)].owner == p.oldOwner)
  }

  predicate AllMovable(entries: map<Key, Entry>, p: Revision) {
    forall symbol <- p.symbols :: Movable(entries, p, symbol)
  }

  predicate MovesFrom(p: Revision, key: Key) {
    key.scope == p.from && key.symbol in p.symbols
  }

  predicate MovesTo(p: Revision, key: Key) {
    key.scope == p.to && key.symbol in p.symbols
  }

  /** Every listed symbol is at the live scope with the staged entry; nothing else moved. */
  function Moved(entries: map<Key, Entry>, p: Revision): map<Key, Entry>
    requires AllMovable(entries, p)
  {
    map key | key in entries.Keys + (set symbol <- p.symbols :: Key(p.to, symbol)) && (MovesTo(p, key) || !MovesFrom(p, key)) ::
      if MovesTo(p, key) then entries[Key(p.from, key.symbol)].(scope := p.to) else entries[key]
  }

  /** The entries without the first few that a commit takes. */
  function TakenOut(entries: map<Key, Entry>, p: Revision, k: nat): map<Key, Entry>
    requires k <= |p.symbols|
  {
    map key | key in entries && !(key.scope == p.from && key.symbol in p.symbols[..k]) :: entries[key]
  }

  lemma TakenNext(entries: map<Key, Entry>, p: Revision, i: nat)
    requires i < |p.symbols|
    ensures var key := Key(p.from, p.symbols[i]);
            && TakenOut(entries, p, i + 1) == TakenOut(entries, p, i) - {key}
            && (key in TakenOut(entries, p, i) <==> key in entries && p.symbols[i] !in p.symbols[..i])
  {
    assert p.symbols[..i + 1] == p.symbols[..i] + [p.symbols[i]];
  }

  /** The first few of the listed entries are in hand. */
  predicate InHand(moving: map<Symbol, Entry>, entries: map<Key, Entry>, p: Revision, k: nat)
    requires k <= |p.symbols|
  {
    forall symbol <- p.symbols[..k] :: symbol in moving && Key(p.from, symbol) in entries && moving[symbol] == entries[Key(p.from, symbol)]
  }

  lemma InHandNext(moving: map<Symbol, Entry>, entries: map<Key, Entry>, p: Revision, i: nat)
    requires i < |p.symbols| && InHand(moving, entries, p, i) && Key(p.from, p.symbols[i]) in entries
    ensures InHand(moving[p.symbols[i] := entries[Key(p.from, p.symbols[i])]], entries, p, i + 1)
  {
    assert p.symbols[..i + 1] == p.symbols[..i] + [p.symbols[i]];
  }

  /** The two ways a commit is refused, the commit, and the panic that a symbol listed twice ends in. */
  datatype CommitResult = Changed | Unpublished | Committed | Panicked

  function Outcome(entries: map<Key, Entry>, p: Revision, staged: Gate, before: Gate, active: Active, retired: set<Gate>): CommitResult {
    if !AllMovable(entries, p) then Changed
    else if staged in retired || staged.selector != before.selector || !Visible(active, before) then Unpublished
    else if Distinct(p.symbols) then Committed
    else Panicked
  }

  // ---- The registry ------------------------------------------------------------------------------

  class ServiceRegistry {
    var entries: map<Key, Entry>
    var epoch: nat
    var cache: map<Key, Cached>
    var order: seq<Key>
    const max: nat

    ghost function Abstract(): State
      reads this
    {
      State(entries, epoch, cache, order)
    }

    ghost predicate Valid()
      reads this
    {
      Kept(Abstract(), max)
    }

    constructor (max: nat)
      ensures Valid() && this.max == max && Abstract() == State(map[], 0, map[], [])
    {
      this.max := max;
      entries, epoch, cache, order := map[], 0, map[], [];
    }

    method Bump()
      requires Valid()
      modifies this
      ensures Valid() && Abstract() == Bumped(old(Abstract()))
    {
      epoch := (epoch + 1) % EPOCHS;
      cache := map[];
      order := [];
    }

    method Insert(scope: ScopeId, symbol: Symbol, entry: Entry)
      requires Valid()
      modifies this
      ensures Valid() && Abstract() == Inserted(old(Abstract()), Key(scope, symbol), entry)
    {
      entries := entries[Key(scope, symbol) := entry.(scope := scope)];
      Bump();
    }

    method Remove(scope: ScopeId, symbol: Symbol) returns (r: Option<Entry>)
      requires Valid()
      modifies this
      ensures Valid() && Abstract() == Removed(old(Abstract()), Key(scope, symbol))
      ensures r == if Key(scope, symbol) in old(entries) then Some(old(entries)[Key(scope, symbol)]) else None
    {
      var key := Key(scope, symbol);
      if key !in entries { return None; }
      r := Some(entries[key]);
      entries := entries - {key};
      Bump();
    }

    method FindVisible(ancestry: seq<ScopeId>, symbol: Symbol, world: Surroundings) returns (r: Option<Location>)
      modifies world
      ensures (r, world.now) == LocationAt(Abstract(), world.at, old(world.now), ancestry, symbol)
    {
      var i := 0;
      while i < |ancestry|
        invariant i <= |ancestry|
        invariant WalkAt(entries, world.at, old(world.now), ancestry, symbol) == WalkAt(entries, world.at, world.now, ancestry[i..], symbol)
      {
        var key := Key(ancestry[i], symbol);
        if key in entries {
          var generation := world.Look(entries[key].gate.selector);
          if generation == entries[key].gate.generation { return Some(At(ancestry[i], entries[key].owner)); }
        }
        assert ancestry[i..][1..] == ancestry[i + 1..];
        i := i + 1;
      }
      return None;
    }

    method LookUp(requested: ScopeId, symbol: Symbol, world: Surroundings) returns (r: Lookup)
      modifies world
      ensures (r, world.now) == CachedAt(Abstract(), world.at, old(world.now), requested, symbol)
    {
      var k := Key(requested, symbol);
      if k !in cache || cache[k].epoch != epoch { return Miss; }
      if cache[k].location == None { return Hit(None); }
      var at := cache[k].location.value;
      var e := Key(at.scope, symbol);
      if e !in entries || entries[e].owner != at.owner { return Miss; }
      var generation := world.Look(entries[e].gate.selector);
      return if generation == entries[e].gate.generation then Hit(Some(entries[e])) else Miss;
    }

    method PopOldest()
      requires Queued(Abstract()) && order != []
      modifies this`cache, this`order
      ensures Queued(Abstract()) && Abstract() == WithoutOldest(old(Abstract())) && |cache| == |old(cache)| - 1
    {
      OldestLeaves(Abstract());
      cache := cache - {order[0]};
      order := order[1..];
    }

    /** Makes room and enters the answer. */
    method Remember(k: Key, location: Option<Location>)
      requires Valid() && max > 0
      modifies this
      ensures Valid() && Abstract() == Remembered(old(Abstract()), max, k, location)
      ensures entries == old(entries) && epoch == old(epoch)
    {
      if k !in cache {
        while |cache| >= max
          invariant Queued(Abstract()) && |cache| <= max && k !in cache
          invariant WithRoom(Abstract(), max) == WithRoom(old(Abstract()), max)
          invariant entries == old(entries) && epoch == old(epoch)
          decreases |order|
        {
          Nonempty(Abstract());
          PopOldest();
        }
        order := order + [k];
      }
      cache := cache[k := Cached(epoch, location)];
      RememberKeeps(old(Abstract()), max, k, location);
    }

    /** The lock section that walks.  Each look at a selector has an instant of its own, and the located
        entry is looked at once more. */
    method Resolve(requested: ScopeId, ancestry: seq<ScopeId>, symbol: Symbol, world: Surroundings) returns (r: Option<Entry>)
      requires Valid()
      modifies this, world
      ensures Valid()
      ensures (r, world.now) == AnswerAt(old(Abstract()), max, world.at, old(world.now), requested, ancestry, symbol)
      ensures Abstract() == ResolvedAt(old(Abstract()), max, world.at, old(world.now), requested, ancestry, symbol)
    {
      if max != 0 {
        var cached := LookUp(requested, symbol, world);
        if cached.Hit? { return cached.entry; }
      }
      var location := FindVisible(ancestry, symbol, world);
      if max != 0 { Remember(Key(requested, symbol), location); }
      if location == None { return None; }
      var e := Key(location.value.scope, symbol);
      if e !in entries || entries[e].owner != location.value.owner { return None; }
      var generation := world.Look(entries[e].gate.selector);
      return if generation == entries[e].gate.generation then Some(entries[e]) else None;
    }

    /** A disposal takes what its plugin provided off the list, the last first, and withdraws it if it is
        the plugin's in the scope the plugin is bound to by then. */
    method WithdrawAll(owner: FiberId, scope: ScopeId, provided: seq<Symbol>) returns (removed: seq<Symbol>)
      requires Valid()
      modifies this
      ensures Valid()
      ensures entries == Withdrawn(old(entries), owner, scope, provided)
      ensures forall symbol :: symbol in removed <==> symbol in provided && OwnedAt(old(entries), owner, Key(scope, symbol))
    {
      removed := [];
      var left := provided;
      while left != []
        invariant Valid() && left <= provided
        invariant entries == Withdrawn(old(entries), owner, scope, provided[|left|..])
        invariant forall symbol :: symbol in removed <==> symbol in provided[|left|..] && OwnedAt(old(entries), owner, Key(scope, symbol))
      {
        var symbol := left[|left| - 1];
        left := left[..|left| - 1];
        assert provided[|left|..] == [symbol] + provided[|left| + 1..];
        if Key(scope, symbol) in entries && entries[Key(scope, symbol)].owner == owner {
          var _ := Remove(scope, symbol);
          removed := removed + [symbol];
        }
      }
      assert provided[0..] == provided;
      Bump();
    }

    method PrepareRevision(p: Revision) returns (ok: bool)
      ensures ok == AllMovable(entries, p)
    {
      for i := 0 to |p.symbols|
        invariant forall symbol <- p.symbols[..i] :: Movable(entries, p, symbol)
      {
        var symbol := p.symbols[i];
        assert p.symbols[..i + 1] == p.symbols[..i] + [symbol] && symbol in p.symbols;
        var from, to := Key(p.from, symbol), Key(p.to, symbol);
        assert AllMovable(entries, p) ==> Movable(entries, p, symbol);
        if from !in entries || entries[from].owner != p.stagedOwner { return false; }
        if to in entries && entries[to].owner != p.oldOwner { return false; }
      }
      return true;
    }

    /** Takes the listed entries out one by one; a symbol that is listed again finds nothing. */
    method TakeStaged(p: Revision) returns (ok: bool, moving: map<Symbol, Entry>)
      requires AllMovable(entries, p)
      modifies this`entries
      ensures ok == Distinct(p.symbols)
      ensures entries == TakenOut(old(entries), p, Fresh(p.symbols))
      ensures ok ==> InHand(moving, old(entries), p, |p.symbols|)
    {
      ghost var was := entries;
      moving := map[];
      for i := 0 to |p.symbols|
        invariant i <= Fresh(p.symbols)
        invariant InHand(moving, was, p, i)
        invariant entries == TakenOut(was, p, i)
      {
        var symbol := p.symbols[i];
        assert Movable(was, p, symbol);
        TakenNext(was, p, i);
        if Key(p.from, symbol) !in entries { return false, moving; }
        InHandNext(moving, was, p, i);
        moving := moving[symbol := entries[Key(p.from, symbol)]];
        entries := entries - {Key(p.from, symbol)};
      }
      return true, moving;
    }

    method Place(p: Revision, moving: map<Symbol, Entry>, ghost was: map<Key, Entry>)
      requires AllMovable(was, p)
      requires forall symbol <- p.symbols :: symbol in moving && moving[symbol] == was[Key(p.from, symbol)]
      requires entries == map key | key in was && !MovesFrom(p, key) :: was[key]
      modifies this`entries
      ensures entries == Moved(was, p)
    {
      ghost var rest := entries;
      for i := 0 to |p.symbols|
        invariant entries.Keys == rest.Keys + set symbol <- p.symbols[..i] :: Key(p.to, symbol)
        invariant forall key <- entries ::
                    if key.scope == p.to && key.symbol in p.symbols[..i] then
                      key.symbol in p.symbols && Key(p.from, key.symbol) in was && entries[key] == was[Key(p.from, key.symbol)].(scope := p.to)
                    else key in rest && entries[key] == rest[key]
      {
        var symbol := p.symbols[i];
        assert p.symbols[..i + 1] == p.symbols[..i] + [symbol] && symbol in p.symbols;
        assert Movable(was, p, symbol);
        entries := entries[Key(p.to, symbol) := moving[symbol].(scope := p.to)];
      }
      assert p.symbols[..|p.symbols|] == p.symbols;
      assert entries.Keys == Moved(was, p).Keys;
    }

    method MoveEntries(p: Revision) returns (ok: bool)
      requires Valid() && AllMovable(entries, p)
      modifies this
      ensures Valid() && ok == Distinct(p.symbols)
      ensures Abstract() == if ok then Bumped(old(Abstract()).(entries := Moved(old(entries), p)))
                            else old(Abstract()).(entries := TakenOut(old(entries), p, Fresh(p.symbols)))
    {
      var moving;
      ok, moving := TakeStaged(p);
      if !ok { return; }
      assert p.symbols[..|p.symbols|] == p.symbols;
      Place(p, moving, old(entries));
      Bump();
    }

    /** One lock section: check again, switch the generation, then move the entries.  The check covers
        each symbol by itself; if one is listed twice its second entry is missing, and the section ends
        in a panic when the generation has been switched already. */
    method CommitRevisionAndPublish(p: Revision, staged: Gate, before: Gate, gates: Gates) returns (r: CommitResult)
      requires Valid()
      requires staged.generation != NONE && before.generation != NONE && staged != before
      modifies this, gates
      ensures Valid()
      ensures r == Outcome(old(entries), p, staged, before, old(gates.active), old(gates.retired))
      ensures Abstract() == match r
                            case Committed => Bumped(old(Abstract()).(entries := Moved(old(entries), p)))
                            case Panicked => old(Abstract()).(entries := TakenOut(old(entries), p, Fresh(p.symbols)))
                            case _ => old(Abstract())
      ensures r.Committed? || r.Panicked? ==>
                && gates.active == Select(old(gates.active), staged)
                && gates.retired == old(gates.retired) + {before} && gates.draining == old(gates.draining) + {before}
      ensures !r.Committed? && !r.Panicked? ==>
                gates.active == old(gates.active) && gates.retired == old(gates.retired) && gates.draining == old(gates.draining)
    {
      var movable := PrepareRevision(p);
      if !movable { return Changed; }
      var switched := gates.CutoverFrom(staged, before);
      if !switched { return Unpublished; }
      var moved := MoveEntries(p);
      return if moved then Committed else Panicked;
    }
  }
}
