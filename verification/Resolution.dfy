/** Runs of the service registry among plugins that come, go and are replaced: every resolution
    answers as the plain walk from the requesting scope to the root would. */
module Resolution {
  import opened Wrappers
  import opened CapabilityGate
  import opened Sequences
  import opened ServiceRegistry

  /** `stale`: a gate has become visible, or a scope has moved, and no bump has followed yet. */
  datatype World = World(reg: State, active: Active, ancestry: map<ScopeId, seq<ScopeId>>, stale: bool)

  datatype Step =
    | Insert(key: Key, entry: Entry)
    | Remove(key: Key)
    | Commit(p: Revision, staged: Gate, before: Gate)
    // a commit that ends in a panic
    | Abandon(p: Revision, staged: Gate, before: Gate)
    | Bump
    | Show(gate: Gate)
    | Hide(selectors: set<Selector>)
    | Move(ancestry: map<ScopeId, seq<ScopeId>>)
    // the read section of a resolution, and the write section with the selectors from look to look
    | Peek(requested: ScopeId, symbol: Symbol)
    | Resolve(requested: ScopeId, symbol: Symbol, at: nat -> Moment)

  function PathOf(w: World, scope: ScopeId): seq<ScopeId> {
    if scope in w.ancestry then w.ancestry[scope] else []
  }

  function Hidden(active: Active, selectors: set<Selector>): Active {
    map s | s in active :: if s in selectors then NONE else active[s]
  }

  /** The same but for selectors that no longer name a generation. */
  predicate Darker(a: Active, b: Active) {
    a.Keys == b.Keys && forall s <- a :: b[s] == a[s] || b[s] == NONE
  }

  /** From instant to instant gates are only hidden. */
  ghost predicate OnlyHides(active: Active, at: nat -> Moment) {
    at(0).active == active && forall i: nat, j: nat :: i <= j ==> Darker(at(i).active, at(j).active)
  }

  /** The instant after the last look of a resolution. */
  function EndOf(w: World, max: nat, a: Step): nat
    requires a.Resolve?
  {
    AnswerAt(w.reg, max, a.at, 0, a.requested, PathOf(w, a.requested), a.symbol).1
  }

  ghost predicate Next(w: World, max: nat, a: Step, n: World) {
    match a
    case Insert(key, entry) => n == w.(reg := Inserted(w.reg, key, entry), stale := false)
    case Remove(key) =>
      n == w.(reg := Removed(w.reg, key), stale := if key in w.reg.entries then false else w.stale)
    case Commit(p, staged, before) =>
      && AllMovable(w.reg.entries, p) && staged.selector == before.selector && Visible(w.active, before)
      && n == w.(reg := Bumped(w.reg.(entries := Moved(w.reg.entries, p))), active := Select(w.active, staged), stale := false)
    case Abandon(p, staged, before) =>
      && AllMovable(w.reg.entries, p) && staged.selector == before.selector && Visible(w.active, before) && !Distinct(p.symbols)
      && n == w.(reg := w.reg.(entries := TakenOut(w.reg.entries, p, Fresh(p.symbols))), active := Select(w.active, staged), stale := true)
    case Bump => n == w.(reg := Bumped(w.reg), stale := false)
    case Show(gate) =>
      ActiveOf(w.active, gate.selector) == NONE && n == w.(active := Select(w.active, gate), stale := true)
    case Hide(selectors) => n == w.(active := Hidden(w.active, selectors))
    case Move(ancestry) => n == w.(ancestry := ancestry, stale := true)
    case Peek(requested, symbol) => n == w
    case Resolve(requested, symbol, at) =>
      && at(0).active == w.active
      && n == World(ResolvedAt(w.reg, max, at, 0, requested, PathOf(w, requested), symbol),
                    at(EndOf(w, max, a)).active, w.ancestry, w.stale || !OnlyHides(w.active, at))
  }

  /** Services are provided through real generations, never through none. */
  predicate Real(entries: map<Key, Entry>) {
    forall key <- entries :: entries[key].gate.generation != NONE
  }

  predicate Init(w: World) {
    w.reg == State(map[], 0, map[], []) && !w.stale
  }

  predicate Sane(a: Step) {
    && (a.Insert? ==> a.entry.gate.generation != NONE)
    && (a.Commit? ==> a.staged.generation != NONE && a.staged != a.before)
  }

  // ---- The cache never lies ------------------------------------------------------------------------

  predicate NoneBefore(entries: map<Key, Entry>, active: Active, path: seq<ScopeId>, symbol: Symbol, i: nat)
    requires i <= |path|
  {
    forall j :: 0 <= j < i ==> !VisibleAt(entries, active, Key(path[j], symbol))
  }

  predicate Truthful(reg: State, active: Active, path: seq<ScopeId>, symbol: Symbol, location: Option<Location>) {
    match location
    case None => NoneBefore(reg.entries, active, path, symbol, |path|)
    case Some(at) =>
      exists i | 0 <= i < |path| ::
        && path[i] == at.scope && Key(at.scope, symbol) in reg.entries && reg.entries[Key(at.scope, symbol)].owner == at.owner
        && NoneBefore(reg.entries, active, path, symbol, i)
  }

  predicate Coherent(w: World) {
    forall k <- w.reg.cache :: Truthful(w.reg, w.active, PathOf(w, k.scope), k.symbol, w.reg.cache[k].location)
  }

  predicate Inv(w: World, max: nat) {
    Kept(w.reg, max) && Real(w.reg.entries) && (!w.stale ==> Coherent(w))
  }

  lemma StaysHidden(entries: map<Key, Entry>, a: Active, b: Active, key: Key)
    requires Real(entries) && Darker(a, b)
    ensures VisibleAt(entries, b, key) ==> VisibleAt(entries, a, key)
  {
  }

  lemma HidingIsHarmless(reg: State, a: Active, b: Active, path: seq<ScopeId>, symbol: Symbol, location: Option<Location>)
    requires Real(reg.entries) && Darker(a, b) && Truthful(reg, a, path, symbol, location)
    ensures Truthful(reg, b, path, symbol, location)
  {
    var i := |path|;
    if location.Some? {
      i :| 0 <= i < |path| && path[i] == location.value.scope && Key(path[i], symbol) in reg.entries
           && reg.entries[Key(path[i], symbol)].owner == location.value.owner && NoneBefore(reg.entries, a, path, symbol, i);
    }
    forall j | 0 <= j < i ensures !VisibleAt(reg.entries, b, Key(path[j], symbol)) {
      StaysHidden(reg.entries, a, b, Key(path[j], symbol));
    }
    assert NoneBefore(reg.entries, b, path, symbol, i);
  }

  /** What was not seen at some instant is not visible at a later one. */
  lemma UnseenIsHidden(entries: map<Key, Entry>, active: Active, at: nat -> Moment, now: nat, last: nat, later: nat, key: Key)
    requires Real(entries) && OnlyHides(active, at) && last <= later + 1 && UnseenBetween(entries, at, now, last, key)
    ensures !VisibleAt(entries, at(later).active, key)
  {
    if key in entries {
      var m :| now <= m < last && !Visible(at(m).active, entries[key].gate);
      StaysHidden(entries, at(m).active, at(later).active, key);
    }
  }

  /** A location found look by look is truthful at every instant from the last look on. */
  lemma WalkIsTruthful(reg: State, active: Active, at: nat -> Moment, now: nat, path: seq<ScopeId>, symbol: Symbol, later: nat)
    requires Real(reg.entries) && OnlyHides(active, at) && WalkAt(reg.entries, at, now, path, symbol).1 <= later + 1
    ensures Truthful(reg, at(later).active, path, symbol, LocationAt(reg, at, now, path, symbol).0)
  {
    var last := WalkAt(reg.entries, at, now, path, symbol).1;
    var i := WalkAtSaw(reg.entries, at, now, path, symbol);
    forall j | 0 <= j < i ensures !VisibleAt(reg.entries, at(later).active, Key(path[j], symbol)) {
      UnseenIsHidden(reg.entries, active, at, now, last, later, Key(path[j], symbol));
    }
    assert NoneBefore(reg.entries, at(later).active, path, symbol, i);
  }

  /** A truthful location whose entry is visible is where the walk stops. */
  lemma TruthfulIsWalk(reg: State, active: Active, path: seq<ScopeId>, symbol: Symbol, location: Option<Location>)
    requires Truthful(reg, active, path, symbol, location)
    ensures location == None ==> WalkEntry(reg.entries, active, path, symbol) == None
    ensures location.Some? && VisibleAt(reg.entries, active, Key(location.value.scope, symbol)) ==>
              WalkEntry(reg.entries, active, path, symbol) == Some(reg.entries[Key(location.value.scope, symbol)])
  {
    match location {
      case None =>
        if path != [] {
          assert !VisibleAt(reg.entries, active, Key(path[|path| - 1], symbol));
          WalkIsFirstVisible(reg.entries, active, path, symbol, |path| - 1);
        }
      case Some(at) =>
        var i :| 0 <= i < |path| && path[i] == at.scope && NoneBefore(reg.entries, active, path, symbol, i);
        WalkIsFirstVisible(reg.entries, active, path, symbol, i);
    }
  }

  lemma RememberedEntries(s: State, max: nat, k: Key, location: Option<Location>)
    requires Kept(s, max)
    ensures var t := Remembered(s, max, k, location);
            forall x <- t.cache :: if x == k && max > 0 then t.cache[x].location == location else x in s.cache && t.cache[x] == s.cache[x]
  {
    if max > 0 { RoomIsMade(s, max); }
  }

  lemma HideKeeps(w: World, max: nat, active: Active)
    requires Inv(w, max) && Darker(w.active, active)
    ensures Inv(w.(active := active), max)
  {
    var n := w.(active := active);
    if !w.stale {
      forall k | k in n.reg.cache ensures Truthful(n.reg, n.active, PathOf(n, k.scope), k.symbol, n.reg.cache[k].location) {
        HidingIsHarmless(w.reg, w.active, active, PathOf(w, k.scope), k.symbol, w.reg.cache[k].location);
      }
    }
  }

  /** A truthful location may be remembered. */
  lemma RememberTruth(w: World, max: nat, k: Key, location: Option<Location>)
    requires Inv(w, max) && Truthful(w.reg, w.active, PathOf(w, k.scope), k.symbol, location)
    ensures Inv(w.(reg := Remembered(w.reg, max, k, location)), max)
  {
    RememberKeeps(w.reg, max, k, location);
    RememberedEntries(w.reg, max, k, location);
    var n := w.(reg := Remembered(w.reg, max, k, location));
    if !w.stale {
      forall x | x in n.reg.cache
        ensures Truthful(n.reg, n.active, PathOf(n, x.scope), x.symbol, n.reg.cache[x].location)
      {
        if x != k { assert x in w.reg.cache; }
        var l := n.reg.cache[x].location;
        assert Truthful(w.reg, w.active, PathOf(w, x.scope), x.symbol, l);
      }
    }
  }

  lemma AnswerIsLater(w: World, max: nat, a: Step)
    requires a.Resolve?
    ensures var (_, next) := FirstAt(w.reg, max, a.at, 0, a.requested, a.symbol);
            WalkAt(w.reg.entries, a.at, next, PathOf(w, a.requested), a.symbol).1 <= EndOf(w, max, a)
            || FirstAt(w.reg, max, a.at, 0, a.requested, a.symbol).0.Hit?
  {
  }

  lemma ResolveKeeps(w: World, max: nat, a: Step, n: World)
    requires Inv(w, max) && a.Resolve? && Next(w, max, a, n)
    ensures Inv(n, max)
  {
    var end := EndOf(w, max, a);
    var path, k := PathOf(w, a.requested), Key(a.requested, a.symbol);
    var (cached, next) := FirstAt(w.reg, max, a.at, 0, a.requested, a.symbol);
    var location := LocationAt(w.reg, a.at, next, path, a.symbol).0;
    RememberKeeps(w.reg, max, k, location);
    if !n.stale {
      var dark := w.(active := a.at(end).active);
      HideKeeps(w, max, dark.active);
      if max != 0 && !cached.Hit? {
        AnswerIsLater(w, max, a);
        WalkIsTruthful(w.reg, w.active, a.at, next, path, a.symbol, end);
        RememberTruth(dark, max, k, location);
      }
    }
  }

  lemma BumpKeeps(w: World, max: nat)
    requires Real(w.reg.entries)
    ensures Inv(w.(reg := Bumped(w.reg)), max)
  {
  }

  lemma CommitKeeps(w: World, max: nat, a: Step, n: World)
    requires a.Commit? && Inv(w, max) && Sane(a) && Next(w, max, a, n)
    ensures Inv(n, max)
  {
    var moved := Moved(w.reg.entries, a.p);
    forall key | key in moved ensures moved[key].gate.generation != NONE {
      if MovesTo(a.p, key) { assert Movable(w.reg.entries, a.p, key.symbol); }
    }
    BumpKeeps(n.(reg := w.reg.(entries := moved)), max);
  }

  lemma NextInv(w: World, max: nat, a: Step, n: World)
    requires Inv(w, max) && Sane(a) && Next(w, max, a, n)
    ensures Inv(n, max)
  {
    match a {
      case Insert(key, entry) => BumpKeeps(n.(reg := w.reg.(entries := w.reg.entries[key := entry.(scope := key.scope)])), max);
      case Remove(key) => if key in w.reg.entries { BumpKeeps(n.(reg := w.reg.(entries := w.reg.entries - {key})), max); }
      case Commit(_, _, _) => CommitKeeps(w, max, a, n);
      case Bump => BumpKeeps(n.(reg := w.reg), max);
      case Hide(selectors) => HideKeeps(w, max, Hidden(w.active, selectors));
      case Resolve(_, _, _) => ResolveKeeps(w, max, a, n);
      case _ =>
    }
  }

  // ---- Runs ------------------------------------------------------------------------------------------

  ghost predicate Run(run: seq<World>, steps: seq<Step>, max: nat) {
    && |run| == |steps| + 1 && Init(run[0])
    && forall i :: 0 <= i < |steps| ==> Sane(steps[i]) && Next(run[i], max, steps[i], run[i + 1])
  }

  lemma {:induction false} RunInv(run: seq<World>, steps: seq<Step>, max: nat, i: nat)
    requires Run(run, steps, max) && i < |run|
    ensures Inv(run[i], max)
  {
    if i > 0 {
      RunInv(run, steps, max, i - 1);
      assert Sane(steps[i - 1]) && Next(run[i - 1], max, steps[i - 1], run[i - 1 + 1]);
      NextInv(run[i - 1], max, steps[i - 1], run[i]);
    }
  }

  /** The instant of the last look, or of the start if there was none. */
  function LastLook(w: World, max: nat, a: Step): nat
    requires a.Resolve?
  {
    if EndOf(w, max, a) == 0 then 0 else EndOf(w, max, a) - 1
  }

  /** A hit is what the walk finds, and what every hit in every run is. */
  lemma CacheAgrees(w: World, max: nat, requested: ScopeId, symbol: Symbol)
    requires Inv(w, max) && !w.stale
    ensures var hit := CachedResolution(w.reg, w.active, requested, symbol);
            hit.Hit? ==> hit.entry == WalkEntry(w.reg.entries, w.active, PathOf(w, requested), symbol)
  {
    var k := Key(requested, symbol);
    if k in w.reg.cache {
      TruthfulIsWalk(w.reg, w.active, PathOf(w, requested), symbol, w.reg.cache[k].location);
    }
  }

  /** Where the walk of a miss stops, against where the plain one would at its start. */
  lemma MissStops(reg: State, active: Active, at: nat -> Moment, now: nat, path: seq<ScopeId>, symbol: Symbol)
    requires Real(reg.entries) && OnlyHides(active, at)
    ensures var (scope, last) := WalkAt(reg.entries, at, now, path, symbol);
            var found := WalkEntry(reg.entries, active, path, symbol);
            && (found.Some? && scope.None? ==> last > 0 && !Visible(at(last - 1).active, found.value.gate))
            && (scope.Some? ==> Key(scope.value, symbol) in reg.entries && found.Some?)
            && (scope.Some? && found.value != reg.entries[Key(scope.value, symbol)] ==> !Visible(at(last).active, found.value.gate))
  {
    var (scope, last) := WalkAt(reg.entries, at, now, path, symbol);
    var i := WalkAtSaw(reg.entries, at, now, path, symbol);
    var f := WalkSaw(reg.entries, active, path, symbol);
    if scope.Some? {
      StaysHidden(reg.entries, active, at(last - 1).active, Key(scope.value, symbol));
      assert f <= i;
    }
    if f < i {
      assert UnseenBetween(reg.entries, at, now, last, Key(path[f], symbol));
      UnseenIsHidden(reg.entries, active, at, now, last, last - 1, Key(path[f], symbol));
      UnseenIsHidden(reg.entries, active, at, now, last, last, Key(path[f], symbol));
    }
  }

  /** A located entry that is visible at the last look is where the plain walk stops then. */
  lemma MissIsFirst(reg: State, active: Active, at: nat -> Moment, now: nat, path: seq<ScopeId>, symbol: Symbol)
    requires Real(reg.entries) && OnlyHides(active, at)
    ensures var (scope, last) := WalkAt(reg.entries, at, now, path, symbol);
            scope.Some? && VisibleAt(reg.entries, at(last).active, Key(scope.value, symbol)) ==>
              Walk(reg.entries, at(last).active, path, symbol) == scope
  {
    var (scope, last) := WalkAt(reg.entries, at, now, path, symbol);
    var i := WalkAtSaw(reg.entries, at, now, path, symbol);
    if scope.Some? {
      forall j | 0 <= j < i ensures !VisibleAt(reg.entries, at(last).active, Key(path[j], symbol)) {
        UnseenIsHidden(reg.entries, active, at, now, last, last, Key(path[j], symbol));
      }
      WalkIsFirstVisible(reg.entries, at(last).active, path, symbol, i);
    }
  }

  /** What the plain walk finds is visible. */
  lemma FoundIsVisible(entries: map<Key, Entry>, active: Active, path: seq<ScopeId>, symbol: Symbol)
    ensures var found := WalkEntry(entries, active, path, symbol); found.Some? ==> Visible(active, found.value.gate)
  {
    var i := WalkSaw(entries, active, path, symbol);
  }

  /** A miss answers what the plain walk finds at its start exactly if the walk finds nothing or what it
      finds is still visible at the last look; an answer is what the plain walk finds at that look. */
  lemma MissRefinesWalk(reg: State, active: Active, at: nat -> Moment, now: nat, path: seq<ScopeId>, symbol: Symbol)
    requires Real(reg.entries) && OnlyHides(active, at)
    ensures var (answer, end) := LocatedAt(reg, at, now, path, symbol);
            var final := at(if end == 0 then 0 else end - 1).active;
            var found := WalkEntry(reg.entries, active, path, symbol);
            && (answer == found <==> found.None? || Visible(final, found.value.gate))
            && (answer.Some? ==> answer == WalkEntry(reg.entries, final, path, symbol))
  {
    MissStops(reg, active, at, now, path, symbol);
    MissIsFirst(reg, active, at, now, path, symbol);
    var (scope, last) := WalkAt(reg.entries, at, now, path, symbol);
    var (answer, end) := LocatedAt(reg, at, now, path, symbol);
    match scope {
      case None => assert answer == None && end == last;
      case Some(located) =>
        var e := reg.entries[Key(located, symbol)];
        assert end == last + 1 && answer == if Visible(at(last).active, e.gate) then Some(e) else None;
    }
  }

  /** Where no publication waits for its bump, a hit is what the plain walk finds, and a miss relates to
      it as said. */
  lemma AnswerRefinesWalk(w: World, max: nat, a: Step)
    requires Inv(w, max) && !w.stale && a.Resolve? && OnlyHides(w.active, a.at)
    ensures var path, final := PathOf(w, a.requested), a.at(LastLook(w, max, a)).active;
            var hit := FirstAt(w.reg, max, a.at, 0, a.requested, a.symbol).0.Hit?;
            var answer := AnswerAt(w.reg, max, a.at, 0, a.requested, path, a.symbol).0;
            var found := WalkEntry(w.reg.entries, w.active, path, a.symbol);
            && (answer == found <==> hit || found.None? || Visible(final, found.value.gate))
            && (!hit && answer.Some? ==> answer == WalkEntry(w.reg.entries, final, path, a.symbol))
            && ((forall m: nat :: a.at(m).active == w.active) ==> answer == found)
  {
    var path := PathOf(w, a.requested);
    var (cached, next) := FirstAt(w.reg, max, a.at, 0, a.requested, a.symbol);
    if cached.Hit? {
      CacheAgrees(w, max, a.requested, a.symbol);
    } else {
      MissRefinesWalk(w.reg, w.active, a.at, next, path, a.symbol);
      FoundIsVisible(w.reg.entries, w.active, path, a.symbol);
    }
  }

  /** In every run, once every publication is followed by its bump: a resolution during which gates may
      be hidden between any two looks, but none is shown, answers what the plain walk finds at its start
      exactly if it is a hit, or the walk finds nothing, or what it finds is still visible at the last
      look.  And whatever a walk answers is what the plain walk finds at that look. */
  lemma ResolutionRefinesWalk(run: seq<World>, steps: seq<Step>, max: nat, i: nat)
    requires Run(run, steps, max) && i < |steps| && steps[i].Resolve? && !run[i + 1].stale
    ensures var w, a := run[i], steps[i];
            var path, final := PathOf(w, a.requested), a.at(LastLook(w, max, a)).active;
            var hit := FirstAt(w.reg, max, a.at, 0, a.requested, a.symbol).0.Hit?;
            var answer := AnswerAt(w.reg, max, a.at, 0, a.requested, path, a.symbol).0;
            var found := WalkEntry(w.reg.entries, w.active, path, a.symbol);
            && (answer == found <==> hit || found.None? || Visible(final, found.value.gate))
            && (!hit && answer.Some? ==> answer == WalkEntry(w.reg.entries, final, path, a.symbol))
            && ((forall m: nat :: a.at(m).active == w.active) ==> answer == found)
  {
    RunInv(run, steps, max, i);
    assert Next(run[i], max, steps[i], run[i + 1]);
    AnswerRefinesWalk(run[i], max, steps[i]);
  }

  lemma Extend(run: seq<World>, steps: seq<Step>, max: nat, a: Step, n: World)
    requires Run(run, steps, max) && Sane(a) && Next(run[|run| - 1], max, a, n)
    ensures Run(run + [n], steps + [a], max)
  {
    var longer, more := run + [n], steps + [a];
    forall i | 0 <= i < |more| ensures Sane(more[i]) && Next(longer[i], max, more[i], longer[i + 1]) {
      if i < |steps| { assert more[i] == steps[i] && longer[i] == run[i] && longer[i + 1] == run[i + 1]; }
    }
  }

  /** A location found in the first look whose entry is hidden by the second one is no answer. */
  lemma LostBeforeLastLook(reg: State, max: nat, at: nat -> Moment, requested: ScopeId, path: seq<ScopeId>, symbol: Symbol)
    requires path != [] && Key(requested, symbol) !in reg.cache && Key(path[0], symbol) in reg.entries
    requires var gate := reg.entries[Key(path[0], symbol)].gate; Visible(at(0).active, gate) && !Visible(at(1).active, gate)
    ensures AnswerAt(reg, max, at, 0, requested, path, symbol) == (None, 2)
  {
    assert WalkAt(reg.entries, at, 0, path, symbol) == (Some(path[0]), 1);
  }

  lemma TwoProviders(max: nat) returns (run: seq<World>, steps: seq<Step>)
    ensures Run(run, steps, max) && |steps| == 2
    ensures var w := run[2];
            && w.reg.entries == map[Key(1, 7) := Entry(3, 1, 9, Gate(5, 1)), Key(0, 7) := Entry(4, 0, 8, Gate(6, 1))]
            && w.reg.cache == map[] && w.active == map[5 := 1, 6 := 1] && PathOf(w, 1) == [1, 0] && !w.stale
  {
    var inner, outer := Entry(3, 1, 9, Gate(5, 1)), Entry(4, 0, 8, Gate(6, 1));
    var w0 := World(State(map[], 0, map[], []), map[5 := 1, 6 := 1], map[1 := [1, 0]], false);
    var w1 := w0.(reg := Inserted(w0.reg, Key(1, 7), inner));
    var w2 := w1.(reg := Inserted(w1.reg, Key(0, 7), outer));
    run, steps := [w0], [];
    Extend(run, steps, max, Insert(Key(1, 7), inner), w1);
    run, steps := run + [w1], steps + [Insert(Key(1, 7), inner)];
    Extend(run, steps, max, Insert(Key(0, 7), outer), w2);
    run, steps := run + [w2], steps + [Insert(Key(0, 7), outer)];
  }

  /** One symbol is provided in a scope and in the root above it; the inner provider is hidden between
      the look that locates it and the last one, and the resolution answers nothing although the outer
      provider is visible throughout. */
  lemma HiddenBeforeLastLook(max: nat) returns (run: seq<World>, steps: seq<Step>)
    ensures Run(run, steps, max) && |steps| == 3 && steps[2].Resolve?
    ensures var w, a := run[2], steps[2];
            var path := PathOf(w, a.requested);
            && AnswerAt(w.reg, max, a.at, 0, a.requested, path, a.symbol).0 == None
            && WalkEntry(w.reg.entries, w.active, path, a.symbol).Some?
            && WalkEntry(w.reg.entries, run[3].active, path, a.symbol).Some?
  {
    run, steps := TwoProviders(max);
    var w, path := run[2], [1, 0];
    var light, dark := map[5 := 1, 6 := 1], map[5 := NONE, 6 := 1];
    var at: nat -> Moment := m => Moment(if m == 0 then light else dark, {});
    var a := Resolve(1, 7, at);
    var n := w.(reg := ResolvedAt(w.reg, max, at, 0, 1, path, 7), active := dark);
    LostBeforeLastLook(w.reg, max, at, 1, path, 7);
    Extend(run, steps, max, a, n);
    run, steps := run + [n], steps + [a];
    WalkIsFirstVisible(w.reg.entries, light, path, 7, 0);
    WalkIsFirstVisible(w.reg.entries, dark, path, 7, 1);
  }

  lemma HitRefinesWalk(run: seq<World>, steps: seq<Step>, max: nat, i: nat)
    requires Run(run, steps, max) && i < |steps| && steps[i].Peek? && !run[i].stale
    ensures var w, a := run[i], steps[i];
            var hit := CachedResolution(w.reg, w.active, a.requested, a.symbol);
            hit.Hit? ==> hit.entry == WalkEntry(w.reg.entries, w.active, PathOf(w, a.requested), a.symbol)
  {
    RunInv(run, steps, max, i);
    assert Next(run[i], max, steps[i], run[i + 1]);
    CacheAgrees(run[i], max, steps[i].requested, steps[i].symbol);
  }

  /** In every run the cache stays within its bound and its queue lists exactly what is cached. */
  lemma CacheBookkeeping(run: seq<World>, steps: seq<Step>, max: nat, i: nat)
    requires Run(run, steps, max) && i < |run|
    ensures var s := run[i].reg;
            && |s.cache| <= max && Distinct(s.order) && (forall k :: k in s.order <==> k in s.cache)
            && (forall k <- s.cache :: s.cache[k].epoch == s.epoch)
  {
    RunInv(run, steps, max, i);
    var s := run[i].reg;
    forall k ensures k in s.order <==> k in s.cache { assert k in s.order <==> k in Elements(s.order); }
  }

  // ---- Who leaves the cache ----------------------------------------------------------------------------

  /** Up to instant `i`, `x` has been cached since an instant at which `y` was not. */
  ghost predicate EnteredBefore(run: seq<World>, i: nat, x: Key, y: Key)
    requires i < |run|
  {
    exists k | 0 <= k <= i :: y !in run[k].reg.cache && forall j :: k <= j <= i ==> x in run[j].reg.cache
  }

  /** The queue is in order of entry. */
  ghost predicate QueueIsAge(run: seq<World>, i: nat)
    requires i < |run|
  {
    var order := run[i].reg.order;
    forall a, b :: 0 <= a < b < |order| ==> EnteredBefore(run, i, order[a], order[b])
  }

  /** A miss that is remembered drops a beginning of the queue and puts new keys behind. */
  lemma QueueMoves(s: State, max: nat, k: Key, location: Option<Location>) returns (d: nat)
    requires Kept(s, max) && max > 0
    ensures var t := Remembered(s, max, k, location);
            && d <= |s.order| && t.order == s.order[d..] + (if k in s.cache then [] else [k])
            && d == (if k !in s.cache && |s.cache| == max then 1 else 0)
  {
    RoomIsMade(s, max);
    d := if k !in s.cache && |s.cache| == max then 1 else 0;
  }

  lemma IsQueued(s: State)
    requires Queued(s)
    ensures forall x :: x in s.order <==> x in s.cache
  {
    forall x ensures x in s.order <==> x in s.cache { assert x in s.order <==> x in Elements(s.order); }
  }

  lemma AgeGoesOn(run: seq<World>, i: nat, x: Key, y: Key)
    requires i + 1 < |run| && EnteredBefore(run, i, x, y) && x in run[i + 1].reg.cache
    ensures EnteredBefore(run, i + 1, x, y)
  {
    var k :| 0 <= k <= i && y !in run[k].reg.cache && forall j :: k <= j <= i ==> x in run[j].reg.cache;
    assert forall j :: k <= j <= i + 1 ==> x in run[j].reg.cache;
  }

  /** Every step leaves the queue as it was, empties it, or is a miss that is remembered. */
  lemma OnlyMissesMove(w: World, max: nat, a: Step, n: World)
    requires Next(w, max, a, n)
    ensures || (n.reg.order == w.reg.order && n.reg.cache == w.reg.cache)
            || (n.reg.order == [] && n.reg.cache == map[])
            || (max > 0 && a.Resolve?
                && exists location :: n.reg == Remembered(w.reg, max, Key(a.requested, a.symbol), location))
  {
    if a.Resolve? {
      var (cached, next) := FirstAt(w.reg, max, a.at, 0, a.requested, a.symbol);
      var location := LocationAt(w.reg, a.at, next, PathOf(w, a.requested), a.symbol).0;
      assert n.reg == w.reg || n.reg == Remembered(w.reg, max, Key(a.requested, a.symbol), location);
    }
  }

  lemma PairAges(run: seq<World>, i: nat, d: nat, added: seq<Key>, a: nat, b: nat)
    requires i + 1 < |run| && QueueIsAge(run, i) && Queued(run[i].reg) && Queued(run[i + 1].reg)
    requires d <= |run[i].reg.order| && run[i + 1].reg.order == run[i].reg.order[d..] + added
    requires |added| <= 1 && forall k <- added :: k !in run[i].reg.cache
    requires a < b < |run[i + 1].reg.order|
    ensures EnteredBefore(run, i + 1, run[i + 1].reg.order[a], run[i + 1].reg.order[b])
  {
    var s, n := run[i].reg, run[i + 1].reg;
    IsQueued(s);
    IsQueued(n);
    var x, y := n.order[a], n.order[b];
    assert x == s.order[d + a] && x in s.cache && x in n.cache;
    if d + b < |s.order| {
      assert y == s.order[d + b] && EnteredBefore(run, i, s.order[d + a], s.order[d + b]);
    } else {
      assert y in added;
      assert forall j :: i <= j <= i ==> x in run[j].reg.cache;
    }
    AgeGoesOn(run, i, x, y);
  }

  lemma AgeStep(run: seq<World>, steps: seq<Step>, max: nat, i: nat)
    requires Run(run, steps, max) && i < |steps| && QueueIsAge(run, i)
    ensures QueueIsAge(run, i + 1)
  {
    RunInv(run, steps, max, i);
    RunInv(run, steps, max, i + 1);
    assert Next(run[i], max, steps[i], run[i + 1]);
    OnlyMissesMove(run[i], max, steps[i], run[i + 1]);
    var s, n := run[i].reg, run[i + 1].reg;
    var d, added: seq<Key> := 0, [];
    if n.order == s.order && n.cache == s.cache {
      assert s.order[d..] + added == s.order;
    } else if n.order != [] {
      var key := Key(steps[i].requested, steps[i].symbol);
      var location :| n == Remembered(s, max, key, location);
      d := QueueMoves(s, max, key, location);
      added := if key in s.cache then [] else [key];
    } else {
      d := |s.order|;
    }
    forall a, b | 0 <= a < b < |n.order| ensures EnteredBefore(run, i + 1, n.order[a], n.order[b]) {
      PairAges(run, i, d, added, a, b);
    }
  }

  lemma {:induction false} QueueIsInOrder(run: seq<World>, steps: seq<Step>, max: nat, i: nat)
    requires Run(run, steps, max) && i < |run|
    ensures QueueIsAge(run, i)
  {
    if i > 0 {
      QueueIsInOrder(run, steps, max, i - 1);
      AgeStep(run, steps, max, i - 1);
    }
  }

  /** What leaves is the head of the queue, for a new key and from a full cache, and nothing else does. */
  lemma HeadLeaves(s: State, max: nat, key: Key, location: Option<Location>, x: Key)
    requires Kept(s, max) && max > 0 && x in s.cache && x !in Remembered(s, max, key, location).cache
    ensures key !in s.cache && |s.cache| == max && s.order != [] && x == s.order[0]
    ensures forall y <- s.cache :: y != x ==> y in Remembered(s, max, key, location).cache
  {
    RoomIsMade(s, max);
  }

  lemma HeadIsOldest(run: seq<World>, i: nat, y: Key)
    requires i < |run| && QueueIsAge(run, i) && Queued(run[i].reg)
    requires run[i].reg.order != [] && y in run[i].reg.cache && y != run[i].reg.order[0]
    ensures EnteredBefore(run, i, run[i].reg.order[0], y)
  {
    var order := run[i].reg.order;
    IsQueued(run[i].reg);
    var b :| 0 <= b < |order| && order[b] == y;
    assert EnteredBefore(run, i, order[0], order[b]);
  }

  /** In every run, a key leaves the cache by itself only when a new key is remembered and the cache is
      full; it alone leaves, and it had entered before every other key cached. */
  lemma FirstInFirstOut(run: seq<World>, steps: seq<Step>, max: nat, i: nat, x: Key)
    requires Run(run, steps, max) && i < |steps| && run[i + 1].reg.cache != map[]
    requires x in run[i].reg.cache && x !in run[i + 1].reg.cache
    ensures steps[i].Resolve? && Key(steps[i].requested, steps[i].symbol) !in run[i].reg.cache && |run[i].reg.cache| == max
    ensures forall y <- run[i].reg.cache :: y != x ==> y in run[i + 1].reg.cache && EnteredBefore(run, i, x, y)
  {
    RunInv(run, steps, max, i);
    QueueIsInOrder(run, steps, max, i);
    assert Next(run[i], max, steps[i], run[i + 1]);
    OnlyMissesMove(run[i], max, steps[i], run[i + 1]);
    var key := Key(steps[i].requested, steps[i].symbol);
    var location :| run[i + 1].reg == Remembered(run[i].reg, max, key, location);
    HeadLeaves(run[i].reg, max, key, location, x);
    forall y | y in run[i].reg.cache && y != x ensures EnteredBefore(run, i, x, y) { HeadIsOldest(run, i, y); }
  }

  /** The bump is needed.  A run in which a provider is entered hidden, its absence is remembered,
      and its gate becomes visible without a bump: a resolution then would deny what the walk finds. */
  lemma ShowWithoutBump(max: nat) returns (run: seq<World>, steps: seq<Step>)
    requires max > 0
    ensures Run(run, steps, max) && |steps| == 3 && steps[2].Show? && run[3].stale
    ensures var w, path := run[3], PathOf(run[3], 0);
            && AnswerAt(w.reg, max, m => Moment(w.active, {}), 0, 0, path, 7).0 == None
            && WalkEntry(w.reg.entries, w.active, path, 7).Some?
  {
    var gate := Gate(5, 1);
    var key, entry, path := Key(0, 7), Entry(3, 0, 9, Gate(5, 1)), [0];
    var w0 := World(State(map[], 0, map[], []), map[], map[0 := path], false);
    var w1 := w0.(reg := Inserted(w0.reg, key, entry));
    assert PathOf(w1, 0) == path;
    var at: nat -> Moment := m => Moment(map[], {});
    var a := Resolve(0, 7, at);
    assert WalkAt(w1.reg.entries, at, 0, path, 7) == (None, 1);
    var w2 := w1.(reg := ResolvedAt(w1.reg, max, at, 0, 0, path, 7));
    var w3 := w2.(active := Select(w2.active, gate), stale := true);
    run, steps := [w0], [];
    Extend(run, steps, max, Insert(key, entry), w1);
    run, steps := run + [w1], steps + [Insert(key, entry)];
    Extend(run, steps, max, a, w2);
    run, steps := run + [w2], steps + [a];
    Extend(run, steps, max, Show(gate), w3);
    run, steps := run + [w3], steps + [Show(gate)];
    RememberKeeps(w1.reg, max, key, None);
    WalkIsFirstVisible(w3.reg.entries, w3.active, path, 7, 0);
  }
}
