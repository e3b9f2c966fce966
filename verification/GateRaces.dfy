/** Publication, closing and cutover of the gates of one selector, interleaved one atomic access at a
    time. */
module GateRaces {
  import opened CapabilityGate

  type Tid = nat

  datatype Pc =
    | Idle
    | Publishing(gate: Generation)                       // the retired flag was read as clear
    | Closing(gate: Generation, switched: bool)          // the flag is set
    | Cutting(gate: Generation, before: Generation)      // the flag of the new gate was read as clear
    | Cut(before: Generation, retired: bool)             // the exchange was won

  /** `fenced`: the generations whose execution no longer accepts. */
  datatype Gates = Gates(active: Generation, retired: set<Generation>, fenced: set<Generation>, threads: map<Tid, Pc>)

  datatype Step =
    | PublishLoad(gate: Generation) | PublishSwitch
    | CloseRetire(gate: Generation) | CloseSwitch | CloseDrain
    | CutLoad(gate: Generation, before: Generation) | CutSwitch | CutRetire | CutDrain

  function At(s: Gates, t: Tid, pc: Pc): Gates {
    s.(threads := s.threads[t := pc])
  }

  predicate Init(s: Gates) {
    s.active == NONE && s.retired == {} && s.fenced == {} && forall t <- s.threads :: s.threads[t] == Idle
  }

  predicate NextStep(s: Gates, t: Tid, a: Step, n: Gates) {
    t in s.threads &&
    match s.threads[t]
    case Idle =>
      || (a.PublishLoad? && a.gate != NONE && n == At(s, t, if a.gate in s.retired then Idle else Publishing(a.gate)))
      || (a.CloseRetire? && a.gate != NONE && n == At(s, t, Closing(a.gate, false)).(retired := s.retired + {a.gate}))
      || (&& a.CutLoad? && a.gate != NONE && a.before != NONE && a.gate != a.before
          && n == At(s, t, if a.gate in s.retired then Idle else Cutting(a.gate, a.before)))
    case Publishing(gate) =>
      a == PublishSwitch && n == if s.active == NONE then At(s, t, Idle).(active := gate) else At(s, t, Idle)
    case Closing(gate, switched) =>
      || (a == CloseSwitch && !switched && n == At(s, t, Closing(gate, true)).(active := if s.active == gate then NONE else s.active))
      || (a == CloseDrain && switched && n == At(s, t, Idle).(fenced := s.fenced + {gate}))
    case Cutting(gate, before) =>
      a == CutSwitch && n == if s.active == before then At(s, t, Cut(before, false)).(active := gate) else At(s, t, Idle)
    case Cut(before, retired) =>
      || (a == CutRetire && !retired && n == At(s, t, Cut(before, true)).(retired := s.retired + {before}))
      || (a == CutDrain && retired && n == At(s, t, Idle).(fenced := s.fenced + {before}))
  }

  ghost predicate Next(s: Gates, n: Gates) {
    exists t, a :: NextStep(s, t, a, n)
  }

  ghost predicate Linked(run: seq<Gates>, i: nat) {
    i + 1 < |run| ==> Next(run[i], run[i + 1])
  }

  ghost predicate Run(run: seq<Gates>) {
    |run| > 0 && Init(run[0]) && forall i :: Linked(run, i)
  }

  lemma StepAt(run: seq<Gates>, i: nat) returns (t: Tid, a: Step)
    requires Run(run) && i + 1 < |run|
    ensures NextStep(run[i], t, a, run[i + 1])
  {
    assert Linked(run, i);
    t, a :| NextStep(run[i], t, a, run[i + 1]);
  }

  predicate RetiredFirst(s: Gates) {
    && s.fenced <= s.retired
    && forall t <- s.threads ::
         && (s.threads[t].Closing? ==> s.threads[t].gate in s.retired)
         && (s.threads[t].Cut? && s.threads[t].retired ==> s.threads[t].before in s.retired)
         && (s.threads[t].Cutting? ==> s.threads[t].before != NONE)
  }

  lemma {:induction false} RetiredBeforeFenced(run: seq<Gates>, i: nat)
    requires Run(run) && i < |run|
    ensures RetiredFirst(run[i])
  {
    if i > 0 {
      RetiredBeforeFenced(run, i - 1);
      var t, a := StepAt(run, i - 1);
    }
  }

  /** A publisher or a cutover that still has the clear flag in hand. */
  predicate MayShow(pc: Pc, gate: Generation) {
    pc == Publishing(gate) || (pc.Cutting? && pc.gate == gate)
  }

  /** Retired, hidden, and nobody under way who does not know. */
  predicate Buried(s: Gates, gate: Generation) {
    gate != NONE && gate in s.retired && s.active != gate && forall t <- s.threads :: !MayShow(s.threads[t], gate)
  }

  /** A retired gate that is hidden while nobody is about to show it stays hidden for good. */
  lemma {:induction false} HiddenForGood(run: seq<Gates>, i: nat, j: nat, gate: Generation)
    requires Run(run) && i <= j < |run| && Buried(run[i], gate)
    ensures Buried(run[j], gate)
    decreases j
  {
    if i < j {
      HiddenForGood(run, i, j - 1, gate);
      var t, a := StepAt(run, j - 1);
      assert !MayShow(run[j - 1].threads[t], gate);
    }
  }

  /** Once fenced, always fenced and always refused publication by a fresh look, whatever the selector
      says. */
  lemma {:induction false} FencedForGood(run: seq<Gates>, i: nat, j: nat, gate: Generation)
    requires Run(run) && i <= j < |run| && gate in run[i].fenced
    ensures gate in run[j].fenced && gate in run[j].retired
    decreases j
  {
    if i < j {
      FencedForGood(run, i, j - 1, gate);
      var t, a := StepAt(run, j - 1);
    }
    RetiredBeforeFenced(run, j);
  }

  // ---- Exactly when a retired gate can be shown again ----------------------------------------------

  /** A way to show the gate, in at most `k` cutovers: somebody publishes it with the clear flag in
      hand, or cuts over to it from a generation that is live, can still be published, or can itself
      be shown. */
  predicate Shows(s: Gates, gate: Generation, k: nat)
    decreases k, 0
  {
    exists t <- s.threads ::
      || s.threads[t] == Publishing(gate)
      || (k > 0 && s.threads[t].Cutting? && s.threads[t].gate == gate && Reachable(s, s.threads[t].before, k - 1))
  }

  predicate Reachable(s: Gates, before: Generation, k: nat)
    decreases k, 1
  {
    before == s.active || before !in s.retired || Shows(s, before, k)
  }

  ghost predicate SomeWay(s: Gates, gate: Generation) {
    exists k: nat :: Shows(s, gate, k)
  }

  /** Hidden together: whoever cuts over to one of them waits for another of them. */
  predicate BuriedTogether(s: Gates, graves: set<Generation>) {
    forall g <- graves ::
      && g != NONE && g in s.retired && s.active != g
      && forall t <- s.threads ::
           s.threads[t] != Publishing(g) && (s.threads[t].Cutting? && s.threads[t].gate == g ==> s.threads[t].before in graves)
  }

  ghost predicate Path(p: seq<Gates>) {
    |p| > 0 && forall i :: Linked(p, i)
  }

  lemma {:induction false} BuriedStay(p: seq<Gates>, i: nat, graves: set<Generation>)
    requires Path(p) && i < |p| && BuriedTogether(p[0], graves)
    ensures BuriedTogether(p[i], graves)
  {
    if i > 0 {
      BuriedStay(p, i - 1, graves);
      assert Linked(p, i - 1);
      var t, a :| NextStep(p[i - 1], t, a, p[i]);
      BuriedStep(p[i - 1], t, a, p[i], graves);
    }
  }

  lemma BuriedStep(s: Gates, t: Tid, a: Step, n: Gates, graves: set<Generation>)
    requires BuriedTogether(s, graves) && NextStep(s, t, a, n)
    ensures BuriedTogether(n, graves)
  {
    assert n.active in graves ==> false;
    assert s.retired <= n.retired;
  }

  /** What no way leads to is buried together. */
  lemma UnshownAreBuried(s: Gates, graves: set<Generation>)
    requires forall g <- s.retired :: g in graves <==> g != NONE && s.active != g && !SomeWay(s, g)
    requires graves <= s.retired
    requires forall t <- s.threads :: s.threads[t].Cutting? ==> s.threads[t].before != NONE
    ensures BuriedTogether(s, graves)
  {
    forall g, t | g in graves && t in s.threads
      ensures s.threads[t] != Publishing(g)
      ensures s.threads[t].Cutting? && s.threads[t].gate == g ==> s.threads[t].before in graves
    {
      assert !Shows(s, g, 0);
      if s.threads[t].Cutting? && s.threads[t].gate == g {
        var before := s.threads[t].before;
        forall k: nat ensures !Reachable(s, before, k) { assert !Shows(s, g, k + 1); }
        assert !Reachable(s, before, 0);
        if SomeWay(s, before) {
          var k: nat :| Shows(s, before, k);
          assert Reachable(s, before, k);
        }
      }
    }
  }

  lemma {:induction false} MoreCutovers(s: Gates, gate: Generation, j: nat, k: nat)
    requires Shows(s, gate, j) && j <= k
    ensures Shows(s, gate, k)
    decreases j
  {
    var t :| t in s.threads && (s.threads[t] == Publishing(gate)
      || (j > 0 && s.threads[t].Cutting? && s.threads[t].gate == gate && Reachable(s, s.threads[t].before, j - 1)));
    if s.threads[t] != Publishing(gate) {
      var before := s.threads[t].before;
      if Shows(s, before, j - 1) { MoreCutovers(s, before, j - 1, k - 1); }
      assert Reachable(s, before, k - 1);
    }
  }

  lemma LongerPath(p: seq<Gates>, t: Tid, a: Step, n: Gates)
    requires Path(p) && NextStep(p[|p| - 1], t, a, n)
    ensures Path(p + [n])
  {
    assert Next(p[|p| - 1], n);
    forall i ensures Linked(p + [n], i) { assert Linked(p, i); }
  }

  /** A helper with nothing else to do hides whatever is live. */
  lemma HideLive(s: Gates, helper: Tid) returns (p: seq<Gates>)
    requires helper in s.threads && s.threads[helper] == Idle
    ensures Path(p) && p[0] == s
    ensures var n := p[|p| - 1]; n.active == NONE && n.threads == s.threads && n.retired == s.retired + if s.active == NONE then {} else {s.active}
  {
    p := [s];
    if s.active != NONE {
      var a := At(s, helper, Closing(s.active, false)).(retired := s.retired + {s.active});
      LongerPath(p, helper, CloseRetire(s.active), a);
      p := p + [a];
      var b := At(a, helper, Closing(s.active, true)).(active := NONE);
      LongerPath(p, helper, CloseSwitch, b);
      p := p + [b];
      var c := At(b, helper, Idle).(fenced := b.fenced + {s.active});
      LongerPath(p, helper, CloseDrain, c);
      p := p + [c];
      assert c.threads == s.threads;
    }
  }

  /** What a walk to a gate leaves alone: threads on their way to gates that take more cutovers. */
  predicate Spares(s: Gates, helper: Tid, k: nat, n: Gates) {
    && n.threads.Keys == s.threads.Keys && helper in n.threads && n.threads[helper] == Idle
    && forall t <- s.threads :: s.threads[t].Cutting? && !Shows(s, s.threads[t].gate, k) ==> n.threads[t] == s.threads[t]
  }

  /** A generation that was never retired is shown by the helper alone. */
  lemma ShowFresh(s: Gates, helper: Tid, gate: Generation) returns (p: seq<Gates>)
    requires helper in s.threads && s.threads[helper] == Idle && gate != NONE && (gate == s.active || gate !in s.retired)
    ensures Path(p) && p[0] == s && p[|p| - 1].active == gate && p[|p| - 1].threads == s.threads
  {
    p := [s];
    if gate != s.active {
      p := HideLive(s, helper);
      var h := p[|p| - 1];
      var a := At(h, helper, Publishing(gate));
      LongerPath(p, helper, PublishLoad(gate), a);
      p := p + [a];
      var b := At(a, helper, Idle).(active := gate);
      LongerPath(p, helper, PublishSwitch, b);
      p := p + [b];
      assert b.threads == s.threads;
    }
  }

  lemma CutOver(p: seq<Gates>, t: Tid, gate: Generation, before: Generation) returns (q: seq<Gates>)
    requires Path(p) && var s := p[|p| - 1]; t in s.threads && s.threads[t] == Cutting(gate, before) && s.active == before
    ensures Path(q) && q[0] == p[0]
    ensures q[|q| - 1] == At(p[|p| - 1], t, Cut(before, false)).(active := gate)
  {
    var s := p[|p| - 1];
    LongerPath(p, t, CutSwitch, At(s, t, Cut(before, false)).(active := gate));
    q := p + [At(s, t, Cut(before, false)).(active := gate)];
  }

  lemma {:induction false} FewestCutovers(s: Gates, gate: Generation, k: nat) returns (j: nat)
    requires Shows(s, gate, k)
    ensures j <= k && Shows(s, gate, j) && (j > 0 ==> !Shows(s, gate, j - 1))
  {
    if k > 0 && Shows(s, gate, k - 1) { j := FewestCutovers(s, gate, k - 1); } else { j := k; }
  }

  /** Following the way, cutover by cutover. */
  lemma {:induction false} FollowWay(s: Gates, helper: Tid, gate: Generation, k: nat) returns (p: seq<Gates>)
    requires helper in s.threads && s.threads[helper] == Idle && gate != NONE
    requires forall t <- s.threads :: s.threads[t].Cutting? ==> s.threads[t].before != NONE
    requires Shows(s, gate, k) && (k > 0 ==> !Shows(s, gate, k - 1))
    ensures Path(p) && p[0] == s && p[|p| - 1].active == gate && Spares(s, helper, k, p[|p| - 1])
    decreases k
  {
    var t :| t in s.threads && (s.threads[t] == Publishing(gate)
      || (k > 0 && s.threads[t].Cutting? && s.threads[t].gate == gate && Reachable(s, s.threads[t].before, k - 1)));
    if s.threads[t] == Publishing(gate) {
      p := HideLive(s, helper);
      var shown := At(p[|p| - 1], t, Idle).(active := gate);
      LongerPath(p, t, PublishSwitch, shown);
      p := p + [shown];
    } else {
      var before := s.threads[t].before;
      if before == s.active || before !in s.retired {
        p := ShowFresh(s, helper, before);
      } else {
        var j := FewestCutovers(s, before, k - 1);
        if Shows(s, gate, j) { MoreCutovers(s, gate, j, k - 1); }
        p := FollowWay(s, helper, before, j);
        forall u | u in s.threads && s.threads[u].Cutting? && !Shows(s, s.threads[u].gate, k)
          ensures !Shows(s, s.threads[u].gate, j)
        {
          if Shows(s, s.threads[u].gate, j) { MoreCutovers(s, s.threads[u].gate, j, k); }
        }
      }
      p := CutOver(p, t, gate, before);
    }
  }

  /** In every state of every run: a gate that is retired and hidden is shown again in some
      continuation exactly if a way leads to it; the helper is any thread with nothing else to do. */
  lemma ShownAgainExactly(run: seq<Gates>, i: nat, helper: Tid, gate: Generation)
    requires Run(run) && i < |run| && helper in run[i].threads && run[i].threads[helper] == Idle
    requires gate != NONE && gate in run[i].retired && run[i].active != gate
    ensures (exists p: seq<Gates>, j :: Path(p) && p[0] == run[i] && 0 <= j < |p| && p[j].active == gate) <==> SomeWay(run[i], gate)
  {
    var s := run[i];
    RetiredBeforeFenced(run, i);
    if SomeWay(s, gate) {
      var k: nat :| Shows(s, gate, k);
      var fewest := FewestCutovers(s, gate, k);
      var p := FollowWay(s, helper, gate, fewest);
      var last := |p| - 1;
      assert Path(p) && p[0] == s && p[last].active == gate;
    } else {
      ghost var graves := set g | g in s.retired && g != NONE && s.active != g && !SomeWay(s, g);
      UnshownAreBuried(s, graves);
      forall p: seq<Gates>, j | Path(p) && p[0] == s && 0 <= j < |p| ensures p[j].active != gate {
        BuriedStay(p, j, graves);
      }
    }
  }

  /** In particular a publisher with the clear flag in hand can always show it. */
  lemma ClearFlagShows(s: Gates, helper: Tid, t: Tid, gate: Generation) returns (p: seq<Gates>)
    requires helper in s.threads && s.threads[helper] == Idle && t in s.threads && s.threads[t] == Publishing(gate)
    ensures Path(p) && p[0] == s && p[|p| - 1].active == gate
  {
    p := HideLive(s, helper);
    var shown := At(p[|p| - 1], t, Idle).(active := gate);
    LongerPath(p, t, PublishSwitch, shown);
    p := p + [shown];
  }

  lemma OneMoreState(run: seq<Gates>, t: Tid, a: Step, n: Gates) returns (longer: seq<Gates>)
    requires Run(run) && NextStep(run[|run| - 1], t, a, n)
    ensures longer == run + [n] && Run(longer) && longer[|longer| - 1] == n
  {
    longer := run + [n];
    assert Next(run[|run| - 1], n);
    forall i: nat ensures Linked(longer, i) {
      assert Linked(run, i);
      if i + 1 < |run| { assert longer[i] == run[i] && longer[i + 1] == run[i + 1]; }
    }
  }

  /** The proviso is needed: a publisher that looked before the gate was closed can show it after,
      and then a closed gate is visible; it admits nobody, being fenced.  Callers that publish and
      close under one record lock cannot get there. */
  lemma PublisherShowsClosedGate() returns (run: seq<Gates>)
    ensures Run(run)
    ensures var last := run[|run| - 1];
            last.active == 1 && 1 in last.retired && 1 in last.fenced && forall t <- last.threads :: last.threads[t] == Idle
  {
    var s0 := Gates(NONE, {}, {}, map[0 := Idle, 1 := Idle]);
    var s1 := At(s0, 0, Publishing(1));
    var s2 := At(s1, 1, Closing(1, false)).(retired := {1});
    var s3 := At(s2, 1, Closing(1, true));
    var s4 := At(s3, 1, Idle).(fenced := {1});
    var s5 := At(s4, 0, Idle).(active := 1);
    run := OneMoreState([s0], 0, PublishLoad(1), s1);
    run := OneMoreState(run, 1, CloseRetire(1), s2);
    run := OneMoreState(run, 1, CloseSwitch, s3);
    run := OneMoreState(run, 1, CloseDrain, s4);
    run := OneMoreState(run, 0, PublishSwitch, s5);
  }

  // ---- Left alone ------------------------------------------------------------------------------------

  /** The thread takes these steps, one after the other, and nobody else takes any. */
  ghost predicate Alone(path: seq<Gates>, t: Tid) {
    path != [] && forall i: nat :: MovesAt(path, i, t)
  }

  ghost predicate MovesAt(path: seq<Gates>, i: nat, t: Tid) {
    i + 1 < |path| ==> Moves(path[i], t, path[i + 1])
  }

  ghost predicate Moves(s: Gates, t: Tid, n: Gates) {
    exists a :: NextStep(s, t, a, n)
  }

  lemma OneMore(path: seq<Gates>, t: Tid, a: Step, n: Gates) returns (longer: seq<Gates>)
    requires Alone(path, t) && NextStep(path[|path| - 1], t, a, n)
    ensures longer == path + [n] && Alone(longer, t)
  {
    longer := path + [n];
    assert Moves(path[|path| - 1], t, n);
    forall i: nat ensures MovesAt(longer, i, t) {
      assert MovesAt(path, i, t);
      if i + 1 < |path| { assert longer[i] == path[i] && longer[i + 1] == path[i + 1]; }
    }
  }

  /** A publication that is left alone shows its gate exactly if that is not retired and none is shown. */
  lemma PublishAlone(s: Gates, t: Tid, gate: Generation) returns (path: seq<Gates>)
    requires t in s.threads && s.threads[t] == Idle && gate != NONE
    ensures Alone(path, t) && path[0] == s
    ensures path[|path| - 1] == if gate !in s.retired && s.active == NONE then s.(active := gate) else s
  {
    path := OneMore([s], t, PublishLoad(gate), At(s, t, if gate in s.retired then Idle else Publishing(gate)));
    if gate !in s.retired {
      path := OneMore(path, t, PublishSwitch, if s.active == NONE then s.(active := gate) else s);
    }
  }

  /** A close that is left alone hides, retires and fences its gate and touches no other. */
  lemma CloseAlone(s: Gates, t: Tid, gate: Generation) returns (path: seq<Gates>)
    requires t in s.threads && s.threads[t] == Idle && gate != NONE
    ensures Alone(path, t) && path[0] == s
    ensures path[|path| - 1] == Gates(if s.active == gate then NONE else s.active, s.retired + {gate}, s.fenced + {gate}, s.threads)
  {
    var closing := At(s, t, Closing(gate, false)).(retired := s.retired + {gate});
    path := OneMore([s], t, CloseRetire(gate), closing);
    var hidden := At(closing, t, Closing(gate, true)).(active := if s.active == gate then NONE else s.active);
    path := OneMore(path, t, CloseSwitch, hidden);
    path := OneMore(path, t, CloseDrain, At(hidden, t, Idle).(fenced := s.fenced + {gate}));
    assert path[|path| - 1].threads == s.threads;
  }

  /** A cutover that is left alone swaps the two exactly if the new one is not retired and the old one is
      shown; then the old one is retired and fenced.  Otherwise nothing changes. */
  lemma CutoverAlone(s: Gates, t: Tid, gate: Generation, before: Generation) returns (path: seq<Gates>)
    requires t in s.threads && s.threads[t] == Idle && gate != NONE && before != NONE && gate != before
    ensures Alone(path, t) && path[0] == s
    ensures path[|path| - 1] == if gate !in s.retired && s.active == before
                                then Gates(gate, s.retired + {before}, s.fenced + {before}, s.threads) else s
  {
    path := OneMore([s], t, CutLoad(gate, before), At(s, t, if gate in s.retired then Idle else Cutting(gate, before)));
    if gate in s.retired { return; }
    if s.active != before {
      path := OneMore(path, t, CutSwitch, s);
      return;
    }
    var cut := At(s, t, Cut(before, false)).(active := gate);
    path := OneMore(path, t, CutSwitch, cut);
    var retired := At(cut, t, Cut(before, true)).(retired := s.retired + {before});
    path := OneMore(path, t, CutRetire, retired);
    path := OneMore(path, t, CutDrain, At(retired, t, Idle).(fenced := s.fenced + {before}));
    assert path[|path| - 1].threads == s.threads;
  }
}
