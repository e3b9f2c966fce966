/** Generations of a plugin share a selector; a gate is visible while its selector names its
    generation.  Gates are atomics shared by every registry, so they live in one store here. */
module CapabilityGate {
  type Selector = nat
  type Generation = nat

  /** No generation is published. */
  const NONE: Generation := 0

  datatype Gate = Gate(selector: Selector, generation: Generation)

  type Active = map<Selector, Generation>

  function ActiveOf(active: Active, selector: Selector): Generation {
    if selector in active then active[selector] else NONE
  }

  predicate Visible(active: Active, gate: Gate) {
    ActiveOf(active, gate.selector) == gate.generation
  }

  function Select(active: Active, gate: Gate): Active {
    active[gate.selector := gate.generation]
  }

  class Gates {
    var active: Active
    var retired: set<Gate>
    /** Gates whose execution no longer accepts. */
    var draining: set<Gate>

    constructor ()
      ensures active == map[] && retired == {} && draining == {}
    {
      active, retired, draining := map[], {}, {};
    }

    method Switch(selector: Selector, from: Generation, to: Generation) returns (ok: bool)
      modifies this`active
      ensures ok == (ActiveOf(old(active), selector) == from)
      ensures active == if ok then old(active)[selector := to] else old(active)
    {
      ok := ActiveOf(active, selector) == from;
      if ok { active := active[selector := to]; }
    }

    /** A retired gate stays hidden; any other becomes the visible one of a selector that had none. */
    method Publish(gate: Gate) returns (ok: bool)
      modifies this`active
      ensures ok == (gate !in retired && ActiveOf(old(active), gate.selector) == NONE)
      ensures active == if ok then Select(old(active), gate) else old(active)
    {
      if gate in retired { return false; }
      ok := Switch(gate.selector, NONE, gate.generation);
    }

    method Close(gate: Gate)
      requires gate.generation != NONE
      modifies this
      ensures !Visible(active, gate) && retired == old(retired) + {gate} && draining == old(draining) + {gate}
      ensures forall g: Gate :: g != gate && g.generation != NONE ==> Visible(active, g) == Visible(old(active), g)
    {
      retired := retired + {gate};
      var _ := Switch(gate.selector, gate.generation, NONE);
      draining := draining + {gate};
    }

    /** One exchange hides the old generation and shows the new one. */
    method CutoverFrom(gate: Gate, before: Gate) returns (ok: bool)
      requires gate.generation != NONE && before.generation != NONE && gate != before
      modifies this
      ensures ok == (gate !in old(retired) && gate.selector == before.selector && Visible(old(active), before))
      ensures !ok ==> active == old(active) && retired == old(retired) && draining == old(draining)
      ensures ok ==> active == Select(old(active), gate) && Visible(active, gate) && !Visible(active, before)
      ensures ok ==> retired == old(retired) + {before} && draining == old(draining) + {before}
      ensures forall g: Gate :: g.selector != before.selector ==> Visible(active, g) == Visible(old(active), g)
    {
      if gate in retired || gate.selector != before.selector { return false; }
      ok := Switch(gate.selector, before.generation, gate.generation);
      if ok {
        retired := retired + {before};
        draining := draining + {before};
      }
    }
  }

  // ---- Looking while the gates change ------------------------------------------------------------------

  /** The gates at one instant: what the selectors name, and which executions accept no more. */
  datatype Moment = Moment(active: Active, closed: set<Gate>)

  /** The gates as others change them.  Every look at a selector and every try for a lease has an
      instant of its own; between two of them anything may have happened. */
  class Surroundings {
    const at: nat -> Moment
    var now: nat

    constructor (at: nat -> Moment)
      ensures this.at == at && now == 0
    {
      this.at := at;
      now := 0;
    }

    method Look(selector: Selector) returns (generation: Generation)
      modifies this
      ensures now == old(now) + 1 && generation == ActiveOf(at(old(now)).active, selector)
    {
      generation := ActiveOf(at(now).active, selector);
      now := now + 1;
    }

    method TryAcquire(gate: Gate) returns (ok: bool)
      modifies this
      ensures now == old(now) + 1 && ok == !ClosedAt(at, old(now), gate)
    {
      ok := gate !in at(now).closed;
      now := now + 1;
    }
  }

  predicate ClosedAt(at: nat -> Moment, m: nat, gate: Gate) {
    gate in at(m).closed
  }

  /** What is remembered stays as it is. */
  predicate Extends(a: Active, b: Active) {
    forall s <- a :: s in b && b[s] == a[s]
  }

  predicate SawAt(at: nat -> Moment, m: nat, selector: Selector, generation: Generation) {
    ActiveOf(at(m).active, selector) == generation
  }

  /** Each selector is remembered as it was at some instant between the two. */
  ghost predicate FirstLooks(seen: Active, at: nat -> Moment, start: nat, end: nat) {
    start <= end && forall s <- seen :: exists m: nat :: start <= m < end && SawAt(at, m, s, seen[s])
  }

  lemma OneMoreLook(seen: Active, at: nat -> Moment, start: nat, now: nat, s: Selector)
    requires FirstLooks(seen, at, start, now)
    ensures FirstLooks(seen[s := ActiveOf(at(now).active, s)], at, start, now + 1)
  {
    var more := seen[s := ActiveOf(at(now).active, s)];
    assert SawAt(at, now, s, more[s]);
    forall x | x in more ensures exists m: nat :: start <= m < now + 1 && SawAt(at, m, x, more[x]) {
      if x != s {
        var m: nat :| start <= m < now && SawAt(at, m, x, seen[x]);
        assert SawAt(at, m, x, more[x]);
      }
    }
  }

  /** Visibility for the length of one attempt: a selector is looked at once. */
  class VisibilityCache {
    var seen: Active

    constructor ()
      ensures seen == map[]
    {
      seen := map[];
    }

    method Sees(gate: Gate, world: Surroundings, ghost start: nat) returns (visible: bool)
      requires FirstLooks(seen, world.at, start, world.now)
      modifies this, world
      ensures visible == Visible(seen, gate) && gate.selector in seen
      ensures seen.Keys == old(seen).Keys + {gate.selector} && Extends(old(seen), seen)
      ensures FirstLooks(seen, world.at, start, world.now)
    {
      if gate.selector !in seen {
        OneMoreLook(seen, world.at, start, world.now, gate.selector);
        var generation := world.Look(gate.selector);
        seen := seen[gate.selector := generation];
      }
      visible := seen[gate.selector] == gate.generation;
    }
  }
}
