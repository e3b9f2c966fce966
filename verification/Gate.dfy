/** The packed admission word of one plugin generation.  Two low bits hold the execution
    state, the remaining 62 bits count the live leases. */
module GenerationWord {
  const USIZE_MODULUS: nat := 0x1_0000_0000_0000_0000
  const STATE_MODULUS: nat := 4
  const INFLIGHT_ONE: nat := 4
  const MAX_INFLIGHT: nat := 0x3FFF_FFFF_FFFF_FFFF
  const ACCEPTING: nat := 0
  const DRAINING: nat := 1
  const DRAINED: nat := 2

  type Word = w: nat | w < USIZE_MODULUS

  datatype ExecutionState = Accepting | Draining | Drained

  /** The fourth bit pattern is reserved; decoding it panics in the program. */
  predicate Decodable(w: Word) {
    w % STATE_MODULUS != 3
  }

  function State(w: Word): ExecutionState
    requires Decodable(w)
  {
    match w % STATE_MODULUS
    case 0 => Accepting
    case 1 => Draining
    case _ => Drained
  }

  function Inflight(w: Word): nat {
    w / STATE_MODULUS
  }

  /** Shift left by two bits, dropping what leaves the machine word, then put in the state. */
  function Pack(state: nat, inflight: nat): Word
    requires state < STATE_MODULUS
  {
    (inflight * INFLIGHT_ONE) % USIZE_MODULUS + state
  }

  function StateCode(state: ExecutionState): nat {
    match state
    case Accepting => ACCEPTING
    case Draining => DRAINING
    case Drained => DRAINED
  }

  /** Packing and unpacking are inverse exactly up to the counter limit. */
  lemma PackRoundTrip(state: ExecutionState, inflight: nat)
    ensures var w := Pack(StateCode(state), inflight);
            Decodable(w) && State(w) == state && (Inflight(w) == inflight <==> inflight <= MAX_INFLIGHT)
  {
    var shifted := (inflight * INFLIGHT_ONE) % USIZE_MODULUS;
    assert shifted % STATE_MODULUS == 0;
    if inflight <= MAX_INFLIGHT {
      assert shifted == inflight * 4;
    }
  }

  lemma UnpackRoundTrip(w: Word)
    requires Decodable(w)
    ensures Inflight(w) <= MAX_INFLIGHT && Pack(StateCode(State(w)), Inflight(w)) == w
  {
  }

  /** What a successful acquiring exchange stores. */
  function AcquireWord(w: Word): Word
    requires Decodable(w) && State(w) == Accepting && Inflight(w) < MAX_INFLIGHT
  {
    w + INFLIGHT_ONE
  }

  /** What a successful closing exchange stores. */
  function DrainWord(w: Word): Word
    requires Decodable(w) && State(w) == Accepting
  {
    if Inflight(w) == 0 then Pack(DRAINED, 0) else Pack(DRAINING, Inflight(w))
  }

  /** What a successful releasing exchange stores. */
  function DropWord(w: Word): Word
    requires Decodable(w) && Inflight(w) != 0
  {
    var remaining := Inflight(w) - 1;
    var next := if State(w) == Draining && remaining == 0 then DRAINED else w % STATE_MODULUS;
    Pack(next, remaining)
  }

  lemma AcquireWordMeaning(w: Word)
    requires Decodable(w) && State(w) == Accepting && Inflight(w) < MAX_INFLIGHT
    ensures var n := AcquireWord(w); Decodable(n) && State(n) == Accepting && Inflight(n) == Inflight(w) + 1
  {
  }

  lemma DrainWordMeaning(w: Word)
    requires Decodable(w) && State(w) == Accepting
    ensures var n := DrainWord(w);
            Decodable(n) && Inflight(n) == Inflight(w) && State(n) == if Inflight(w) == 0 then Drained else Draining
  {
    PackRoundTrip(Drained, 0);
    PackRoundTrip(Draining, Inflight(w));
  }

  lemma DropWordMeaning(w: Word)
    requires Decodable(w) && Inflight(w) != 0
    ensures var n := DropWord(w);
            && Decodable(n)
            && Inflight(n) == Inflight(w) - 1
            && State(n) == if State(w) == Draining && Inflight(w) == 1 then Drained else State(w)
  {
    PackRoundTrip(Drained, Inflight(w) - 1);
    PackRoundTrip(State(w), Inflight(w) - 1);
  }
}
