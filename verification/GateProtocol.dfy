/** All interleavings of threads that acquire, drain, release and wait on one generation.
    Every shared access of the compare-exchange loops is a step of its own. */
module GateProtocol {
  import opened GenerationWord

  type Tid = nat

  datatype Outcome = DrainedOutcome | TimedOut(remaining: nat)
  datatype Failure = InflightOverflow | LeaseUnderflow | HandleUnderflow | HandleOverflow

  datatype Pc =
    | Idle
    | AcquireLoaded(current: Word, service: bool)  // loop head of an acquisition
    | Counted                                      // exchange won, service handle not yet counted
    | Holding(service: bool)
    | Dropping                                     // service handle uncounted, word not yet loaded
    | DropLoaded(current: Word)
    | DrainLoaded(current: Word, waits: bool)
    | Notifying(waits: bool)                       // stored Drained, waiters not yet notified
    | WaitTop
    | Registered(seen: nat)                        // the notification future exists
    | Sleeping(seen: nat, remaining: nat)
    | Finished(outcome: Outcome)
    | Panicked(why: Failure)

  /** `notified` counts the calls that wake every registered waiter. */
  datatype Proto = Proto(word: Word, handles: nat, notified: nat, threads: map<Tid, Pc>)

  datatype Step =
    | AcquireLoad(service: bool)
    | AcquireReject
    | AcquireOverflow
    | AcquireExchange
    | CountHandle
    | CountHandleOverflow
    | DropHandle
    | DropHandleUnderflow
    | DropLoad
    | DropUnderflow
    | DropExchange
    | DrainLoad(waits: bool)
    | DrainSkip
    | DrainExchange
    | Retry
    | Notify
    | Register
    | Check
    | Wake
    | Timeout
    | Restart

  predicate Init(s: Proto) {
    && s.word == Pack(ACCEPTING, 0) && s.handles == 0 && s.notified == 0
    && forall t <- s.threads :: s.threads[t] == Idle
  }

  function At(s: Proto, t: Tid, pc: Pc): Proto {
    s.(threads := s.threads[t := pc])
  }

  /** After the drain loop a waiter goes on to wait; a plain closer is done. */
  function AfterDrain(waits: bool): Pc {
    if waits then WaitTop else Idle
  }

  predicate NextStep(s: Proto, t: Tid, a: Step, n: Proto) {
    t in s.threads &&
    var pc := s.threads[t];
    match a
    case AcquireLoad(service) =>
      pc == Idle && n == At(s, t, AcquireLoaded(s.word, service))
    case AcquireReject =>
      pc.AcquireLoaded? && Decodable(pc.current) && State(pc.current) != Accepting && n == At(s, t, Idle)
    case AcquireOverflow =>
      && pc.AcquireLoaded? && Decodable(pc.current) && State(pc.current) == Accepting
      && Inflight(pc.current) >= MAX_INFLIGHT && n == At(s, t, Panicked(InflightOverflow))
    case AcquireExchange =>
      && pc.AcquireLoaded? && Decodable(pc.current) && State(pc.current) == Accepting
      && Inflight(pc.current) < MAX_INFLIGHT && s.word == pc.current
      && n == At(s, t, if pc.service then Counted else Holding(false)).(word := AcquireWord(pc.current))
    case CountHandle =>
      && pc == Counted && s.handles + 1 < USIZE_MODULUS
      && n == At(s, t, Holding(true)).(handles := s.handles + 1)
    case CountHandleOverflow =>
      pc == Counted && s.handles + 1 >= USIZE_MODULUS && n == At(s, t, Panicked(HandleOverflow))
    case DropHandle =>
      && pc.Holding? && (pc.service ==> s.handles != 0)
      && n == At(s, t, Dropping).(handles := if pc.service then s.handles - 1 else s.handles)
    case DropHandleUnderflow =>
      pc == Holding(true) && s.handles == 0 && n == At(s, t, Panicked(HandleUnderflow))
    case DropLoad =>
      pc == Dropping && n == At(s, t, DropLoaded(s.word))
    case DropUnderflow =>
      pc.DropLoaded? && Inflight(pc.current) == 0 && n == At(s, t, Panicked(LeaseUnderflow))
    case DropExchange =>
      && pc.DropLoaded? && Decodable(pc.current) && Inflight(pc.current) != 0 && s.word == pc.current
      && var stored := DropWord(pc.current);
         n == At(s, t, if stored % STATE_MODULUS == DRAINED then Notifying(false) else Idle).(word := stored)
    case DrainLoad(waits) =>
      pc == Idle && n == At(s, t, DrainLoaded(s.word, waits))
    case DrainSkip =>
      && pc.DrainLoaded? && Decodable(pc.current) && State(pc.current) != Accepting
      && n == At(s, t, AfterDrain(pc.waits))
    case DrainExchange =>
      && pc.DrainLoaded? && Decodable(pc.current) && State(pc.current) == Accepting && s.word == pc.current
      && n == At(s, t, if Inflight(pc.current) == 0 then Notifying(pc.waits) else AfterDrain(pc.waits))
              .(word := DrainWord(pc.current))
    case Retry =>
      // A weak exchange may fail whether or not the word moved; the loop reloads it.
      (match pc
       case AcquireLoaded(_, service) => n == At(s, t, AcquireLoaded(s.word, service))
       case DropLoaded(_) => n == At(s, t, DropLoaded(s.word))
       case DrainLoaded(_, waits) => n == At(s, t, DrainLoaded(s.word, waits))
       case _ => false)
    case Notify =>
      pc.Notifying? && n == At(s, t, AfterDrain(pc.waits)).(notified := s.notified + 1)
    case Register =>
      pc == WaitTop && n == At(s, t, Registered(s.notified))
    case Check =>
      && pc.Registered?
      && n == At(s, t, if Inflight(s.word) == 0 then Finished(DrainedOutcome) else Sleeping(pc.seen, Inflight(s.word)))
    case Wake =>
      pc.Sleeping? && s.notified > pc.seen && n == At(s, t, WaitTop)
    case Timeout =>
      pc.Sleeping? && n == At(s, t, Finished(TimedOut(pc.remaining)))
    case Restart =>
      pc.Finished? && n == At(s, t, Idle)
  }

  ghost predicate Next(s: Proto, n: Proto) {
    exists t, a :: NextStep(s, t, a, n)
  }

  // ---- Live leases -------------------------------------------------------------------------

  predicate OwnsLease(pc: Pc) {
    pc.Counted? || pc.Holding? || pc.Dropping? || pc.DropLoaded?
  }

  predicate OwnsHandle(pc: Pc) {
    pc == Holding(true)
  }

  function Leases(threads: map<Tid, Pc>): set<Tid> {
    set t | t in threads && OwnsLease(threads[t])
  }

  function Handles(threads: map<Tid, Pc>): set<Tid> {
    set t | t in threads && OwnsHandle(threads[t])
  }

  function Notifiers(threads: map<Tid, Pc>): set<Tid> {
    set t | t in threads && threads[t].Notifying?
  }

  function With(s: set<Tid>, t: Tid, b: bool): set<Tid> {
    if b then s + {t} else s - {t}
  }

  function Bit(b: bool): int {
    if b then 1 else 0
  }

  lemma WithSize(s: set<Tid>, t: Tid, b: bool)
    ensures |With(s, t, b)| == |s| - Bit(t in s) + Bit(b)
  {
    if t in s {
      assert s == (s - {t}) + {t};
    } else {
      assert s - {t} == s;
    }
  }

  lemma MoveLease(threads: map<Tid, Pc>, t: Tid, pc: Pc)
    requires t in threads
    ensures Leases(threads[t := pc]) == With(Leases(threads), t, OwnsLease(pc))
    ensures |Leases(threads[t := pc])| == |Leases(threads)| - Bit(OwnsLease(threads[t])) + Bit(OwnsLease(pc))
  {
    WithSize(Leases(threads), t, OwnsLease(pc));
    assert Leases(threads[t := pc]) == With(Leases(threads), t, OwnsLease(pc));
  }

  lemma MoveHandle(threads: map<Tid, Pc>, t: Tid, pc: Pc)
    requires t in threads
    ensures |Handles(threads[t := pc])| == |Handles(threads)| - Bit(OwnsHandle(threads[t])) + Bit(OwnsHandle(pc))
  {
    WithSize(Handles(threads), t, OwnsHandle(pc));
    assert Handles(threads[t := pc]) == With(Handles(threads), t, OwnsHandle(pc));
  }

  lemma MoveNotifier(threads: map<Tid, Pc>, t: Tid, pc: Pc)
    requires t in threads
    ensures |Notifiers(threads[t := pc])| == |Notifiers(threads)| - Bit(threads[t].Notifying?) + Bit(pc.Notifying?)
  {
    WithSize(Notifiers(threads), t, pc.Notifying?);
    assert Notifiers(threads[t := pc]) == With(Notifiers(threads), t, pc.Notifying?);
  }

  /** The numbers a thread contributes, before and after it moves. */
  lemma MoveOne(s: Proto, t: Tid, a: Step, n: Proto)
    requires NextStep(s, t, a, n)
    ensures n.threads == s.threads[t := n.threads[t]]
    ensures Leases(n.threads) == With(Leases(s.threads), t, OwnsLease(n.threads[t]))
    ensures |Leases(n.threads)| == |Leases(s.threads)| - Bit(OwnsLease(s.threads[t])) + Bit(OwnsLease(n.threads[t]))
    ensures |Handles(n.threads)| == |Handles(s.threads)| - Bit(OwnsHandle(s.threads[t])) + Bit(OwnsHandle(n.threads[t]))
    ensures |Notifiers(n.threads)|
         == |Notifiers(s.threads)| - Bit(s.threads[t].Notifying?) + Bit(n.threads[t].Notifying?)
    ensures OwnsLease(s.threads[t]) ==> |Leases(s.threads)| >= 1
    ensures OwnsHandle(s.threads[t]) ==> |Handles(s.threads)| >= 1
    ensures s.threads[t].Notifying? ==> |Notifiers(s.threads)| >= 1
  {
    assert n.threads == s.threads[t := n.threads[t]];
    MoveLease(s.threads, t, n.threads[t]);
    MoveHandle(s.threads, t, n.threads[t]);
    MoveNotifier(s.threads, t, n.threads[t]);
    if OwnsLease(s.threads[t]) { MemberSize(Leases(s.threads), t); }
    if OwnsHandle(s.threads[t]) { MemberSize(Handles(s.threads), t); }
    if s.threads[t].Notifying? { MemberSize(Notifiers(s.threads), t); }
  }

  lemma SubsetSize(a: set<Tid>, b: set<Tid>)
    requires a <= b
    ensures |a| <= |b|
  {
    assert b == a + (b - a);
  }

  // ---- Invariant ---------------------------------------------------------------------------

  /** What a single thread may rely on. */
  predicate PcOk(s: Proto, pc: Pc)
    requires Decodable(s.word)
  {
    match pc
    case AcquireLoaded(current, _) => Decodable(current) && (State(current) != Accepting ==> State(s.word) != Accepting)
    case DropLoaded(current) => Decodable(current) && Inflight(current) >= 1 && State(current) != Drained
    case DrainLoaded(current, _) => Decodable(current) && (State(current) != Accepting ==> State(s.word) != Accepting)
    case Notifying(_) => State(s.word) == Drained
    case WaitTop => State(s.word) != Accepting
    case Registered(seen) => State(s.word) != Accepting && seen <= s.notified
    case Sleeping(seen, remaining) => State(s.word) != Accepting && seen == 0 && remaining > 0
    case Finished(DrainedOutcome) => State(s.word) == Drained
    case Finished(TimedOut(remaining)) => remaining > 0
    case Panicked(why) => why == InflightOverflow
    case _ => true
  }

  /** The counters agree with the sets of threads that they count. */
  ghost predicate Counts(s: Proto) {
    && Decodable(s.word)
    && Inflight(s.word) == |Leases(s.threads)|
    && s.handles == |Handles(s.threads)|
    && (State(s.word) == Draining ==> Inflight(s.word) > 0)
    && (State(s.word) == Drained ==> Inflight(s.word) == 0)
    // Exactly one thread stores Drained, and it notifies exactly once.
    && s.notified + |Notifiers(s.threads)| == (if State(s.word) == Drained then 1 else 0)
  }

  ghost predicate Inv(s: Proto) {
    && Counts(s)
    && forall t <- s.threads :: PcOk(s, s.threads[t])
  }

  lemma InitInv(s: Proto)
    requires Init(s)
    ensures Inv(s)
  {
    assert Leases(s.threads) == {} && Handles(s.threads) == {} && Notifiers(s.threads) == {};
  }

  lemma MemberSize(s: set<Tid>, t: Tid)
    requires t in s
    ensures |s| >= 1
  {
    assert s == {t} + (s - {t});
  }

  /** The execution state only moves forward and signals only accumulate. */
  predicate Advances(s: Proto, n: Proto) {
    && Decodable(s.word) && Decodable(n.word) && n.notified >= s.notified
    && (State(n.word) == State(s.word) || State(s.word) == Accepting || State(n.word) == Drained)
    && (State(s.word) == Drained ==> n.word == s.word)
  }

  /** What one thread relies on survives the steps of the others. */
  lemma PcStable(s: Proto, n: Proto, pc: Pc)
    requires Advances(s, n) && PcOk(s, pc)
    ensures PcOk(n, pc)
  {
  }

  lemma LocalCounts(s: Proto, t: Tid, a: Step, n: Proto)
    requires Inv(s) && NextStep(s, t, a, n) && !a.AcquireExchange? && !a.DropExchange? && !a.DrainExchange?
    ensures n.word == s.word && OwnsLease(n.threads[t]) == OwnsLease(s.threads[t])
    ensures n.handles == s.handles - Bit(OwnsHandle(s.threads[t])) + Bit(OwnsHandle(n.threads[t]))
    ensures n.notified == s.notified + Bit(s.threads[t].Notifying?) - Bit(n.threads[t].Notifying?)
  {
    assert PcOk(s, s.threads[t]);
    if a == CountHandleOverflow { SubsetSize(Handles(s.threads), Leases(s.threads)); }
    if OwnsLease(s.threads[t]) { MemberSize(Leases(s.threads), t); }
    if OwnsHandle(s.threads[t]) { MemberSize(Handles(s.threads), t); }
  }

  lemma LocalPc(s: Proto, t: Tid, a: Step, n: Proto)
    requires Inv(s) && NextStep(s, t, a, n) && !a.AcquireExchange? && !a.DropExchange? && !a.DrainExchange?
    requires n.word == s.word
    ensures PcOk(n, n.threads[t])
  {
    assert PcOk(s, s.threads[t]);
    if a == CountHandleOverflow { SubsetSize(Handles(s.threads), Leases(s.threads)); }
    if OwnsLease(s.threads[t]) { MemberSize(Leases(s.threads), t); }
    if OwnsHandle(s.threads[t]) { MemberSize(Handles(s.threads), t); }
  }

  /** Steps other than the three exchanges leave the word and the lease owners alone. */
  lemma LocalStep(s: Proto, t: Tid, a: Step, n: Proto)
    requires Inv(s) && NextStep(s, t, a, n) && !a.AcquireExchange? && !a.DropExchange? && !a.DrainExchange?
    ensures n.word == s.word && OwnsLease(n.threads[t]) == OwnsLease(s.threads[t])
    ensures n.handles == s.handles - Bit(OwnsHandle(s.threads[t])) + Bit(OwnsHandle(n.threads[t]))
    ensures n.notified == s.notified + Bit(s.threads[t].Notifying?) - Bit(n.threads[t].Notifying?)
    ensures PcOk(n, n.threads[t])
  {
    LocalCounts(s, t, a, n);
    LocalPc(s, t, a, n);
  }

  lemma ExchangeStep(s: Proto, t: Tid, a: Step, n: Proto)
    requires Inv(s) && NextStep(s, t, a, n) && (a.AcquireExchange? || a.DropExchange? || a.DrainExchange?)
    ensures Decodable(n.word) && n.handles == s.handles && n.notified == s.notified
    ensures OwnsHandle(n.threads[t]) == OwnsHandle(s.threads[t]) && !s.threads[t].Notifying?
    ensures Inflight(n.word) == Inflight(s.word) - Bit(OwnsLease(s.threads[t])) + Bit(OwnsLease(n.threads[t]))
    ensures State(n.word) == (match a
                              case AcquireExchange => Accepting
                              case DropExchange =>
                                if State(s.word) == Draining && Inflight(s.word) == 1 then Drained else State(s.word)
                              case _ => if Inflight(s.word) == 0 then Drained else Draining)
    ensures State(s.word) != Drained
    ensures n.threads[t].Notifying? <==> State(n.word) == Drained
    ensures PcOk(n, n.threads[t])
  {
    var pc := s.threads[t];
    assert PcOk(s, pc);
    match a {
      case AcquireExchange => AcquireWordMeaning(pc.current);
      case DropExchange => DropWordMeaning(pc.current);
      case DrainExchange => DrainWordMeaning(pc.current);
    }
  }

  lemma NextCounts(s: Proto, t: Tid, a: Step, n: Proto)
    requires Inv(s) && NextStep(s, t, a, n)
    ensures Counts(n) && PcOk(n, n.threads[t]) && Advances(s, n)
  {
    MoveOne(s, t, a, n);
    if a.AcquireExchange? || a.DropExchange? || a.DrainExchange? {
      ExchangeStep(s, t, a, n);
    } else {
      LocalStep(s, t, a, n);
    }
  }

  lemma OthersKeepPc(s: Proto, t: Tid, pc: Pc, n: Proto)
    requires Inv(s) && Advances(s, n) && n.threads == s.threads[t := pc] && PcOk(n, pc)
    ensures forall u <- n.threads :: PcOk(n, n.threads[u])
  {
    forall u <- n.threads ensures PcOk(n, n.threads[u]) {
      if u != t { PcStable(s, n, s.threads[u]); }
    }
  }

  lemma NextInv(s: Proto, t: Tid, a: Step, n: Proto)
    requires Inv(s) && NextStep(s, t, a, n)
    ensures Inv(n)
  {
    NextCounts(s, t, a, n);
    var pc := n.threads[t];
    assert n.threads == s.threads[t := pc];
    OthersKeepPc(s, t, pc, n);
  }

  // ---- Runs --------------------------------------------------------------------------------

  ghost predicate Linked(run: seq<Proto>, i: nat) {
    i + 1 < |run| ==> Next(run[i], run[i + 1])
  }

  ghost predicate Run(run: seq<Proto>) {
    |run| > 0 && Init(run[0]) && forall i :: Linked(run, i)
  }

  lemma StepAt(run: seq<Proto>, i: nat) returns (t: Tid, a: Step)
    requires Run(run) && i + 1 < |run|
    ensures NextStep(run[i], t, a, run[i + 1])
  {
    assert Linked(run, i);
    t, a :| NextStep(run[i], t, a, run[i + 1]);
  }

  lemma {:induction false} RunInv(run: seq<Proto>, i: nat)
    requires Run(run) && i < |run|
    ensures Inv(run[i])
  {
    if i == 0 {
      InitInv(run[0]);
    } else {
      RunInv(run, i - 1);
      var t, a := StepAt(run, i - 1);
      NextInv(run[i - 1], t, a, run[i]);
    }
  }

  /** Lease accounting in every reachable state: the word decodes to the number of live leases,
      handles never exceed leases, and of the four assertions in the program only the
      overflow of a full counter can fire. */
  lemma LeaseAccounting(run: seq<Proto>, i: nat)
    requires Run(run) && i < |run|
    ensures var s := run[i];
            && Decodable(s.word)
            && Inflight(s.word) == |Leases(s.threads)| <= MAX_INFLIGHT
            && s.handles == |Handles(s.threads)| <= Inflight(s.word)
            && (State(s.word) == Draining ==> Leases(s.threads) != {})
            && (State(s.word) == Drained ==> Leases(s.threads) == {})
            && forall t <- s.threads :: s.threads[t].Panicked? ==> s.threads[t].why == InflightOverflow
  {
    RunInv(run, i);
    SubsetSize(Handles(run[i].threads), Leases(run[i].threads));
  }

  lemma AdmissionClosesStep(s: Proto, t: Tid, a: Step, n: Proto)
    requires Inv(s) && NextStep(s, t, a, n) && State(s.word) != Accepting
    ensures Inv(n) && State(n.word) != Accepting && Leases(n.threads) <= Leases(s.threads)
    ensures State(s.word) == Drained ==> n.word == s.word
  {
    NextInv(s, t, a, n);
    MoveOne(s, t, a, n);
    if a.AcquireExchange? || a.DropExchange? || a.DrainExchange? {
      ExchangeStep(s, t, a, n);
    } else {
      LocalStep(s, t, a, n);
    }
  }

  /** Once draining has started no thread ever obtains a lease again, and Drained is final. */
  lemma {:induction false} AdmissionStaysClosed(run: seq<Proto>, i: nat, j: nat)
    requires Run(run) && i <= j < |run| && Decodable(run[i].word) && State(run[i].word) != Accepting
    ensures Decodable(run[j].word) && State(run[j].word) != Accepting
    ensures Leases(run[j].threads) <= Leases(run[i].threads)
    ensures State(run[i].word) == Drained ==> run[j].word == run[i].word
    decreases j
  {
    if i < j {
      AdmissionStaysClosed(run, i, j - 1);
      RunInv(run, j - 1);
      var t, a := StepAt(run, j - 1);
      AdmissionClosesStep(run[j - 1], t, a, run[j]);
    }
  }

  /** A waiter that reports a completed drain is right, then and for ever. */
  lemma DrainedReportIsFinal(run: seq<Proto>, i: nat, j: nat, t: Tid)
    requires Run(run) && i <= j < |run| && t in run[i].threads && run[i].threads[t] == Finished(DrainedOutcome)
    ensures Leases(run[j].threads) == {}
  {
    RunInv(run, i);
    AdmissionStaysClosed(run, i, j);
    LeaseAccounting(run, j);
  }

  /** No lost wake-up: a waiter asleep on a drained word has already been signalled, or the one
      thread that stored Drained is about to signal it. */
  lemma NoLostWakeUp(run: seq<Proto>, i: nat, t: Tid)
    requires Run(run) && i < |run| && t in run[i].threads && run[i].threads[t].Sleeping?
    requires Decodable(run[i].word) && State(run[i].word) == Drained
    ensures (exists n :: NextStep(run[i], t, Wake, n)) <==> Notifiers(run[i].threads) == {}
    ensures Notifiers(run[i].threads) != {} ==>
              exists u :: Notifiers(run[i].threads) == {u} && exists n :: NextStep(run[i], u, Notify, n)
  {
    RunInv(run, i);
    var s := run[i];
    var notifiers := Notifiers(s.threads);
    if notifiers == {} {
      assert s.notified == 1;
      assert NextStep(s, t, Wake, At(s, t, WaitTop));
    } else {
      var u :| u in notifiers;
      assert notifiers == {u} + (notifiers - {u});
      assert |notifiers| == 1 + |notifiers - {u}|;
      assert notifiers == {u};
      assert NextStep(s, u, Notify, At(s, u, AfterDrain(s.threads[u].waits)).(notified := s.notified + 1));
    }
  }

  // ---- What is reported ------------------------------------------------------------------------------

  /** The number of leases a thread has in hand: as it was when it looked at the word. */
  function Seen(pc: Pc): nat {
    match pc
    case AcquireLoaded(current, _) => Inflight(current)
    case Sleeping(_, remaining) => remaining
    case Finished(TimedOut(remaining)) => remaining
    case _ => 0
  }

  /** Inside one acquisition, or between a waiter's check and its report. */
  predicate Looked(pc: Pc) {
    pc.AcquireLoaded? || pc.Sleeping? || (pc.Finished? && pc.outcome.TimedOut?)
  }

  /** At some instant there were so many live leases, and the thread has been inside ever since. */
  ghost predicate SeenSince(run: seq<Proto>, i: nat, t: Tid, leases: nat)
    requires i < |run|
  {
    exists k | 0 <= k <= i ::
      && |Leases(run[k].threads)| == leases
      && forall j :: k < j <= i ==> t in run[j].threads && Looked(run[j].threads[t])
  }

  lemma LookStep(s: Proto, t: Tid, a: Step, n: Proto, u: Tid)
    requires Inv(s) && NextStep(s, t, a, n) && u in n.threads && Looked(n.threads[u])
    ensures u in s.threads
    ensures (Looked(s.threads[u]) && Seen(s.threads[u]) == Seen(n.threads[u])) || Seen(n.threads[u]) == |Leases(s.threads)|
  {
    if u != t { assert n.threads[u] == s.threads[u]; }
  }

  lemma {:induction false} SeenWasLive(run: seq<Proto>, i: nat, t: Tid)
    requires Run(run) && i < |run| && t in run[i].threads && Looked(run[i].threads[t])
    ensures SeenSince(run, i, t, Seen(run[i].threads[t]))
  {
    if i == 0 { assert false; }
    RunInv(run, i - 1);
    var u, a := StepAt(run, i - 1);
    LookStep(run[i - 1], u, a, run[i], t);
    var leases := Seen(run[i].threads[t]);
    if Looked(run[i - 1].threads[t]) && Seen(run[i - 1].threads[t]) == leases {
      SeenWasLive(run, i - 1, t);
      var k :| 0 <= k <= i - 1 && |Leases(run[k].threads)| == leases
               && forall j :: k < j <= i - 1 ==> t in run[j].threads && Looked(run[j].threads[t]);
      assert forall j :: k < j <= i ==> t in run[j].threads && Looked(run[j].threads[t]);
    } else {
      assert forall j :: i - 1 < j <= i ==> t in run[j].threads && Looked(run[j].threads[t]);
    }
  }

  /** A timeout reports how many leases were live, and some were, at an instant of the wait. */
  lemma TimeoutReportsLeases(run: seq<Proto>, i: nat, t: Tid)
    requires Run(run) && i < |run| && t in run[i].threads
    requires run[i].threads[t].Finished? && run[i].threads[t].outcome.TimedOut?
    ensures run[i].threads[t].outcome.remaining > 0 && SeenSince(run, i, t, run[i].threads[t].outcome.remaining)
  {
    RunInv(run, i);
    SeenWasLive(run, i, t);
  }

  predicate FoundAccepting(pc: Pc) {
    pc.AcquireLoaded? && Decodable(pc.current) && State(pc.current) == Accepting
  }

  /** An acquisition that comes back without a lease was refused by a gate that had begun to drain; one
      that panics had found the gate accepting and as many leases as the counter can hold. */
  lemma RefusedOnlyWhenClosed(run: seq<Proto>, i: nat, t: Tid)
    requires Run(run) && i + 1 < |run| && t in run[i].threads && run[i].threads[t].AcquireLoaded?
    requires t in run[i + 1].threads && !run[i + 1].threads[t].AcquireLoaded?
    ensures var pc := run[i + 1].threads[t];
            if pc.Idle? then Decodable(run[i].word) && State(run[i].word) != Accepting
            else if pc.Panicked? then SeenSince(run, i, t, MAX_INFLIGHT) && FoundAccepting(run[i].threads[t])
            else OwnsLease(pc) && t in Leases(run[i + 1].threads)
  {
    RunInv(run, i);
    var u, a := StepAt(run, i);
    SeenWasLive(run, i, t);
    assert u == t && PcOk(run[i], run[i].threads[t]);
    assert Inflight(run[i].threads[t].current) <= MAX_INFLIGHT;
  }

  /** Inside a drain, which waits for its end or not. */
  predicate Drains(pc: Pc, waits: bool) {
    (pc.DrainLoaded? || pc.Notifying?) && pc.waits == waits
  }

  /** A drain goes on as it was called: when its loop is left the gate admits no more, and it waits if it was
      to wait and is over if it was not. */
  lemma DrainEndsAsCalled(run: seq<Proto>, i: nat, t: Tid, waits: bool)
    requires Run(run) && i + 1 < |run| && t in run[i].threads && Drains(run[i].threads[t], waits)
    ensures t in run[i + 1].threads
    ensures !Drains(run[i + 1].threads[t], waits) ==>
              && Decodable(run[i + 1].word) && State(run[i + 1].word) != Accepting
              && run[i + 1].threads[t] == if waits then WaitTop else Idle
  {
    RunInv(run, i);
    RunInv(run, i + 1);
    var u, a := StepAt(run, i);
    DrainStep(run[i], u, a, run[i + 1], t, waits);
  }

  lemma DrainStep(s: Proto, u: Tid, a: Step, n: Proto, t: Tid, waits: bool)
    requires Inv(s) && Inv(n) && NextStep(s, u, a, n) && t in s.threads && Drains(s.threads[t], waits)
    ensures t in n.threads
    ensures !Drains(n.threads[t], waits) ==> State(n.word) != Accepting && n.threads[t] == if waits then WaitTop else Idle
  {
    if u != t {
      assert n.threads[t] == s.threads[t];
    } else {
      LeavesDrain(s, t, a, n, waits);
      if a == DrainExchange { DrainCloses(s, t, n); } else { assert PcOk(s, s.threads[t]); }
    }
  }

  lemma DrainCloses(s: Proto, t: Tid, n: Proto)
    requires Inv(s) && NextStep(s, t, DrainExchange, n)
    ensures Decodable(n.word) && State(n.word) != Accepting
  {
    ExchangeStep(s, t, DrainExchange, n);
  }

  lemma LeavesDrain(s: Proto, t: Tid, a: Step, n: Proto, waits: bool)
    requires NextStep(s, t, a, n) && Drains(s.threads[t], waits)
    ensures t in n.threads && (a == DrainExchange || n.word == s.word)
    ensures !Drains(n.threads[t], waits) ==> n.threads[t] == (if waits then WaitTop else Idle) && !a.Retry?
    ensures !Drains(n.threads[t], waits) && a != DrainExchange ==>
              s.threads[t].Notifying? || (Decodable(s.threads[t].current) && State(s.threads[t].current) != Accepting)
  {
  }

  // ---- Refinement of the simple gate --------------------------------------------------------

  /** The gate without bits, counters and loops: a phase and the set of lease owners. */
  datatype SimpleGate = SimpleGate(state: ExecutionState, leases: set<Tid>)

  datatype SimpleStep = Stutter | Admit(t: Tid) | Close | Release(t: Tid)

  predicate SimpleNext(g: SimpleGate, a: SimpleStep, n: SimpleGate) {
    match a
    case Stutter => n == g
    case Admit(t) => g.state == Accepting && t !in g.leases && n == g.(leases := g.leases + {t})
    case Close => g.state == Accepting && n == g.(state := if g.leases == {} then Drained else Draining)
    case Release(t) =>
      && t in g.leases
      && var rest := g.leases - {t};
         n == SimpleGate(if g.state == Draining && rest == {} then Drained else g.state, rest)
  }

  ghost function Abstract(s: Proto): SimpleGate
    requires Decodable(s.word)
  {
    SimpleGate(State(s.word), Leases(s.threads))
  }

  /** Which abstract step a concrete one performs: only the winning exchanges do anything. */
  function Effect(t: Tid, a: Step): SimpleStep {
    match a
    case AcquireExchange => Admit(t)
    case DropExchange => Release(t)
    case DrainExchange => Close
    case _ => Stutter
  }

  lemma RefinesSimpleGate(s: Proto, t: Tid, a: Step, n: Proto)
    requires Inv(s) && NextStep(s, t, a, n)
    ensures Inv(n) && SimpleNext(Abstract(s), Effect(t, a), Abstract(n))
  {
    NextInv(s, t, a, n);
    MoveOne(s, t, a, n);
    if a.AcquireExchange? || a.DropExchange? || a.DrainExchange? {
      ExchangeStep(s, t, a, n);
      EmptySize(Leases(s.threads));
      EmptySize(Leases(n.threads));
    } else {
      LocalStep(s, t, a, n);
    }
  }

  lemma EmptySize(s: set<Tid>)
    ensures s == {} <==> |s| == 0
  {
  }

  /** The word a loop has in hand, if the thread is inside one. */
  predicate Stale(s: Proto, pc: Pc) {
    match pc
    case AcquireLoaded(current, _) => current != s.word
    case DropLoaded(current) => current != s.word
    case DrainLoaded(current, _) => current != s.word
    case _ => false
  }

  predicate CanStep(s: Proto, t: Tid, a: Step, n: Proto)
    requires t in s.threads
  {
    NextStep(s, t, a, n) && (a == Retry ==> Stale(s, s.threads[t]))
  }

  lemma LoopMoves(s: Proto, t: Tid) returns (a: Step, n: Proto)
    requires Inv(s) && t in s.threads
    requires s.threads[t].AcquireLoaded? || s.threads[t].DropLoaded? || s.threads[t].DrainLoaded?
    ensures CanStep(s, t, a, n)
  {
    var pc := s.threads[t];
    assert PcOk(s, pc);
    match pc {
      case AcquireLoaded(current, service) =>
        if Stale(s, pc) {
          a, n := Retry, At(s, t, AcquireLoaded(s.word, service));
        } else if State(current) != Accepting {
          a, n := AcquireReject, At(s, t, Idle);
        } else if Inflight(current) >= MAX_INFLIGHT {
          a, n := AcquireOverflow, At(s, t, Panicked(InflightOverflow));
        } else {
          a := AcquireExchange;
          n := At(s, t, if service then Counted else Holding(false)).(word := AcquireWord(current));
        }
      case DropLoaded(current) =>
        if Stale(s, pc) {
          a, n := Retry, At(s, t, DropLoaded(s.word));
        } else {
          var stored := DropWord(current);
          a := DropExchange;
          n := At(s, t, if stored % STATE_MODULUS == DRAINED then Notifying(false) else Idle).(word := stored);
        }
      case DrainLoaded(current, waits) =>
        if Stale(s, pc) {
          a, n := Retry, At(s, t, DrainLoaded(s.word, waits));
        } else if State(current) != Accepting {
          a, n := DrainSkip, At(s, t, AfterDrain(waits));
        } else {
          a := DrainExchange;
          n := At(s, t, if Inflight(current) == 0 then Notifying(waits) else AfterDrain(waits))
               .(word := DrainWord(current));
        }
    }
  }

  lemma LeaseMoves(s: Proto, t: Tid) returns (a: Step, n: Proto)
    requires Inv(s) && t in s.threads
    requires s.threads[t].Counted? || s.threads[t].Holding? || s.threads[t].Dropping?
    ensures CanStep(s, t, a, n)
  {
    var pc := s.threads[t];
    match pc {
      case Counted =>
        SubsetSize(Handles(s.threads), Leases(s.threads));
        a, n := CountHandle, At(s, t, Holding(true)).(handles := s.handles + 1);
      case Holding(service) =>
        if service { MemberSize(Handles(s.threads), t); }
        a, n := DropHandle, At(s, t, Dropping).(handles := if service then s.handles - 1 else s.handles);
      case Dropping => a, n := DropLoad, At(s, t, DropLoaded(s.word));
    }
  }

  lemma WaitMoves(s: Proto, t: Tid) returns (a: Step, n: Proto)
    requires Inv(s) && t in s.threads
    requires var pc := s.threads[t];
             pc.Idle? || pc.Notifying? || pc.WaitTop? || pc.Registered? || pc.Sleeping? || pc.Finished?
    requires s.threads[t].Sleeping? ==> State(s.word) == Drained && Notifiers(s.threads) == {}
    ensures CanStep(s, t, a, n)
  {
    var pc := s.threads[t];
    assert PcOk(s, pc);
    match pc {
      case Idle => a, n := AcquireLoad(false), At(s, t, AcquireLoaded(s.word, false));
      case Notifying(waits) => a, n := Notify, At(s, t, AfterDrain(waits)).(notified := s.notified + 1);
      case WaitTop => a, n := Register, At(s, t, Registered(s.notified));
      case Registered(seen) =>
        a := Check;
        n := At(s, t, if Inflight(s.word) == 0 then Finished(DrainedOutcome) else Sleeping(seen, Inflight(s.word)));
      case Sleeping(_, _) => a, n := Wake, At(s, t, WaitTop);
      case Finished(_) => a, n := Restart, At(s, t, Idle);
    }
  }

  /** No thread is ever stuck, and it needs another round of a loop only when a rival exchange
      moved the word: a sleeper sleeps only while the word is not drained or its one notifier
      is still to come. */
  lemma NeverStuck(s: Proto, t: Tid)
    requires Inv(s) && t in s.threads && !s.threads[t].Panicked?
    requires s.threads[t].Sleeping? ==> State(s.word) == Drained && Notifiers(s.threads) == {}
    ensures exists a, n :: CanStep(s, t, a, n)
  {
    var pc := s.threads[t];
    if pc.AcquireLoaded? || pc.DropLoaded? || pc.DrainLoaded? {
      var a, n := LoopMoves(s, t);
    } else if pc.Counted? || pc.Holding? || pc.Dropping? {
      var a, n := LeaseMoves(s, t);
    } else {
      var a, n := WaitMoves(s, t);
    }
  }
}
