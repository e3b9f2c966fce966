/** The client side of a hosted plugin process: requests register themselves in a table that the
    reader and the terminal transitions drain, all on one atomic state word.  Threads take the
    steps of `request`, `invoke`, `dispatch_response`, `transition_to_failed`,
    `transition_to_closed` and `wait_for_failure` one shared access at a time. */
module Session {
  import opened Wrappers

  type Tid = nat
  type Id = nat
  type Error = nat

  const MAX_ID: nat := 0xFFFF_FFFF_FFFF_FFFF
  const FUTURE_ID: Error := 0
  const CLOSED_PENDING: Error := 1

  datatype SessionState = Created | Handshaking | Ready | Draining | Closed | Failed

  predicate Terminal(state: SessionState) {
    state == Closed || state == Failed
  }

  datatype Answer = Reply | Refused(error: Error)

  /** How the peer's message fits the live request. */
  datatype Verdict = Accepted | Mismatch(error: Error) | TerminalFailure(error: Error)

  /** What the caller of a terminal transition does afterwards. */
  datatype After = Stop | SendError(id: Id, error: Error)

  datatype RequestPc =
    | Called | Checked | Permitted | Allocating | IdLoaded(seen: Id)
    | IdWon(id: Id) | IdIssued(id: Id) | Inserted(id: Id) | Sending(id: Id) | Waiting(id: Id)

  datatype EndPc = WantsError | HasError | Won | Unlocked | Drained

  datatype ObserverPc =
    | Looking | Unregistered | Registered(seen: nat) | Sleeping(seen: nat) | SawFailed | Found(found: Option<Error>)

  datatype Pc =
    | Idle
    // request and invoke; invoke checks the state once less and never waits for a permit
    | Requesting(required: SessionState, invoke: bool, r: RequestPc)
    | Leaving(id: Id, cancel: bool)
    | Left(id: Id, cancel: bool)
    | Releasing
    // dispatch_response
    | Received(id: Id, verdict: Verdict)
    | Judged(id: Id, verdict: Verdict)
    | Taken(id: Id, verdict: Verdict)
    | Answering(id: Id, answer: Answer)
    // transition_to_failed and transition_to_closed
    | Ending(target: SessionState, error: Error, after: After, e: EndPc)
    // wait_for_failure
    | Observing(o: ObserverPc)

  datatype Negotiation = Before | Forgot(limit: nat) | Settled | Broken

  /** The pending table, what has been sent to each waiting request, and the writer's queue. */
  datatype Table = Table(pending: map<Id, Tid>, answers: map<Id, seq<Answer>>, outbound: seq<Id>)

  datatype Ids = Ids(next: Id, highest: Id)

  datatype Permits = Permits(available: nat, limit: nat, negotiation: Negotiation)

  /** `drained` and `closer` are history: whether the table has been resolved, and the winner of
      the terminal exchange while it has not yet notified. */
  datatype End = End(state: SessionState, error: Option<Error>, errorLock: Option<Tid>,
                     drained: bool, closer: Option<Tid>, notified: nat)

  datatype Session = Session(end: End, table: Table, ids: Ids, permits: Permits, threads: map<Tid, Pc>)

  predicate Init(s: Session) {
    && s.end == End(Created, None, None, false, None, 0)
    && s.table == Table(map[], map[], [])
    && s.ids == Ids(1, 0)
    && s.permits == Permits(s.permits.limit, s.permits.limit, Before)
    && forall t <- s.threads :: s.threads[t] == Idle
  }

  function At(s: Session, t: Tid, pc: Pc): Session {
    s.(threads := s.threads[t := pc])
  }

  function AnswersTo(table: Table, id: Id): seq<Answer> {
    if id in table.answers then table.answers[id] else []
  }

  function Enter(table: Table, id: Id, t: Tid): Table {
    table.(pending := table.pending[id := t])
  }

  function Remove(table: Table, id: Id): Table {
    table.(pending := table.pending - {id})
  }

  function Enqueue(table: Table, id: Id): Table {
    table.(outbound := table.outbound + [id])
  }

  function Deliver(table: Table, id: Id, answer: Answer): Table {
    table.(answers := table.answers[id := AnswersTo(table, id) + [answer]])
  }

  /** The table is drained in one lock section; every entry is answered with the error. */
  function Resolve(table: Table, error: Error): Table {
    table.(pending := map[],
           answers := map id | id in table.answers.Keys + table.pending.Keys ::
                        if id in table.pending then AnswersTo(table, id) + [Refused(error)] else table.answers[id])
  }

  function Min(a: nat, b: nat): nat {
    if a < b then a else b
  }

  function Max(a: nat, b: nat): nat {
    if a < b then b else a
  }

  function Continue(after: After): Pc {
    match after
    case Stop => Idle
    case SendError(id, error) => Answering(id, Refused(error))
  }

  // ---- request and invoke -------------------------------------------------------------------

  /** Up to the request id. */
  datatype AdmitStep =
    | Call(required: SessionState, invoke: bool) | CheckState | AcquirePermit | NoPermit | CheckAgain
    | LoadId | ExchangeId | IssueId

  predicate NextAdmit(s: Session, t: Tid, a: AdmitStep, n: Session) {
    t in s.threads &&
    match s.threads[t]
    case Idle =>
      && a.Call? && (if a.invoke then a.required == Ready else a.required in {Handshaking, Ready, Draining})
      && n == At(s, t, Requesting(a.required, a.invoke, Called))
    case Requesting(required, invoke, r) =>
      (match r
       case Called =>
         a == CheckState && n == At(s, t, if s.end.state == required then Requesting(required, invoke, Checked) else Idle)
       case Checked =>
         // An invocation never waits for capacity; a request that waits may be dropped.
         || (&& a == AcquirePermit && s.permits.available > 0
             && n == At(s, t, Requesting(required, invoke, if invoke then Allocating else Permitted))
                     .(permits := s.permits.(available := s.permits.available - 1)))
         || (a == NoPermit && (invoke ==> s.permits.available == 0) && n == At(s, t, Idle))
       case Permitted =>
         && a == CheckAgain
         && n == At(s, t, if s.end.state == required then Requesting(required, invoke, Allocating) else Releasing)
       case Allocating =>
         a == LoadId && n == At(s, t, Requesting(required, invoke, IdLoaded(s.ids.next)))
       case IdLoaded(seen) =>
         || (a == LoadId && n == At(s, t, Requesting(required, invoke, IdLoaded(s.ids.next))))  // a failed exchange
         || (a == ExchangeId && (seen == 0 || seen == MAX_ID) && n == At(s, t, Releasing))
         || (&& a == ExchangeId && seen != 0 && seen != MAX_ID && s.ids.next == seen
             && n == At(s, t, Requesting(required, invoke, IdWon(seen))).(ids := s.ids.(next := seen + 1)))
       case IdWon(id) =>
         && a == IssueId
         && n == At(s, t, Requesting(required, invoke, IdIssued(id))).(ids := s.ids.(highest := Max(s.ids.highest, id)))
       case _ => false)
    case _ => false
  }

  /** From the pending table to the released permit. */
  datatype WaitStep = Insert | Recheck | Send | SendFails | Receive | Abandon | Withdraw | Cancel | Release

  predicate NextWait(s: Session, t: Tid, a: WaitStep, n: Session) {
    t in s.threads &&
    match s.threads[t]
    case Requesting(required, invoke, r) =>
      (match r
       case IdIssued(id) =>
         a == Insert && n == At(s, t, Requesting(required, invoke, Inserted(id))).(table := Enter(s.table, id, t))
       case Inserted(id) =>
         && a == Recheck
         && n == At(s, t, if s.end.state == required then Requesting(required, invoke, Sending(id)) else Leaving(id, false))
       case Sending(id) =>
         || (a == Send && n == At(s, t, Requesting(required, invoke, Waiting(id))).(table := Enqueue(s.table, id)))
         || (a == SendFails && n == At(s, t, Leaving(id, false)))
       case Waiting(id) =>
         || (a == Receive && AnswersTo(s.table, id) != [] && n == At(s, t, Releasing))
         || (a == Abandon && n == At(s, t, Leaving(id, invoke)))
       case _ => false)
    case Leaving(id, cancel) =>
      a == Withdraw && n == At(s, t, Left(id, cancel)).(table := Remove(s.table, id))
    case Left(id, cancel) =>
      && a == Cancel
      && (|| n == At(s, t, Releasing)
          || (cancel && (s.end.state == Ready || s.end.state == Draining)
              && n == At(s, t, Releasing).(table := Enqueue(s.table, id))))
    case Releasing =>
      a == Release && n == At(s, t, Idle).(permits := s.permits.(available := s.permits.available + 1))
    case _ => false
  }

  // ---- dispatch_response ----------------------------------------------------------------------

  datatype ReplyStep = Arrive(id: Id, verdict: Verdict) | JudgeId | TakeSender | Decide | Respond

  predicate NextReply(s: Session, t: Tid, a: ReplyStep, n: Session) {
    t in s.threads &&
    match s.threads[t]
    case Idle => a.Arrive? && a.id <= MAX_ID && n == At(s, t, Received(a.id, a.verdict))
    case Received(id, verdict) =>
      && a == JudgeId
      && n == At(s, t, if id > s.ids.highest then Ending(Failed, FUTURE_ID, Stop, WantsError) else Judged(id, verdict))
    case Judged(id, verdict) =>
      && a == TakeSender
      && n == if id !in s.table.pending then At(s, t, Idle) else At(s, t, Taken(id, verdict)).(table := Remove(s.table, id))
    case Taken(id, verdict) =>
      && a == Decide
      && n == At(s, t, match verdict
                       case Accepted => Answering(id, Reply)
                       case Mismatch(error) => Ending(Failed, error, SendError(id, error), WantsError)
                       case TerminalFailure(error) => Ending(Failed, error, SendError(id, error), WantsError))
    case Answering(id, answer) => a == Respond && n == At(s, t, Idle).(table := Deliver(s.table, id, answer))
    case _ => false
  }

  // ---- transition_to_failed and transition_to_closed ------------------------------------------

  datatype EndStep = Fail(error: Error) | Close | LockError | Exchange | Unlock | Drain | Notify

  predicate NextEnd(s: Session, t: Tid, a: EndStep, n: Session) {
    t in s.threads &&
    match s.threads[t]
    case Idle =>
      || (a.Fail? && n == At(s, t, Ending(Failed, a.error, Stop, WantsError)))
      || (a == Close && n == At(s, t, Ending(Closed, CLOSED_PENDING, Stop, WantsError)))
    case Ending(target, error, after, e) =>
      (match e
       case WantsError =>
         && a == LockError && s.end.errorLock == None
         && n == At(s, t, Ending(target, error, after, HasError)).(end := s.end.(errorLock := Some(t)))
       case HasError =>
         && a == Exchange
         && n == if Terminal(s.end.state) then At(s, t, Continue(after)).(end := s.end.(errorLock := None))
                 else At(s, t, Ending(target, error, after, Won)).(end := s.end.(state := target, closer := Some(t)))
       case Won =>
         && a == Unlock
         && n == At(s, t, Ending(target, error, after, Unlocked))
                 .(end := s.end.(error := if target == Failed then Some(error) else s.end.error, errorLock := None))
       case Unlocked => a == Drain && n == At(s, t, Ending(target, error, after, Drained))
                           .(table := Resolve(s.table, error), end := s.end.(drained := true))
       case Drained => a == Notify && n == At(s, t, Continue(after)).(end := s.end.(notified := s.end.notified + 1, closer := None)))
    case _ => false
  }

  // ---- wait_for_failure ------------------------------------------------------------------------

  datatype ObserverStep = Observe | CheckTerminal | Register | CheckRegistered | Wake | ReadError | Finish

  predicate NextObserver(s: Session, t: Tid, a: ObserverStep, n: Session) {
    t in s.threads &&
    match s.threads[t]
    case Idle => a == Observe && n == At(s, t, Observing(Looking))
    case Observing(o) =>
      (match o
       case Looking =>
         && a == CheckTerminal
         && n == At(s, t, Observing(if s.end.state == Failed then SawFailed else if s.end.state == Closed then Found(None)
                                    else Unregistered))
       case Unregistered => a == Register && n == At(s, t, Observing(Registered(s.end.notified)))
       case Registered(seen) =>
         && a == CheckRegistered
         && n == At(s, t, Observing(if s.end.state == Failed then SawFailed else if s.end.state == Closed then Found(None)
                                    else Sleeping(seen)))
       case Sleeping(seen) => a == Wake && s.end.notified > seen && n == At(s, t, Observing(Looking))
       case SawFailed => a == ReadError && s.end.errorLock == None && n == At(s, t, Observing(Found(s.end.error)))
       case Found(_) => a == Finish && n == At(s, t, Idle))
    case _ => false
  }

  // ---- transition and apply_negotiated -----------------------------------------------------------

  datatype ControlStep = Advance(to: SessionState) | Forget(limit: nat) | WriteLimit

  predicate NextControl(s: Session, a: ControlStep, n: Session) {
    match a
    case Advance(to) =>
      && (|| (s.end.state == Created && to == Handshaking) || (s.end.state == Handshaking && to == Ready)
          || (s.end.state == Ready && to == Draining))
      && n == s.(end := s.end.(state := to))
    case Forget(limit) =>
      && s.permits.negotiation == Before && 0 < limit <= s.permits.limit
      && var shrink := s.permits.limit - limit;
         n == s.(permits := Permits(s.permits.available - Min(s.permits.available, shrink), s.permits.limit,
                                    if s.permits.available >= shrink then Forgot(limit) else Broken))
    case WriteLimit =>
      && s.permits.negotiation.Forgot?
      && n == s.(permits := s.permits.(limit := s.permits.negotiation.limit, negotiation := Settled))
  }

  datatype Step = OfAdmit(m: AdmitStep) | OfWait(w: WaitStep) | OfReply(p: ReplyStep) | OfEnd(e: EndStep) | OfObserver(o: ObserverStep)
                | OfControl(c: ControlStep)

  predicate NextStep(s: Session, t: Tid, a: Step, n: Session) {
    match a
    case OfAdmit(m) => NextAdmit(s, t, m, n)
    case OfWait(w) => NextWait(s, t, w, n)
    case OfReply(p) => NextReply(s, t, p, n)
    case OfEnd(e) => NextEnd(s, t, e, n)
    case OfObserver(o) => NextObserver(s, t, o, n)
    case OfControl(c) => NextControl(s, c, n)
  }

  ghost predicate Next(s: Session, n: Session) {
    exists t, a :: NextStep(s, t, a, n)
  }

  ghost predicate Linked(run: seq<Session>, i: nat) {
    i + 1 < |run| ==> Next(run[i], run[i + 1])
  }

  ghost predicate Run(run: seq<Session>) {
    |run| > 0 && Init(run[0]) && forall i :: Linked(run, i)
  }

  lemma StepAt(run: seq<Session>, i: nat) returns (t: Tid, a: Step)
    requires Run(run) && i + 1 < |run|
    ensures NextStep(run[i], t, a, run[i + 1])
  {
    assert Linked(run, i);
    t, a :| NextStep(run[i], t, a, run[i + 1]);
  }

  /** A step moves the thread that takes it and no other. */
  predicate Moves(s: Session, t: Tid, n: Session) {
    && n.threads.Keys == s.threads.Keys
    && forall u <- s.threads :: u != t ==> n.threads[u] == s.threads[u]
  }

  lemma OnlyMover(s: Session, t: Tid, a: Step, n: Session)
    requires NextStep(s, t, a, n)
    ensures Moves(s, t, n) && (!a.OfControl? ==> t in s.threads)
  {
    match a {
      case OfAdmit(m) => assert NextAdmit(s, t, m, n);
      case OfWait(w) => assert NextWait(s, t, w, n);
      case OfReply(p) => assert NextReply(s, t, p, n);
      case OfEnd(e) => assert NextEnd(s, t, e, n);
      case OfObserver(o) => assert NextObserver(s, t, o, n);
      case OfControl(c) => assert NextControl(s, c, n);
    }
  }

  // ---- Request ids --------------------------------------------------------------------------

  /** The id a request has won, until the request is over. */
  function OwnId(pc: Pc): Option<Id> {
    match pc
    case Requesting(_, _, r) =>
      if r.IdWon? || r.IdIssued? || r.Inserted? || r.Sending? || r.Waiting? then Some(r.id) else None
    case Leaving(id, _) => Some(id)
    case Left(id, _) => Some(id)
    case _ => None
  }

  predicate IdOk(ids: Ids, pc: Pc) {
    && (pc.Requesting? && pc.r.IdLoaded? ==> 1 <= pc.r.seen <= ids.next)
    && (OwnId(pc).Some? ==> 1 <= OwnId(pc).value < ids.next)
    && (OwnId(pc).Some? && !(pc.Requesting? && pc.r.IdWon?) ==> OwnId(pc).value <= ids.highest)
  }

  predicate Counters(ids: Ids) {
    1 <= ids.next <= MAX_ID && ids.highest < ids.next
  }

  ghost predicate IdsInv(s: Session) {
    && Counters(s.ids)
    && (forall t <- s.threads :: IdOk(s.ids, s.threads[t]))
    && (forall t, u :: t in s.threads && u in s.threads && t != u && OwnId(s.threads[t]).Some? ==>
          OwnId(s.threads[t]) != OwnId(s.threads[u]))
    && (forall id <- s.table.pending :: 1 <= id <= s.ids.highest)
    && (forall id <- s.table.outbound :: 1 <= id <= s.ids.highest)
  }

  /** The id a step works with. */
  function IdOf(pc: Pc): Id {
    if OwnId(pc).Some? then OwnId(pc).value else 0
  }

  lemma IdsAdmit(s: Session, t: Tid, a: AdmitStep, n: Session)
    requires Counters(s.ids) && NextAdmit(s, t, a, n) && IdOk(s.ids, s.threads[t])
    ensures Counters(n.ids) && s.ids.next <= n.ids.next && s.ids.highest <= n.ids.highest && IdOk(n.ids, n.threads[t])
    ensures var own := OwnId(n.threads[t]);
            own == OwnId(s.threads[t]) || (own == Some(s.ids.next) && n.ids.next == s.ids.next + 1)
    ensures n.table == s.table && n.end == s.end
  {
  }

  lemma IdsWait(s: Session, t: Tid, a: WaitStep, n: Session)
    requires NextWait(s, t, a, n) && IdOk(s.ids, s.threads[t])
    ensures n.ids == s.ids && IdOk(n.ids, n.threads[t])
    ensures OwnId(n.threads[t]) == OwnId(s.threads[t]) || OwnId(n.threads[t]) == None
    ensures var id := IdOf(s.threads[t]);
            && (n.table == s.table || n.table == Enter(s.table, id, t) || n.table == Remove(s.table, id)
                || n.table == Enqueue(s.table, id))
            && (n.table != s.table ==> 1 <= id <= s.ids.highest)
    ensures n.end == s.end
  {
  }

  lemma IdsReply(s: Session, t: Tid, a: ReplyStep, n: Session)
    requires NextReply(s, t, a, n)
    ensures n.ids == s.ids && n.end == s.end && OwnId(n.threads[t]) == None && IdOk(n.ids, n.threads[t])
    ensures n.table.pending.Keys <= s.table.pending.Keys && n.table.outbound == s.table.outbound
  {
  }

  lemma IdsEnd(s: Session, t: Tid, a: EndStep, n: Session)
    requires NextEnd(s, t, a, n)
    ensures n.ids == s.ids && OwnId(n.threads[t]) == None && IdOk(n.ids, n.threads[t])
    ensures n.table.pending.Keys <= s.table.pending.Keys && n.table.outbound == s.table.outbound
  {
  }

  lemma IdsOthers(s: Session, t: Tid, n: Session)
    requires IdsInv(s) && Moves(s, t, n) && s.ids.next <= n.ids.next && s.ids.highest <= n.ids.highest
    requires t in s.threads ==>
               var own := OwnId(n.threads[t]);
               (own == OwnId(s.threads[t]) || own == None || own == Some(s.ids.next)) && IdOk(n.ids, n.threads[t])
    ensures forall u <- n.threads :: IdOk(n.ids, n.threads[u])
    ensures forall u, v :: u in n.threads && v in n.threads && u != v && OwnId(n.threads[u]).Some? ==>
              OwnId(n.threads[u]) != OwnId(n.threads[v])
  {
    forall u | u in n.threads ensures IdOk(n.ids, n.threads[u]) {
      assert IdOk(s.ids, s.threads[u]);
    }
    forall u, v | u in n.threads && v in n.threads && u != v && OwnId(n.threads[u]).Some?
      ensures OwnId(n.threads[u]) != OwnId(n.threads[v])
    {
      assert IdOk(s.ids, s.threads[u]) && IdOk(s.ids, s.threads[v]);
    }
  }

  /** What one step may do to the counters and to the sets of ids in use. */
  lemma IdsStep(s: Session, t: Tid, a: Step, n: Session)
    requires IdsInv(s) && NextStep(s, t, a, n)
    ensures Counters(n.ids) && s.ids.next <= n.ids.next && s.ids.highest <= n.ids.highest
    ensures t in s.threads && t in n.threads ==>
              var own := OwnId(n.threads[t]);
              (own == OwnId(s.threads[t]) || own == None || own == Some(s.ids.next)) && IdOk(n.ids, n.threads[t])
    ensures forall id <- n.table.pending :: 1 <= id <= n.ids.highest
    ensures forall id <- n.table.outbound :: 1 <= id <= n.ids.highest
  {
    if t in s.threads { assert IdOk(s.ids, s.threads[t]); }
    match a {
      case OfAdmit(m) => IdsAdmit(s, t, m, n);
      case OfWait(w) => IdsWait(s, t, w, n);
      case OfReply(p) => IdsReply(s, t, p, n);
      case OfEnd(e) => IdsEnd(s, t, e, n);
      case OfObserver(o) => ObserverFrame(s, t, o, n);
      case OfControl(c) => ControlFrame(s, c, n);
    }
  }

  lemma ObserverFrame(s: Session, t: Tid, a: ObserverStep, n: Session)
    requires NextObserver(s, t, a, n)
    ensures n == s.(threads := n.threads) && (n.threads[t] == Idle || n.threads[t].Observing?)
  {
  }

  lemma ControlFrame(s: Session, a: ControlStep, n: Session)
    requires NextControl(s, a, n)
    ensures n == s.(end := n.end, permits := n.permits) && (n.end != s.end ==> n.permits == s.permits)
  {
  }

  lemma IdsNext(s: Session, t: Tid, a: Step, n: Session)
    requires IdsInv(s) && NextStep(s, t, a, n)
    ensures IdsInv(n)
  {
    OnlyMover(s, t, a, n);
    IdsStep(s, t, a, n);
    IdsOthers(s, t, n);
  }

  // ---- Terminal state -----------------------------------------------------------------------

  predicate EndOk(end: End, t: Tid, pc: Pc) {
    match pc
    case Requesting(required, _, _) => !Terminal(required)
    case Ending(target, error, _, e) =>
      Terminal(target) && (target == Closed ==> error == CLOSED_PENDING) &&
      (match e
       case WantsError => true
       case HasError => end.errorLock == Some(t)
       case Won => end.errorLock == Some(t) && end.state == target && end.closer == Some(t) && !end.drained && end.error == None
       case Unlocked => end.state == target && end.closer == Some(t) && !end.drained && (target == Failed ==> end.error == Some(error))
       case Drained => end.state == target && end.closer == Some(t) && end.drained)
    case Observing(o) =>
      (match o
       case Registered(seen) => seen <= end.notified
       case Sleeping(seen) => seen == 0
       case SawFailed => end.state == Failed
       case Found(found) => if found == None then end.state == Closed else end.state == Failed && end.error == found
       case _ => true)
    case _ => true
  }

  predicate LocksError(pc: Pc) {
    pc.Ending? && (pc.e.HasError? || pc.e.Won?)
  }

  predicate Closes(pc: Pc) {
    pc.Ending? && (pc.e.Won? || pc.e.Unlocked? || pc.e.Drained?)
  }

  predicate EndShared(end: End, threads: map<Tid, Pc>) {
    && (end.errorLock.Some? ==> end.errorLock.value in threads && LocksError(threads[end.errorLock.value]))
    && (end.closer.Some? ==> end.closer.value in threads && Closes(threads[end.closer.value]))
    && (if Terminal(end.state) then end.notified == (if end.closer.Some? then 0 else 1) && (end.closer == None ==> end.drained)
        else end.closer == None && end.notified == 0 && !end.drained)
    && (end.error.Some? ==> end.state == Failed)
    && (end.state == Failed && end.error == None ==> end.errorLock.Some? && threads[end.errorLock.value].e.Won?)
  }

  ghost predicate EndInv(s: Session) {
    EndShared(s.end, s.threads) && forall t <- s.threads :: EndOk(s.end, t, s.threads[t])
  }

  lemma EndOther(s: Session, t: Tid, a: EndStep, n: Session, u: Tid)
    requires EndShared(s.end, s.threads) && NextEnd(s, t, a, n) && u in s.threads && u != t
    requires EndOk(s.end, u, s.threads[u]) && EndOk(s.end, t, s.threads[t])
    ensures EndOk(n.end, u, s.threads[u])
  {
  }

  lemma EndMove(s: Session, t: Tid, a: EndStep, n: Session)
    requires EndShared(s.end, s.threads) && NextEnd(s, t, a, n) && EndOk(s.end, t, s.threads[t])
    ensures EndShared(n.end, n.threads) && EndOk(n.end, t, n.threads[t])
  {
  }

  lemma EndAdmit(s: Session, t: Tid, a: AdmitStep, n: Session)
    requires NextAdmit(s, t, a, n) && EndOk(s.end, t, s.threads[t])
    ensures n.end == s.end && EndOk(n.end, t, n.threads[t]) && !s.threads[t].Ending? && !n.threads[t].Ending?
  {
  }

  lemma EndWait(s: Session, t: Tid, a: WaitStep, n: Session)
    requires NextWait(s, t, a, n) && EndOk(s.end, t, s.threads[t])
    ensures n.end == s.end && EndOk(n.end, t, n.threads[t]) && !s.threads[t].Ending? && !n.threads[t].Ending?
  {
  }

  lemma EndReply(s: Session, t: Tid, a: ReplyStep, n: Session)
    requires NextReply(s, t, a, n)
    ensures n.end == s.end && EndOk(n.end, t, n.threads[t]) && !s.threads[t].Ending?
    ensures !LocksError(n.threads[t]) && !Closes(n.threads[t])
  {
  }

  lemma EndObserver(s: Session, t: Tid, a: ObserverStep, n: Session)
    requires NextObserver(s, t, a, n) && EndOk(s.end, t, s.threads[t]) && EndShared(s.end, s.threads)
    ensures n.end == s.end && EndOk(n.end, t, n.threads[t]) && !s.threads[t].Ending? && !n.threads[t].Ending?
  {
  }

  /** A thread outside the terminal transitions changes nothing of theirs. */
  lemma EndQuiet(s: Session, t: Tid, n: Session)
    requires EndInv(s) && Moves(s, t, n) && n.end == s.end && t in s.threads && EndOk(n.end, t, n.threads[t])
    requires !LocksError(s.threads[t]) && !Closes(s.threads[t])
    ensures EndInv(n)
  {
    forall u | u in n.threads ensures EndOk(n.end, u, n.threads[u]) {
      assert EndOk(s.end, u, s.threads[u]);
    }
  }

  lemma EndEnding(s: Session, t: Tid, a: EndStep, n: Session)
    requires EndInv(s) && NextEnd(s, t, a, n) && Moves(s, t, n)
    ensures EndInv(n)
  {
    assert EndOk(s.end, t, s.threads[t]);
    EndMove(s, t, a, n);
    forall u | u in n.threads && u != t ensures EndOk(n.end, u, n.threads[u]) {
      assert EndOk(s.end, u, s.threads[u]);
      EndOther(s, t, a, n, u);
    }
  }

  lemma EndControl(s: Session, a: ControlStep, n: Session)
    requires EndInv(s) && NextControl(s, a, n)
    ensures EndInv(n)
  {
    ControlFrame(s, a, n);
    forall u | u in n.threads ensures EndOk(n.end, u, n.threads[u]) {
      assert EndOk(s.end, u, s.threads[u]);
    }
  }

  lemma EndNext(s: Session, t: Tid, a: Step, n: Session)
    requires EndInv(s) && NextStep(s, t, a, n)
    ensures EndInv(n)
  {
    OnlyMover(s, t, a, n);
    if t in s.threads { assert EndOk(s.end, t, s.threads[t]); }
    match a {
      case OfAdmit(m) => EndAdmit(s, t, m, n); EndQuiet(s, t, n);
      case OfWait(w) => EndWait(s, t, w, n); EndQuiet(s, t, n);
      case OfReply(p) => EndReply(s, t, p, n); EndQuiet(s, t, n);
      case OfEnd(e) => EndEnding(s, t, e, n);
      case OfObserver(o) => EndObserver(s, t, o, n); EndQuiet(s, t, n);
      case OfControl(c) => EndControl(s, c, n);
    }
  }

  // ---- The pending table --------------------------------------------------------------------

  /** The id whose sender this thread has taken out of the table and will use. */
  function HeldId(pc: Pc): Option<Id> {
    match pc
    case Taken(id, _) => Some(id)
    case Answering(id, _) => Some(id)
    case Ending(_, _, after, _) => if after.SendError? then Some(after.id) else None
    case _ => None
  }

  ghost predicate Held(threads: map<Tid, Pc>, id: Id) {
    exists u :: u in threads && HeldId(threads[u]) == Some(id)
  }

  /** The request can still be answered, or has been. */
  ghost predicate Placed(s: Session, id: Id) {
    id in s.table.pending || AnswersTo(s.table, id) != [] || Held(s.threads, id)
  }

  /** Won, but not yet in the table. */
  predicate Fresh(pc: Pc) {
    pc.Requesting? && (pc.r.IdWon? || pc.r.IdIssued?)
  }

  /** Registered, and past the re-check of the state. */
  predicate Committed(pc: Pc) {
    pc.Requesting? && (pc.r.Sending? || pc.r.Waiting?)
  }

  predicate JustInserted(pc: Pc) {
    pc.Requesting? && pc.r.Inserted?
  }

  ghost predicate TableOk(s: Session, pc: Pc) {
    && (Fresh(pc) ==> pc.r.id !in s.table.pending && AnswersTo(s.table, pc.r.id) == [] && !Held(s.threads, pc.r.id))
    && (JustInserted(pc) || Committed(pc) ==> Placed(s, pc.r.id))
    && (Committed(pc) && s.end.drained ==> pc.r.id !in s.table.pending)
    && (pc.Left? ==> pc.id !in s.table.pending)
    && (HeldId(pc).Some? ==> var id := HeldId(pc).value;
                             id < s.ids.next && id !in s.table.pending && AnswersTo(s.table, id) == [])
  }

  /** The receiver's side of a pending entry. */
  predicate Receives(threads: map<Tid, Pc>, id: Id, t: Tid) {
    && t in threads && OwnId(threads[t]) == Some(id)
    && (JustInserted(threads[t]) || Committed(threads[t]) || threads[t].Leaving?)
  }

  ghost predicate Entries(s: Session) {
    && (forall id <- s.table.pending :: Receives(s.threads, id, s.table.pending[id]) && AnswersTo(s.table, id) == [])
    && (forall id <- s.table.answers :: id < s.ids.next && |s.table.answers[id]| <= 1)
  }

  ghost predicate Holders(threads: map<Tid, Pc>) {
    forall t, u :: t in threads && u in threads && t != u && HeldId(threads[t]).Some? ==>
      HeldId(threads[t]) != HeldId(threads[u])
  }

  ghost predicate TableInv(s: Session) {
    && (forall t <- s.threads :: TableOk(s, s.threads[t]))
    && Entries(s)
    && Holders(s.threads)
  }

  lemma HoldersKept(s: Session, t: Tid, n: Session)
    requires Holders(s.threads) && Moves(s, t, n)
    requires t in s.threads ==> HeldId(n.threads[t]) == HeldId(s.threads[t]) || HeldId(n.threads[t]) == None
    ensures Holders(n.threads)
  {
    forall u, v | u in n.threads && v in n.threads && u != v && HeldId(n.threads[u]).Some?
      ensures HeldId(n.threads[u]) != HeldId(n.threads[v])
    {
      assert HeldId(s.threads[u]) != HeldId(s.threads[v]);
    }
  }

  predicate SameEntries(s: Session, n: Session) {
    && n.table.pending == s.table.pending && n.table.answers == s.table.answers
    && n.end.drained == s.end.drained && s.ids.next <= n.ids.next
  }

  /** A step that leaves the table alone keeps it, if it keeps the mover's own part. */
  lemma TableQuiet(s: Session, t: Tid, n: Session)
    requires TableInv(s) && Moves(s, t, n) && SameEntries(s, n)
    requires t in s.threads ==> HeldId(n.threads[t]) == HeldId(s.threads[t])
    requires t in s.threads && (forall id: Id :: Held(n.threads, id) == Held(s.threads, id)) ==> TableOk(n, n.threads[t])
    requires forall id <- s.table.pending :: s.table.pending[id] == t ==> Receives(n.threads, id, t)
    ensures TableInv(n)
  {
    SameHeld(s, t, n);
    forall u | u in n.threads ensures TableOk(n, n.threads[u]) {
      if u != t {
        assert TableOk(s, s.threads[u]);
        SameTableOk(s, n, s.threads[u]);
      }
    }
    forall id | id in n.table.pending ensures Receives(n.threads, id, n.table.pending[id]) {
      assert Receives(s.threads, id, s.table.pending[id]);
    }
    HoldersKept(s, t, n);
  }

  lemma SameTableOk(s: Session, n: Session, pc: Pc)
    requires TableOk(s, pc) && SameEntries(s, n)
    requires forall id: Id :: Held(n.threads, id) == Held(s.threads, id)
    ensures TableOk(n, pc)
  {
    if Fresh(pc) || JustInserted(pc) || Committed(pc) {
      assert Held(n.threads, pc.r.id) == Held(s.threads, pc.r.id);
    }
  }

  lemma SameHeld(s: Session, t: Tid, n: Session)
    requires Moves(s, t, n) && (t in s.threads ==> HeldId(n.threads[t]) == HeldId(s.threads[t]))
    ensures forall id: Id :: Held(n.threads, id) == Held(s.threads, id)
  {
    forall id: Id ensures Held(n.threads, id) == Held(s.threads, id) {
      if u :| u in s.threads && HeldId(s.threads[u]) == Some(id) { assert HeldId(n.threads[u]) == Some(id); }
      if u :| u in n.threads && HeldId(n.threads[u]) == Some(id) { assert HeldId(s.threads[u]) == Some(id); }
    }
  }

  /** Nobody has heard of the next id. */
  lemma FreshId(s: Session)
    requires IdsInv(s) && TableInv(s)
    ensures s.ids.next !in s.table.pending && AnswersTo(s.table, s.ids.next) == [] && !Held(s.threads, s.ids.next)
  {
    forall u | u in s.threads ensures HeldId(s.threads[u]) != Some(s.ids.next) {
      assert TableOk(s, s.threads[u]);
    }
  }

  lemma AdmitFrame(s: Session, t: Tid, a: AdmitStep, n: Session)
    requires NextAdmit(s, t, a, n)
    ensures n.table == s.table && n.end == s.end && s.ids.next <= n.ids.next
    ensures var pc, qc := s.threads[t], n.threads[t];
            && HeldId(pc) == None && HeldId(qc) == None && !JustInserted(qc) && !Committed(qc) && !qc.Left?
            && !JustInserted(pc) && !Committed(pc) && !pc.Leaving?
            && (Fresh(qc) ==> (Fresh(pc) && pc.r.id == qc.r.id) || qc.r.id == s.ids.next)
  {
  }

  lemma TableAdmit(s: Session, t: Tid, a: AdmitStep, n: Session)
    requires IdsInv(s) && TableInv(s) && NextAdmit(s, t, a, n) && Moves(s, t, n)
    ensures TableInv(n)
  {
    AdmitFrame(s, t, a, n);
    assert TableOk(s, s.threads[t]);
    FreshId(s);
    NotAReceiver(s, t);
    TableQuiet(s, t, n);
  }

  /** The owner of an entry is one of three kinds of thread. */
  lemma NotAReceiver(s: Session, t: Tid)
    requires TableInv(s) && t in s.threads
    requires !JustInserted(s.threads[t]) && !Committed(s.threads[t]) && !s.threads[t].Leaving?
    ensures forall id <- s.table.pending :: s.table.pending[id] != t
  {
    forall id | id in s.table.pending ensures s.table.pending[id] != t {
      assert Receives(s.threads, id, s.table.pending[id]);
    }
  }

  predicate MovesEntry(a: WaitStep) {
    a == Insert || a == Withdraw
  }

  lemma WaitFrame(s: Session, t: Tid, a: WaitStep, n: Session)
    requires NextWait(s, t, a, n)
    ensures HeldId(s.threads[t]) == None && HeldId(n.threads[t]) == None && n.end == s.end && n.ids == s.ids
    ensures !Fresh(n.threads[t])
    ensures !MovesEntry(a) ==> SameEntries(s, n)
  {
  }

  lemma TableWaitQuiet(s: Session, t: Tid, a: WaitStep, n: Session)
    requires EndInv(s) && TableInv(s) && NextWait(s, t, a, n) && Moves(s, t, n) && !MovesEntry(a)
    ensures TableInv(n)
  {
    WaitFrame(s, t, a, n);
    assert TableOk(s, s.threads[t]) && EndOk(s.end, t, s.threads[t]);
    forall id | id in s.table.pending && s.table.pending[id] == t ensures Receives(n.threads, id, t) {
      assert Receives(s.threads, id, t);
    }
    TableQuiet(s, t, n);
  }

  lemma InsertOthers(s: Session, t: Tid, n: Session)
    requires IdsInv(s) && TableInv(s) && NextWait(s, t, Insert, n) && Moves(s, t, n)
    requires forall id: Id :: Held(n.threads, id) == Held(s.threads, id)
    ensures forall u <- n.threads :: u != t ==> TableOk(n, n.threads[u])
  {
    WaitFrame(s, t, Insert, n);
    var id := s.threads[t].r.id;
    assert TableOk(s, s.threads[t]);
    forall u | u in n.threads && u != t ensures TableOk(n, n.threads[u]) {
      assert TableOk(s, s.threads[u]) && OwnId(s.threads[u]) != Some(id) && !(HeldId(s.threads[u]) == Some(id));
      OtherEntry(s, n, s.threads[u], id);
    }
  }

  lemma TableInsert(s: Session, t: Tid, n: Session)
    requires IdsInv(s) && TableInv(s) && NextWait(s, t, Insert, n) && Moves(s, t, n)
    ensures TableInv(n)
  {
    WaitFrame(s, t, Insert, n);
    SameHeld(s, t, n);
    var id := s.threads[t].r.id;
    assert TableOk(s, s.threads[t]);
    InsertOthers(s, t, n);
    NotAReceiver(s, t);
    forall k | k in n.table.pending ensures Receives(n.threads, k, n.table.pending[k]) && AnswersTo(n.table, k) == [] {
      if k != id { assert Receives(s.threads, k, s.table.pending[k]); }
    }
    HoldersKept(s, t, n);
  }

  /** Entering or removing one entry does not concern threads with other ids. */
  lemma OtherEntry(s: Session, n: Session, pc: Pc, id: Id)
    requires TableOk(s, pc) && OwnId(pc) != Some(id)
    requires n.table.answers == s.table.answers && n.end.drained == s.end.drained && n.ids == s.ids
    requires n.table.pending - {id} == s.table.pending - {id}
    requires id in n.table.pending ==> HeldId(pc) != Some(id)
    requires forall k: Id :: k != id ==> Held(n.threads, k) == Held(s.threads, k)
    ensures TableOk(n, pc)
  {
    assert forall k :: k != id ==> (k in s.table.pending - {id} <==> k in n.table.pending - {id});
    if OwnId(pc).Some? {
      var own := OwnId(pc).value;
      assert (own in s.table.pending - {id} <==> own in n.table.pending - {id}) && Held(n.threads, own) == Held(s.threads, own);
    }
    if HeldId(pc).Some? && HeldId(pc) != Some(id) {
      var held := HeldId(pc).value;
      assert held in s.table.pending - {id} <==> held in n.table.pending - {id};
    }
  }

  lemma TableWithdraw(s: Session, t: Tid, n: Session)
    requires IdsInv(s) && TableInv(s) && NextWait(s, t, Withdraw, n) && Moves(s, t, n)
    ensures TableInv(n)
  {
    WaitFrame(s, t, Withdraw, n);
    SameHeld(s, t, n);
    var id := s.threads[t].id;
    assert OwnId(s.threads[t]) == Some(id) && TableOk(s, s.threads[t]);
    forall u | u in n.threads && u != t ensures TableOk(n, n.threads[u]) {
      assert TableOk(s, s.threads[u]) && OwnId(s.threads[u]) != Some(id);
      OtherEntry(s, n, s.threads[u], id);
    }
    forall k | k in n.table.pending ensures Receives(n.threads, k, n.table.pending[k]) && AnswersTo(n.table, k) == [] {
      assert Receives(s.threads, k, s.table.pending[k]);
    }
    HoldersKept(s, t, n);
  }

  // ---- Replies and the drained table

  lemma TakenOk(s: Session, t: Tid, n: Session, u: Tid)
    requires IdsInv(s) && TableInv(s) && NextReply(s, t, TakeSender, n) && Moves(s, t, n) && n.threads[t].Taken? && u in s.threads
    ensures TableOk(n, n.threads[u])
  {
    var id := s.threads[t].id;
    OneMoreHeld(s, t, n, id);
    assert TableOk(s, s.threads[u]);
    if u != t && OwnId(s.threads[u]) == Some(id) {
      assert Receives(s.threads, id, s.table.pending[id]) && s.table.pending[id] == u;
    } else if u != t {
      OtherEntry(s, n, s.threads[u], id);
    }
  }

  lemma HoldersTake(s: Session, t: Tid, n: Session)
    requires TableInv(s) && NextReply(s, t, TakeSender, n) && Moves(s, t, n) && n.threads[t].Taken?
    ensures Holders(n.threads)
  {
    forall u | u in n.threads && u != t ensures HeldId(n.threads[u]) != HeldId(n.threads[t]) {
      assert TableOk(s, s.threads[u]);
    }
  }

  lemma TableTake(s: Session, t: Tid, n: Session)
    requires IdsInv(s) && TableInv(s) && NextReply(s, t, TakeSender, n) && Moves(s, t, n) && n.threads[t].Taken?
    ensures TableInv(n)
  {
    forall u | u in n.threads ensures TableOk(n, n.threads[u]) { TakenOk(s, t, n, u); }
    HoldersTake(s, t, n);
    assert Entries(n) by {
      NotAReceiver(s, t);
      forall k | k in n.table.pending ensures Receives(n.threads, k, n.table.pending[k]) && AnswersTo(n.table, k) == [] {
        assert Receives(s.threads, k, s.table.pending[k]);
      }
    }
  }

  lemma OneMoreHeld(s: Session, t: Tid, n: Session, id: Id)
    requires Moves(s, t, n) && t in s.threads && HeldId(s.threads[t]) == None && HeldId(n.threads[t]) == Some(id)
    ensures Held(n.threads, id) && forall k: Id :: k != id ==> Held(n.threads, k) == Held(s.threads, k)
  {
    forall k: Id | k != id ensures Held(n.threads, k) == Held(s.threads, k) {
      if u :| u in s.threads && HeldId(s.threads[u]) == Some(k) { assert HeldId(n.threads[u]) == Some(k); }
      if u :| u in n.threads && HeldId(n.threads[u]) == Some(k) { assert HeldId(s.threads[u]) == Some(k); }
    }
  }

  lemma OneLessHeld(s: Session, t: Tid, n: Session, id: Id)
    requires Moves(s, t, n) && t in s.threads && HeldId(s.threads[t]) == Some(id) && HeldId(n.threads[t]) == None
    ensures forall k: Id :: k != id ==> Held(n.threads, k) == Held(s.threads, k)
  {
    forall k: Id | k != id ensures Held(n.threads, k) == Held(s.threads, k) {
      if u :| u in s.threads && HeldId(s.threads[u]) == Some(k) { assert HeldId(n.threads[u]) == Some(k); }
      if u :| u in n.threads && HeldId(n.threads[u]) == Some(k) { assert HeldId(s.threads[u]) == Some(k); }
    }
  }

  lemma TableRespond(s: Session, t: Tid, n: Session)
    requires TableInv(s) && NextReply(s, t, Respond, n) && Moves(s, t, n)
    ensures TableInv(n)
  {
    var id := s.threads[t].id;
    assert TableOk(s, s.threads[t]) && HeldId(s.threads[t]) == Some(id) && Held(s.threads, id);
    OneLessHeld(s, t, n, id);
    forall u | u in n.threads && u != t ensures TableOk(n, n.threads[u]) {
      assert TableOk(s, s.threads[u]) && HeldId(s.threads[u]) != Some(id);
      if JustInserted(s.threads[u]) || Committed(s.threads[u]) { assert Placed(s, s.threads[u].r.id); }
    }
    forall k | k in n.table.pending ensures Receives(n.threads, k, n.table.pending[k]) && AnswersTo(n.table, k) == [] {
      assert Receives(s.threads, k, s.table.pending[k]);
    }
    HoldersKept(s, t, n);
  }

  lemma TableReply(s: Session, t: Tid, a: ReplyStep, n: Session)
    requires IdsInv(s) && TableInv(s) && NextReply(s, t, a, n) && Moves(s, t, n)
    ensures TableInv(n)
  {
    if a == Respond {
      TableRespond(s, t, n);
    } else if n.threads[t].Taken? {
      TableTake(s, t, n);
    } else {
      assert TableOk(s, s.threads[t]);
      NotAReceiver(s, t);
      TableQuiet(s, t, n);
    }
  }

  lemma DrainedOk(s: Session, t: Tid, n: Session, u: Tid)
    requires TableInv(s) && NextEnd(s, t, Drain, n) && Moves(s, t, n) && u in s.threads
    ensures TableOk(n, n.threads[u])
  {
    SameHeld(s, t, n);
    assert TableOk(s, s.threads[u]);
    if OwnId(s.threads[u]).Some? {
      var id := OwnId(s.threads[u]).value;
      assert Held(n.threads, id) == Held(s.threads, id);
    }
  }

  lemma TableDrain(s: Session, t: Tid, n: Session)
    requires IdsInv(s) && TableInv(s) && NextEnd(s, t, Drain, n) && Moves(s, t, n)
    ensures TableInv(n)
  {
    forall u | u in n.threads ensures TableOk(n, n.threads[u]) { DrainedOk(s, t, n, u); }
    HoldersKept(s, t, n);
    assert Entries(n);
  }

  lemma EndFrame(s: Session, t: Tid, a: EndStep, n: Session)
    requires NextEnd(s, t, a, n)
    ensures HeldId(n.threads[t]) == HeldId(s.threads[t]) && !Fresh(n.threads[t]) && n.ids == s.ids
    ensures s.threads[t] == Idle || s.threads[t].Ending?
    ensures n.threads[t].Ending? || n.threads[t] == Idle || n.threads[t].Answering?
    ensures a != Drain ==> n.table == s.table && n.end.drained == s.end.drained
  {
  }

  lemma TableEnd(s: Session, t: Tid, a: EndStep, n: Session)
    requires IdsInv(s) && TableInv(s) && NextEnd(s, t, a, n) && Moves(s, t, n)
    ensures TableInv(n)
  {
    if a == Drain {
      TableDrain(s, t, n);
    } else {
      EndFrame(s, t, a, n);
      assert TableOk(s, s.threads[t]);
      NotAReceiver(s, t);
      TableQuiet(s, t, n);
    }
  }

  lemma TableObserver(s: Session, t: Tid, a: ObserverStep, n: Session)
    requires TableInv(s) && NextObserver(s, t, a, n) && Moves(s, t, n)
    ensures TableInv(n)
  {
    ObserverFrame(s, t, a, n);
    assert s.threads[t] == Idle || s.threads[t].Observing?;
    NotAReceiver(s, t);
    TableQuiet(s, t, n);
  }

  lemma TableControl(s: Session, a: ControlStep, n: Session)
    requires TableInv(s) && NextControl(s, a, n)
    ensures TableInv(n)
  {
    ControlFrame(s, a, n);
    assert n.end.drained == s.end.drained;
    forall u | u in n.threads ensures TableOk(n, n.threads[u]) {
      assert TableOk(s, s.threads[u]);
    }
  }

  lemma TableNext(s: Session, t: Tid, a: Step, n: Session)
    requires IdsInv(s) && EndInv(s) && TableInv(s) && NextStep(s, t, a, n)
    ensures TableInv(n)
  {
    OnlyMover(s, t, a, n);
    match a {
      case OfAdmit(m) => TableAdmit(s, t, m, n);
      case OfWait(w) =>
        if w == Insert { TableInsert(s, t, n); } else if w == Withdraw { TableWithdraw(s, t, n); } else { TableWaitQuiet(s, t, w, n); }
      case OfReply(p) => TableReply(s, t, p, n);
      case OfEnd(e) => TableEnd(s, t, e, n);
      case OfObserver(o) => TableObserver(s, t, o, n);
      case OfControl(c) => TableControl(s, c, n);
    }
  }

  // ---- Permits ------------------------------------------------------------------------------

  predicate HoldsPermit(pc: Pc) {
    || (pc.Requesting? && !pc.r.Called? && !pc.r.Checked?)
    || pc.Leaving? || pc.Left? || pc.Releasing?
  }

  function PermitHolders(threads: map<Tid, Pc>): set<Tid> {
    set t | t in threads && HoldsPermit(threads[t])
  }

  predicate PermitsOk(permits: Permits, held: nat) {
    match permits.negotiation
    case Before => permits.available + held == permits.limit
    case Forgot(limit) => permits.available + held == limit <= permits.limit
    case Settled => permits.available + held == permits.limit
    case Broken => permits.available + held <= permits.limit
  }

  ghost predicate PermitsInv(s: Session) {
    PermitsOk(s.permits, |PermitHolders(s.threads)|)
  }

  lemma HoldersMove(s: Session, t: Tid, n: Session)
    requires Moves(s, t, n) && t in s.threads
    ensures var before, now := PermitHolders(s.threads), PermitHolders(n.threads);
            && (HoldsPermit(n.threads[t]) == HoldsPermit(s.threads[t]) ==> now == before)
            && (HoldsPermit(n.threads[t]) && !HoldsPermit(s.threads[t]) ==> |now| == |before| + 1)
            && (!HoldsPermit(n.threads[t]) && HoldsPermit(s.threads[t]) ==> |now| + 1 == |before|)
  {
    var before, now := PermitHolders(s.threads), PermitHolders(n.threads);
    if HoldsPermit(n.threads[t]) == HoldsPermit(s.threads[t]) {
      assert now == before;
    } else if HoldsPermit(n.threads[t]) {
      assert now == before + {t};
    } else {
      assert before == now + {t};
    }
  }

  lemma PermitsStep(s: Session, t: Tid, a: Step, n: Session)
    requires NextStep(s, t, a, n)
    ensures if a == OfAdmit(AcquirePermit) then
              && s.permits.available > 0 && n.permits == s.permits.(available := s.permits.available - 1)
              && !HoldsPermit(s.threads[t]) && HoldsPermit(n.threads[t])
            else if a == OfWait(Release) then
              && n.permits == s.permits.(available := s.permits.available + 1)
              && HoldsPermit(s.threads[t]) && !HoldsPermit(n.threads[t])
            else if a.OfControl? then n.threads == s.threads
            else n.permits == s.permits && HoldsPermit(n.threads[t]) == HoldsPermit(s.threads[t])
  {
    match a {
      case OfAdmit(m) => assert NextAdmit(s, t, m, n);
      case OfWait(w) => assert NextWait(s, t, w, n);
      case OfReply(p) => assert NextReply(s, t, p, n);
      case OfEnd(e) => assert NextEnd(s, t, e, n);
      case OfObserver(o) => assert NextObserver(s, t, o, n);
      case OfControl(c) => assert NextControl(s, c, n);
    }
  }

  lemma PermitsNext(s: Session, t: Tid, a: Step, n: Session)
    requires PermitsInv(s) && NextStep(s, t, a, n)
    ensures PermitsInv(n)
  {
    OnlyMover(s, t, a, n);
    PermitsStep(s, t, a, n);
    if !a.OfControl? { HoldersMove(s, t, n); }
  }

  /** Distinct keys with distinct owners are no more than the owners. */
  lemma {:induction false} AtMostOwners(owner: map<Id, Tid>, ids: set<Id>, owners: set<Tid>)
    requires forall id <- ids :: id in owner && owner[id] in owners
    requires forall i, j :: i in ids && j in ids && i != j ==> owner[i] != owner[j]
    ensures |ids| <= |owners|
    decreases ids
  {
    if ids != {} {
      var id :| id in ids;
      AtMostOwners(owner, ids - {id}, owners - {owner[id]});
    }
  }

  // ---- Runs ---------------------------------------------------------------------------------

  ghost predicate Inv(s: Session) {
    IdsInv(s) && EndInv(s) && TableInv(s) && PermitsInv(s)
  }

  lemma InitInv(s: Session)
    requires Init(s)
    ensures Inv(s)
  {
    assert PermitHolders(s.threads) == {};
  }

  /** Every step of every thread keeps the whole invariant. */
  lemma NextInv(s: Session, t: Tid, a: Step, n: Session)
    requires Inv(s) && NextStep(s, t, a, n)
    ensures Inv(n)
  {
    IdsNext(s, t, a, n);
    EndNext(s, t, a, n);
    TableNext(s, t, a, n);
    PermitsNext(s, t, a, n);
  }

  lemma {:induction false} RunInv(run: seq<Session>, i: nat)
    requires Run(run) && i < |run|
    ensures Inv(run[i])
  {
    if i == 0 {
      InitInv(run[0]);
    } else {
      RunInv(run, i - 1);
      var t, a := StepAt(run, i - 1);
      NextInv(run[i - 1], t, a, run[i]);
    }
  }

  /** Once the table has been drained, whoever waits has its answer or a dispatcher that is about
      to send it, and an entry can only belong to a request that will take it out itself: one that
      is leaving, or one whose re-check of the state is about to fail. */
  lemma NobodyLeftWaiting(run: seq<Session>, i: nat)
    requires Run(run) && i < |run| && run[i].end.drained
    ensures var s := run[i];
            && (forall t <- s.threads :: Committed(s.threads[t]) ==>
                  AnswersTo(s.table, s.threads[t].r.id) != [] || Held(s.threads, s.threads[t].r.id))
            && (forall id <- s.table.pending ::
                  var t := s.table.pending[id];
                  t in s.threads && (s.threads[t].Leaving? || EntersTooLate(s, t)) && OwnId(s.threads[t]) == Some(id))
  {
    RunInv(run, i);
    var s := run[i];
    forall t | t in s.threads && Committed(s.threads[t])
      ensures AnswersTo(s.table, s.threads[t].r.id) != [] || Held(s.threads, s.threads[t].r.id)
    {
      assert TableOk(s, s.threads[t]);
    }
    forall id | id in s.table.pending
      ensures var t := s.table.pending[id];
              t in s.threads && (s.threads[t].Leaving? || EntersTooLate(s, t)) && OwnId(s.threads[t]) == Some(id)
    {
      var t := s.table.pending[id];
      assert Receives(s.threads, id, t) && TableOk(s, s.threads[t]) && EndOk(s.end, t, s.threads[t]);
    }
  }

  /** Registered under a state the session has left for good. */
  predicate EntersTooLate(s: Session, t: Tid) {
    t in s.threads && JustInserted(s.threads[t]) && s.threads[t].required != s.end.state && Terminal(s.end.state)
  }

  /** Not re-checked yet, or on its way to take its entry out. */
  predicate OnItsWayOut(s: Session, t: Tid, id: Id) {
    (EntersTooLate(s, t) && s.threads[t].r.id == id) || (t in s.threads && s.threads[t] == Leaving(id, false))
  }

  lemma WayOutStep(s: Session, t: Tid, a: Step, n: Session, u: Tid, id: Id)
    requires OnItsWayOut(s, u, id) && NextStep(s, t, a, n)
    requires Terminal(s.end.state) ==> n.end.state == s.end.state
    ensures OnItsWayOut(n, u, id) || (u in n.threads && n.threads[u] == Left(id, false) && id !in n.table.pending)
  {
    OnlyMover(s, t, a, n);
    if a.OfControl? || u != t { assert n.threads[u] == s.threads[u]; }
  }

  /** In every run, a request that registered under a state the session has left for good stays on its
      way out, whatever the others do, until it has taken its own entry out of the table: it never
      sends and never waits. */
  lemma {:induction false} LateEntryIsWithdrawn(run: seq<Session>, i: nat, j: nat, t: Tid, id: Id)
    requires Run(run) && i <= j < |run| && EntersTooLate(run[i], t) && run[i].threads[t].r.id == id
    requires forall k :: i < k <= j ==> t in run[k].threads && run[k].threads[t] != Left(id, false)
    ensures OnItsWayOut(run[j], t, id)
    ensures j + 1 < |run| ==> OnItsWayOut(run[j + 1], t, id)
                              || (t in run[j + 1].threads && run[j + 1].threads[t] == Left(id, false) && id !in run[j + 1].table.pending)
    decreases j
  {
    if i < j { LateEntryIsWithdrawn(run, i, j - 1, t, id); }
    if j + 1 < |run| {
      var u, a := StepAt(run, j);
      if Terminal(run[j].end.state) { TerminalStays(run, j); }
      WayOutStep(run[j], u, a, run[j + 1], t, id);
    }
  }

  lemma AnswersGrow(run: seq<Session>, i: nat, id: Id)
    requires Run(run) && i + 1 < |run|
    ensures AnswersTo(run[i].table, id) <= AnswersTo(run[i + 1].table, id)
  {
    var t, a := StepAt(run, i);
    var s, n := run[i], run[i + 1];
    match a {
      case OfAdmit(m) => AdmitFrame(s, t, m, n);
      case OfWait(w) => assert n.table.answers == s.table.answers;
      case OfReply(p) => assert NextReply(s, t, p, n);
      case OfEnd(e) => EndFrame(s, t, e, n);
      case OfObserver(o) => ObserverFrame(s, t, o, n);
      case OfControl(c) => ControlFrame(s, c, n);
    }
  }

  /** A request is answered at most once in a whole run: the first answer is the only one. */
  lemma {:induction false} AnsweredAtMostOnce(run: seq<Session>, i: nat, j: nat, id: Id)
    requires Run(run) && i <= j < |run|
    ensures |AnswersTo(run[j].table, id)| <= 1
    ensures AnswersTo(run[i].table, id) != [] ==> AnswersTo(run[j].table, id) == AnswersTo(run[i].table, id)
  {
    RunInv(run, i);
    RunInv(run, j);
    if i < j {
      AnsweredAtMostOnce(run, i, j - 1, id);
      AnswersGrow(run, j - 1, id);
    }
  }

  // ---- What the answer is -------------------------------------------------------------------

  /** What a verdict entitles the caller to: its reply, or the error. */
  function Entitled(verdict: Verdict): Answer {
    match verdict
    case Accepted => Reply
    case Mismatch(error) => Refused(error)
    case TerminalFailure(error) => Refused(error)
  }

  /** A dispatcher with that verdict takes the sender of `id` out of the table. */
  predicate Takes(s: Session, n: Session, t: Tid, id: Id, verdict: Verdict) {
    && t in s.threads && t in n.threads && s.threads[t] == Judged(id, verdict) && n.threads[t] != s.threads[t]
    && id in s.table.pending && id !in n.table.pending
  }

  ghost predicate TakenAt(s: Session, n: Session, id: Id, verdict: Verdict) {
    exists t :: Takes(s, n, t, id, verdict)
  }

  /** The table is drained, with `id` in it, in the name of the transition that has won. */
  predicate DrainsWith(s: Session, n: Session, id: Id, error: Error) {
    && !s.end.drained && n.end.drained && id in s.table.pending
    && if n.end.state == Failed then n.end.error == Some(error) else n.end.state == Closed && error == CLOSED_PENDING
  }

  /** The step that decides what `id` is answered. */
  ghost predicate Settles(s: Session, n: Session, id: Id, answer: Answer) {
    || (exists verdict :: TakenAt(s, n, id, verdict) && answer == Entitled(verdict))
    || (answer.Refused? && DrainsWith(s, n, id, answer.error))
  }

  ghost predicate SettledBefore(run: seq<Session>, j: nat, id: Id, answer: Answer)
    requires j < |run|
  {
    exists i :: 0 <= i < j && Settles(run[i], run[i + 1], id, answer)
  }

  /** What the holder of a sender is going to send. */
  function DueBy(pc: Pc): Answer {
    match pc
    case Taken(_, verdict) => Entitled(verdict)
    case Answering(_, answer) => answer
    case Ending(_, _, after, _) => if after.SendError? then Refused(after.error) else Reply
    case _ => Reply
  }

  predicate Holds(s: Session, t: Tid, id: Id, answer: Answer) {
    t in s.threads && HeldId(s.threads[t]) == Some(id) && DueBy(s.threads[t]) == answer
  }

  /** A sender comes into a thread's hands by being taken, stays there with what is due, and is used for
      that. */
  lemma ReplyHolds(s: Session, t: Tid, a: ReplyStep, n: Session)
    requires NextReply(s, t, a, n)
    ensures HeldId(s.threads[t]).Some? ==>
              var id, answer := HeldId(s.threads[t]).value, DueBy(s.threads[t]);
              if a == Respond then n.table.answers == s.table.answers[id := AnswersTo(s.table, id) + [answer]]
              else Holds(n, t, id, answer) && n.table.answers == s.table.answers
    ensures HeldId(s.threads[t]) == None ==> n.table.answers == s.table.answers
    ensures HeldId(s.threads[t]) == None && HeldId(n.threads[t]).Some? ==>
              s.threads[t].Judged? && Takes(s, n, t, HeldId(n.threads[t]).value, s.threads[t].verdict)
              && DueBy(n.threads[t]) == Entitled(s.threads[t].verdict)
    ensures a == Respond ==> HeldId(n.threads[t]) == None && HeldId(s.threads[t]).Some?
  {
  }

  lemma EndHolds(s: Session, t: Tid, a: EndStep, n: Session)
    requires NextEnd(s, t, a, n)
    ensures HeldId(n.threads[t]) == HeldId(s.threads[t])
    ensures HeldId(s.threads[t]).Some? ==> DueBy(n.threads[t]) == DueBy(s.threads[t])
    ensures a != Drain ==> n.table == s.table
  {
  }

  lemma DrainAnswers(s: Session, t: Tid, n: Session, id: Id)
    requires EndOk(s.end, t, if t in s.threads then s.threads[t] else Idle) && NextEnd(s, t, Drain, n)
    ensures AnswersTo(n.table, id) == AnswersTo(s.table, id) + if id in s.table.pending then [Refused(s.threads[t].error)] else []
    ensures id in s.table.pending ==> DrainsWith(s, n, id, s.threads[t].error)
  {
  }

  /** Elsewhere nobody holds a sender, and nothing is answered. */
  lemma OthersHold(s: Session, t: Tid, a: Step, n: Session)
    requires NextStep(s, t, a, n) && !a.OfReply? && !a.OfEnd?
    ensures n.table.answers == s.table.answers
    ensures t in s.threads && !a.OfControl? ==> HeldId(s.threads[t]) == None && HeldId(n.threads[t]) == None
    ensures a.OfControl? ==> n.threads == s.threads
  {
    match a {
      case OfAdmit(m) => AdmitFrame(s, t, m, n);
      case OfWait(w) => WaitFrame(s, t, w, n); assert n.table.answers == s.table.answers;
      case OfObserver(o) => ObserverFrame(s, t, o, n);
      case OfControl(c) => ControlFrame(s, c, n);
    }
  }

  // -- Whatever is held or sent has been settled before

  lemma HoldsBack(s: Session, t: Tid, a: Step, n: Session, u: Tid, id: Id, answer: Answer)
    requires NextStep(s, t, a, n) && Holds(n, u, id, answer)
    ensures Holds(s, u, id, answer) || Settles(s, n, id, answer)
  {
    OnlyMover(s, t, a, n);
    if u == t {
      match a {
        case OfReply(p) => ReplyHolds(s, t, p, n);
        case OfEnd(e) => EndHolds(s, t, e, n);
        case _ => OthersHold(s, t, a, n);
      }
    }
  }

  lemma {:induction false} HeldIsSettled(run: seq<Session>, j: nat, t: Tid, id: Id, answer: Answer)
    requires Run(run) && j < |run| && Holds(run[j], t, id, answer)
    ensures SettledBefore(run, j, id, answer)
  {
    if j == 0 { assert false; }
    var u, a := StepAt(run, j - 1);
    HoldsBack(run[j - 1], u, a, run[j], t, id, answer);
    if Holds(run[j - 1], t, id, answer) { HeldIsSettled(run, j - 1, t, id, answer); }
  }

  lemma AnswerBack(s: Session, t: Tid, a: Step, n: Session, id: Id, answer: Answer)
    requires Inv(s) && NextStep(s, t, a, n) && AnswersTo(n.table, id) == [answer] && AnswersTo(s.table, id) != [answer]
    requires |AnswersTo(s.table, id)| <= 1
    ensures Settles(s, n, id, answer) || Holds(s, t, id, answer)
  {
    match a {
      case OfReply(p) =>
        ReplyHolds(s, t, p, n);
        if HeldId(s.threads[t]).Some? {
          assert TableOk(s, s.threads[t]);
          var due := DueBy(s.threads[t]);
          assert [] + [due] == [due];
        }
      case OfEnd(e) =>
        EndHolds(s, t, e, n);
        assert EndOk(s.end, t, s.threads[t]);
        DrainAnswers(s, t, n, id);
        var error := s.threads[t].error;
        assert id in s.table.pending && AnswersTo(n.table, id)[|AnswersTo(s.table, id)|] == Refused(error);
        assert answer == Refused(error) && DrainsWith(s, n, id, error);
      case _ => OthersHold(s, t, a, n);
    }
  }

  lemma {:induction false} AnswerIsSettled(run: seq<Session>, j: nat, id: Id, answer: Answer)
    requires Run(run) && j < |run| && AnswersTo(run[j].table, id) == [answer]
    ensures SettledBefore(run, j, id, answer)
  {
    if j == 0 { assert false; }
    if AnswersTo(run[j - 1].table, id) == [answer] {
      AnswerIsSettled(run, j - 1, id, answer);
    } else {
      RunInv(run, j - 1);
      AnsweredAtMostOnce(run, j - 1, j, id);
      var t, a := StepAt(run, j - 1);
      AnswerBack(run[j - 1], t, a, run[j], id, answer);
      if Holds(run[j - 1], t, id, answer) { HeldIsSettled(run, j - 1, t, id, answer); }
    }
  }

  // -- Whatever has been settled is held, and then sent

  ghost predicate Owed(s: Session, id: Id, answer: Answer) {
    AnswersTo(s.table, id) == [answer] || (AnswersTo(s.table, id) == [] && exists t :: Holds(s, t, id, answer))
  }

  lemma TakenIsOwed(s: Session, t: Tid, a: Step, n: Session, u: Tid, id: Id, verdict: Verdict)
    requires TableInv(n) && NextStep(s, t, a, n) && Takes(s, n, u, id, verdict)
    ensures Owed(n, id, Entitled(verdict))
  {
    OnlyMover(s, t, a, n);
    TakerReplies(s, t, a, n, id, verdict);
    assert Holds(n, t, id, Entitled(verdict));
    assert TableOk(n, n.threads[t]);
  }

  lemma TakerReplies(s: Session, t: Tid, a: Step, n: Session, id: Id, verdict: Verdict)
    requires NextStep(s, t, a, n) && Takes(s, n, t, id, verdict)
    ensures Holds(n, t, id, Entitled(verdict))
  {
    OnlyRepliesTake(s, t, a, n);
    assert NextReply(s, t, a.p, n);
  }

  lemma OnlyRepliesTake(s: Session, t: Tid, a: Step, n: Session)
    requires NextStep(s, t, a, n) && t in s.threads && s.threads[t].Judged? && n.threads[t] != s.threads[t]
    ensures a.OfReply?
  {
  }

  lemma SettledIsOwed(s: Session, t: Tid, a: Step, n: Session, id: Id, answer: Answer)
    requires Inv(s) && TableInv(n) && NextStep(s, t, a, n) && Settles(s, n, id, answer)
    ensures Owed(n, id, answer)
  {
    if verdict :| TakenAt(s, n, id, verdict) && answer == Entitled(verdict) {
      var u :| Takes(s, n, u, id, verdict);
      TakenIsOwed(s, t, a, n, u, id, verdict);
    } else {
      DrainedIsAnswered(s, t, a, n, id, answer.error);
    }
  }

  lemma DrainedIsAnswered(s: Session, t: Tid, a: Step, n: Session, id: Id, error: Error)
    requires Inv(s) && NextStep(s, t, a, n) && DrainsWith(s, n, id, error)
    ensures AnswersTo(n.table, id) == [Refused(error)]
  {
    if !a.OfEnd? {
      OnlyEndsEnd(s, t, a, n);
      assert false;
    } else {
      assert a.e == Drain;
      assert EndOk(s.end, t, s.threads[t]) && AnswersTo(s.table, id) == [];
      DrainAnswers(s, t, n, id);
    }
  }

  lemma OwedStep(s: Session, t: Tid, a: Step, n: Session, id: Id, answer: Answer)
    requires Inv(s) && Inv(n) && NextStep(s, t, a, n) && Owed(s, id, answer)
    requires AnswersTo(s.table, id) == [answer] ==> AnswersTo(n.table, id) == [answer]
    ensures Owed(n, id, answer)
  {
    if AnswersTo(s.table, id) == [] {
      var u :| Holds(s, u, id, answer);
      assert TableOk(s, s.threads[u]);
      HolderStep(s, t, a, n, u, id, answer);
    }
  }

  lemma HolderStep(s: Session, t: Tid, a: Step, n: Session, u: Tid, id: Id, answer: Answer)
    requires Inv(s) && Inv(n) && NextStep(s, t, a, n) && Holds(s, u, id, answer) && AnswersTo(s.table, id) == [] && id !in s.table.pending
    ensures AnswersTo(n.table, id) == [answer] || (AnswersTo(n.table, id) == [] && Holds(n, u, id, answer))
  {
    OnlyMover(s, t, a, n);
    if u == t {
      match a {
        case OfReply(p) => ReplyHolds(s, t, p, n);
        case OfEnd(e) => EndHolds(s, t, e, n);
        case _ => OthersHold(s, t, a, n);
      }
    }
    if Holds(n, u, id, answer) { assert TableOk(n, n.threads[u]); }
  }

  lemma SettledAt(run: seq<Session>, i: nat, id: Id, answer: Answer)
    requires Run(run) && i + 1 < |run| && Settles(run[i], run[i + 1], id, answer)
    ensures Owed(run[i + 1], id, answer)
  {
    RunInv(run, i);
    RunInv(run, i + 1);
    var t, a := StepAt(run, i);
    SettledIsOwed(run[i], t, a, run[i + 1], id, answer);
  }

  lemma OwedAfter(run: seq<Session>, i: nat, id: Id, answer: Answer)
    requires Run(run) && i + 1 < |run| && Owed(run[i], id, answer)
    ensures Owed(run[i + 1], id, answer)
  {
    RunInv(run, i);
    RunInv(run, i + 1);
    AnsweredAtMostOnce(run, i, i + 1, id);
    var t, a := StepAt(run, i);
    OwedStep(run[i], t, a, run[i + 1], id, answer);
  }

  lemma {:induction false} SettledStays(run: seq<Session>, i: nat, j: nat, id: Id, answer: Answer)
    requires Run(run) && i < j < |run| && Settles(run[i], run[i + 1], id, answer)
    ensures Owed(run[j], id, answer)
    decreases j
  {
    if i + 1 == j {
      SettledAt(run, i, id, answer);
    } else {
      SettledStays(run, i, j - 1, id, answer);
      OwedAfter(run, j - 1, id, answer);
    }
  }

  /** In every run, a request has been answered something only if that has been settled before: a dispatcher
      took the sender with that verdict, or the winning transition drained the table with its error.  And
      what has been settled is the answer, or is still held by the dispatcher that is about to send it. */
  lemma AnswerIsWhatWasSettled(run: seq<Session>, j: nat, id: Id, answer: Answer)
    requires Run(run) && j < |run|
    ensures AnswersTo(run[j].table, id) == [answer] ==> SettledBefore(run, j, id, answer)
    ensures SettledBefore(run, j, id, answer) ==> Owed(run[j], id, answer)
  {
    if AnswersTo(run[j].table, id) == [answer] { AnswerIsSettled(run, j, id, answer); }
    if SettledBefore(run, j, id, answer) {
      var i :| 0 <= i < j && Settles(run[i], run[i + 1], id, answer);
      SettledStays(run, i, j, id, answer);
    }
  }

  ghost predicate TakenWith(run: seq<Session>, j: nat, id: Id, verdict: Verdict)
    requires j < |run|
  {
    exists i :: 0 <= i < j && TakenAt(run[i], run[i + 1], id, verdict)
  }

  ghost predicate DrainedWith(run: seq<Session>, j: nat, id: Id, error: Error)
    requires j < |run|
  {
    exists i :: 0 <= i < j && DrainsWith(run[i], run[i + 1], id, error)
  }

  /** So an answer is the reply exactly if a dispatcher that had found the message acceptable took the
      sender; and it is an error exactly if that error is the verdict with which a dispatcher took the
      sender, or the one with which the winning transition drained the table. */
  lemma AnswerExactly(run: seq<Session>, j: nat, id: Id)
    requires Run(run) && j < |run| && AnswersTo(run[j].table, id) != []
    ensures AnswersTo(run[j].table, id) == [Reply] <==> TakenWith(run, j, id, Accepted)
    ensures forall error :: AnswersTo(run[j].table, id) == [Refused(error)] <==>
              DrainedWith(run, j, id, error) || TakenWith(run, j, id, Mismatch(error)) || TakenWith(run, j, id, TerminalFailure(error))
  {
    AnsweredAtMostOnce(run, j, j, id);
    var answers := AnswersTo(run[j].table, id);
    AnswerIsWhatWasSettled(run, j, id, answers[0]);
    AnswerIsWhatWasSettled(run, j, id, Reply);
    ReplySettled(run, j, id);
    forall error ensures answers == [Refused(error)] <==> SettledBefore(run, j, id, Refused(error)) {
      AnswerIsWhatWasSettled(run, j, id, Refused(error));
    }
    forall error { RefusalSettled(run, j, id, error); }
  }

  lemma ReplySettled(run: seq<Session>, j: nat, id: Id)
    requires j < |run|
    ensures SettledBefore(run, j, id, Reply) <==> TakenWith(run, j, id, Accepted)
  {
    if i :| 0 <= i < j && TakenAt(run[i], run[i + 1], id, Accepted) {
      assert Reply == Entitled(Accepted) && Settles(run[i], run[i + 1], id, Reply);
    }
  }

  lemma RefusalSettled(run: seq<Session>, j: nat, id: Id, error: Error)
    requires j < |run|
    ensures SettledBefore(run, j, id, Refused(error)) <==>
              DrainedWith(run, j, id, error) || TakenWith(run, j, id, Mismatch(error)) || TakenWith(run, j, id, TerminalFailure(error))
  {
    if i :| 0 <= i < j && TakenAt(run[i], run[i + 1], id, Mismatch(error)) {
      assert Refused(error) == Entitled(Mismatch(error)) && Settles(run[i], run[i + 1], id, Refused(error));
    }
    if i :| 0 <= i < j && TakenAt(run[i], run[i + 1], id, TerminalFailure(error)) {
      assert Refused(error) == Entitled(TerminalFailure(error)) && Settles(run[i], run[i + 1], id, Refused(error));
    }
    if i :| 0 <= i < j && DrainsWith(run[i], run[i + 1], id, error) {
      assert Settles(run[i], run[i + 1], id, Refused(error));
    }
  }

  lemma TerminalStays(run: seq<Session>, i: nat)
    requires Run(run) && i + 1 < |run|
    ensures Terminal(run[i].end.state) ==> run[i + 1].end.state == run[i].end.state
    ensures Terminal(run[i].end.state) && run[i].end.error.Some? ==> run[i + 1].end.error == run[i].end.error
  {
    RunInv(run, i);
    var t, a := StepAt(run, i);
    var s, n := run[i], run[i + 1];
    if a.OfEnd? {
      assert EndOk(s.end, t, s.threads[t]);
    } else {
      OnlyEndsEnd(s, t, a, n);
    }
  }

  lemma OnlyEndsEnd(s: Session, t: Tid, a: Step, n: Session)
    requires NextStep(s, t, a, n) && !a.OfEnd?
    ensures n.end == s.end || (!Terminal(s.end.state) && n.end == s.end.(state := n.end.state))
  {
    match a {
      case OfAdmit(m) => AdmitFrame(s, t, m, n);
      case OfWait(w) => WaitFrame(s, t, w, n);
      case OfReply(p) => IdsReply(s, t, p, n);
      case OfObserver(o) => ObserverFrame(s, t, o, n);
      case OfControl(c) => assert NextControl(s, c, n);
    }
  }

  /** The first terminal transition wins for ever, and its error is never replaced. */
  lemma {:induction false} FirstTerminalWins(run: seq<Session>, i: nat, j: nat)
    requires Run(run) && i <= j < |run| && Terminal(run[i].end.state)
    ensures run[j].end.state == run[i].end.state
    ensures run[i].end.error.Some? ==> run[j].end.error == run[i].end.error
  {
    if i < j {
      FirstTerminalWins(run, i, j - 1);
      TerminalStays(run, j - 1);
    }
  }

  /** An observer that saw Failed reads a set error as soon as it can read at all, and none sleeps
      through the end: while it sleeps on a terminal session, either it has been notified or the
      winner has still to notify. */
  lemma FailedObserverFindsError(run: seq<Session>, i: nat, t: Tid)
    requires Run(run) && i < |run| && t in run[i].threads && run[i].threads[t].Observing?
    ensures var s, o := run[i], run[i].threads[t].o;
            && (o.SawFailed? ==> s.end.state == Failed && (s.end.errorLock == None ==> s.end.error.Some?))
            && (o.Found? ==> if o.found.Some? then s.end.state == Failed && s.end.error == o.found else s.end.state == Closed)
            && (o.Sleeping? && Terminal(s.end.state) ==>
                  s.end.notified > o.seen || (s.end.closer.Some? && s.end.closer.value in s.threads && Closes(s.threads[s.end.closer.value])))
  {
    RunInv(run, i);
    assert EndOk(run[i].end, t, run[i].threads[t]);
  }

  // ---- Who is turned away, who gets through ----------------------------------------------------------

  /** Why a call ends, or starts to leave, at its step out of `s`. */
  predicate TurnedAway(s: Session, required: SessionState, invoke: bool, r: RequestPc, to: Pc) {
    match r
    case Called => s.end.state != required && to == Idle
    case Checked => (invoke ==> s.permits.available == 0) && to == Idle
    case Permitted => s.end.state != required && to == Releasing
    case IdLoaded(_) => s.ids.next == MAX_ID && to == Releasing
    case Inserted(id) => s.end.state != required && to == Leaving(id, false)
    case Sending(id) => to == Leaving(id, false)
    case Waiting(id) => (to == Releasing && AnswersTo(s.table, id) != []) || to == Leaving(id, invoke)
    case _ => false
  }

  /** A step that asks for the state. */
  predicate AsksForState(r: RequestPc) {
    r.Called? || r.Permitted? || r.Inserted?
  }

  /** In every run, a call is turned away for a state that is not the required one, for want of a permit
      (an invocation at once, a request when its caller gives up), for want of ids, or when the
      writer is gone; once it waits, it ends with an answer or when its caller gives up.  And where the
      state is asked for, a call is turned away exactly if it is another one. */
  lemma TurnedAwayExactly(run: seq<Session>, i: nat, t: Tid)
    requires Run(run) && i + 1 < |run| && t in run[i].threads && t in run[i + 1].threads
    requires run[i].threads[t].Requesting? && run[i + 1].threads[t] != run[i].threads[t]
    ensures var s, pc, to := run[i], run[i].threads[t], run[i + 1].threads[t];
            && (to.Requesting? ==> to.required == pc.required && to.invoke == pc.invoke)
            && (!to.Requesting? ==> TurnedAway(s, pc.required, pc.invoke, pc.r, to))
            && (AsksForState(pc.r) ==> (to.Requesting? <==> s.end.state == pc.required))
  {
    RunInv(run, i);
    var u, a := StepAt(run, i);
    OnlyMover(run[i], u, a, run[i + 1]);
    assert u == t && IdOk(run[i].ids, run[i].threads[t]);
    MovesRightly(run[i], t, a, run[i + 1]);
  }

  lemma MovesRightly(s: Session, t: Tid, a: Step, n: Session)
    requires NextStep(s, t, a, n) && t in s.threads && s.threads[t].Requesting? && n.threads[t] != s.threads[t]
    requires Counters(s.ids) && IdOk(s.ids, s.threads[t])
    ensures var pc, to := s.threads[t], n.threads[t];
            && (to.Requesting? ==> to.required == pc.required && to.invoke == pc.invoke)
            && (!to.Requesting? ==> TurnedAway(s, pc.required, pc.invoke, pc.r, to))
            && (AsksForState(pc.r) ==> (to.Requesting? <==> s.end.state == pc.required))
  {
    match a {
      case OfAdmit(m) => assert NextAdmit(s, t, m, n);
      case OfWait(w) => assert NextWait(s, t, w, n);
      case OfControl(c) => ControlFrame(s, c, n);
      case _ =>
    }
  }

  ghost predicate Path(path: seq<Session>) {
    path != [] && forall i :: Linked(path, i)
  }

  lemma Onward(path: seq<Session>, t: Tid, a: Step, n: Session) returns (longer: seq<Session>)
    requires Path(path) && NextStep(path[|path| - 1], t, a, n)
    ensures longer == path + [n] && Path(longer) && longer[0] == path[0] && longer[|longer| - 1] == n
  {
    longer := path + [n];
    assert Next(path[|path| - 1], n);
    forall i: nat ensures Linked(longer, i) {
      assert Linked(path, i);
      if i + 1 < |path| { assert longer[i] == path[i] && longer[i + 1] == path[i + 1]; }
    }
  }

  /** The session when a call has been sent and nothing else has happened. */
  function SentBy(s: Session, t: Tid, required: SessionState, invoke: bool): Session
    requires s.permits.available > 0
  {
    var id := s.ids.next;
    Session(s.end, Table(s.table.pending[id := t], s.table.answers, s.table.outbound + [id]),
            Ids(id + 1, Max(s.ids.highest, id)), s.permits.(available := s.permits.available - 1),
            s.threads[t := Requesting(required, invoke, Waiting(id))])
  }

  lemma PermitAlone(s: Session, t: Tid, required: SessionState, invoke: bool) returns (path: seq<Session>)
    requires t in s.threads && s.threads[t] == Requesting(required, invoke, Called) && s.end.state == required
    requires s.permits.available > 0
    ensures Path(path) && path[0] == s
    ensures path[|path| - 1] == At(s, t, Requesting(required, invoke, Allocating))
                                .(permits := s.permits.(available := s.permits.available - 1))
  {
    var checked := At(s, t, Requesting(required, invoke, Checked));
    path := Onward([s], t, OfAdmit(CheckState), checked);
    var permitted := At(checked, t, Requesting(required, invoke, if invoke then Allocating else Permitted))
                     .(permits := s.permits.(available := s.permits.available - 1));
    path := Onward(path, t, OfAdmit(AcquirePermit), permitted);
    if !invoke { path := Onward(path, t, OfAdmit(CheckAgain), At(permitted, t, Requesting(required, invoke, Allocating))); }
  }

  lemma AdmittedAlone(s: Session, t: Tid, required: SessionState, invoke: bool) returns (path: seq<Session>)
    requires t in s.threads && s.threads[t] == Requesting(required, invoke, Called) && s.end.state == required
    requires s.permits.available > 0 && 1 <= s.ids.next < MAX_ID
    ensures Path(path) && path[0] == s
    ensures path[|path| - 1] == At(s, t, Requesting(required, invoke, IdIssued(s.ids.next)))
                                .(ids := Ids(s.ids.next + 1, Max(s.ids.highest, s.ids.next)),
                                  permits := s.permits.(available := s.permits.available - 1))
  {
    path := PermitAlone(s, t, required, invoke);
    var id, allocating := s.ids.next, path[|path| - 1];
    var loaded := At(allocating, t, Requesting(required, invoke, IdLoaded(id)));
    path := Onward(path, t, OfAdmit(LoadId), loaded);
    var won := At(loaded, t, Requesting(required, invoke, IdWon(id))).(ids := s.ids.(next := id + 1));
    path := Onward(path, t, OfAdmit(ExchangeId), won);
    path := Onward(path, t, OfAdmit(IssueId),
                   At(won, t, Requesting(required, invoke, IdIssued(id))).(ids := Ids(id + 1, Max(s.ids.highest, id))));
  }

  /** A call made in the state it requires, with a permit to be had and ids left, gets through if it is
      left alone: it ends up waiting, in the table under the next id, with that id in the writer's
      queue, and nothing else has changed. */
  lemma GetsThrough(s: Session, t: Tid, required: SessionState, invoke: bool) returns (path: seq<Session>)
    requires t in s.threads && s.threads[t] == Requesting(required, invoke, Called) && s.end.state == required
    requires s.permits.available > 0 && 1 <= s.ids.next < MAX_ID
    ensures Path(path) && path[0] == s && path[|path| - 1] == SentBy(s, t, required, invoke)
  {
    path := AdmittedAlone(s, t, required, invoke);
    var id, issued := s.ids.next, path[|path| - 1];
    var inserted := At(issued, t, Requesting(required, invoke, Inserted(id))).(table := Enter(s.table, id, t));
    path := Onward(path, t, OfWait(Insert), inserted);
    var sending := At(inserted, t, Requesting(required, invoke, Sending(id)));
    path := Onward(path, t, OfWait(Recheck), sending);
    path := Onward(path, t, OfWait(Send),
                   At(sending, t, Requesting(required, invoke, Waiting(id))).(table := Enqueue(sending.table, id)));
  }

  // ---- Replies and transitions left alone --------------------------------------------------------------

  /** Everybody in the table has been answered with the error, and nobody else. */
  ghost predicate AllRefused(before: Table, after: Table, error: Error) {
    && after.pending == map[] && after.outbound == before.outbound
    && forall id: Id :: AnswersTo(after, id) == AnswersTo(before, id) + if id in before.pending then [Refused(error)] else []
  }

  /** A terminal transition that is left alone: on a session that has not ended it sets the state and, if it
      failed, the error, drains the table and notifies once; on one that has it changes nothing. */
  lemma EndAlone(path: seq<Session>, t: Tid) returns (longer: seq<Session>)
    requires Path(path)
    requires var s := path[|path| - 1]; t in s.threads && s.threads[t].Ending? && s.threads[t].e == WantsError && s.end.errorLock == None
    ensures Path(longer) && longer[0] == path[0]
    ensures var s, n := path[|path| - 1], longer[|longer| - 1];
            var (target, error, next) := (s.threads[t].target, s.threads[t].error, Continue(s.threads[t].after));
            if Terminal(s.end.state) then n == At(s, t, next)
            else
              && n.end == End(target, if target == Failed then Some(error) else s.end.error, None, true, None, s.end.notified + 1)
              && AllRefused(s.table, n.table, error) && n.ids == s.ids && n.permits == s.permits && n.threads == s.threads[t := next]
  {
    var s := path[|path| - 1];
    var (target, error, after) := (s.threads[t].target, s.threads[t].error, s.threads[t].after);
    var locked := At(s, t, Ending(target, error, after, HasError)).(end := s.end.(errorLock := Some(t)));
    longer := Onward(path, t, OfEnd(LockError), locked);
    if Terminal(s.end.state) {
      longer := Onward(longer, t, OfEnd(Exchange), At(locked, t, Continue(after)).(end := locked.end.(errorLock := None)));
      return;
    }
    var won := At(locked, t, Ending(target, error, after, Won)).(end := locked.end.(state := target, closer := Some(t)));
    longer := Onward(longer, t, OfEnd(Exchange), won);
    longer := WonAlone(longer, t);
  }

  lemma WonAlone(path: seq<Session>, t: Tid) returns (longer: seq<Session>)
    requires Path(path)
    requires var s := path[|path| - 1]; t in s.threads && s.threads[t].Ending? && s.threads[t].e == Won
    ensures Path(longer) && longer[0] == path[0]
    ensures var s, n := path[|path| - 1], longer[|longer| - 1];
            var (target, error, next) := (s.threads[t].target, s.threads[t].error, Continue(s.threads[t].after));
            && n.end == End(s.end.state, if target == Failed then Some(error) else s.end.error, None, true, None, s.end.notified + 1)
            && AllRefused(s.table, n.table, error) && n.ids == s.ids && n.permits == s.permits && n.threads == s.threads[t := next]
  {
    var s := path[|path| - 1];
    var (target, error, after) := (s.threads[t].target, s.threads[t].error, s.threads[t].after);
    var unlocked := At(s, t, Ending(target, error, after, Unlocked))
                    .(end := s.end.(error := if target == Failed then Some(error) else s.end.error, errorLock := None));
    longer := Onward(path, t, OfEnd(Unlock), unlocked);
    var drained := At(unlocked, t, Ending(target, error, after, Drained))
                   .(table := Resolve(s.table, error), end := unlocked.end.(drained := true));
    longer := Onward(longer, t, OfEnd(Drain), drained);
    longer := Onward(longer, t, OfEnd(Notify),
                     At(drained, t, Continue(after)).(end := drained.end.(notified := s.end.notified + 1, closer := None)));
  }

  /** A reply that fits and whose request waits is handed to that request and changes nothing else; one that
      nobody waits for changes nothing. */
  lemma ReplyAlone(s: Session, t: Tid, id: Id) returns (path: seq<Session>)
    requires t in s.threads && s.threads[t] == Idle && id <= s.ids.highest && id <= MAX_ID
    ensures Path(path) && path[0] == s
    ensures path[|path| - 1] == if id in s.table.pending then s.(table := Deliver(Remove(s.table, id), id, Reply)) else s
    ensures id in s.table.pending ==> AnswersTo(path[|path| - 1].table, id) == AnswersTo(s.table, id) + [Reply]
  {
    path := TakenAlone(s, t, id, Accepted);
    if id in s.table.pending {
      var taken := path[|path| - 1];
      var answering := At(taken, t, Answering(id, Reply));
      path := Onward(path, t, OfReply(Decide), answering);
      path := Onward(path, t, OfReply(Respond), At(answering, t, Idle).(table := Deliver(taken.table, id, Reply)));
      assert path[|path| - 1].threads == s.threads;
    }
  }

  lemma TakenAlone(s: Session, t: Tid, id: Id, verdict: Verdict) returns (path: seq<Session>)
    requires t in s.threads && s.threads[t] == Idle && id <= s.ids.highest && id <= MAX_ID
    ensures Path(path) && path[0] == s
    ensures path[|path| - 1] == if id in s.table.pending then At(s, t, Taken(id, verdict)).(table := Remove(s.table, id)) else s
  {
    path := Onward([s], t, OfReply(Arrive(id, verdict)), At(s, t, Received(id, verdict)));
    path := Onward(path, t, OfReply(JudgeId), At(s, t, Judged(id, verdict)));
    path := Onward(path, t, OfReply(TakeSender),
                   if id in s.table.pending then At(s, t, Taken(id, verdict)).(table := Remove(s.table, id)) else s);
  }

  /** A reply that does not fit fails the session with its error: its own request and all others are refused
      with that. */
  lemma MismatchAlone(s: Session, t: Tid, id: Id, verdict: Verdict) returns (path: seq<Session>)
    requires t in s.threads && s.threads[t] == Idle && id <= s.ids.highest && id <= MAX_ID && id in s.table.pending && !verdict.Accepted?
    requires s.end.errorLock == None && !Terminal(s.end.state)
    ensures Path(path) && path[0] == s
    ensures var n := path[|path| - 1];
            && n.end.state == Failed && n.end.error == Some(verdict.error) && n.end.notified == s.end.notified + 1
            && AllRefused(s.table, n.table, verdict.error) && n.threads == s.threads
  {
    path := TakenAlone(s, t, id, verdict);
    var taken, e := path[|path| - 1], verdict.error;
    path := Onward(path, t, OfReply(Decide), At(taken, t, Ending(Failed, e, SendError(id, e), WantsError)));
    path := EndAlone(path, t);
    var ended := path[|path| - 1];
    path := Onward(path, t, OfReply(Respond), At(ended, t, Idle).(table := Deliver(ended.table, id, Refused(e))));
    var n := path[|path| - 1];
    assert n.threads == s.threads;
    forall x: Id ensures AnswersTo(n.table, x) == AnswersTo(s.table, x) + if x in s.table.pending then [Refused(e)] else [] {
      assert AnswersTo(ended.table, x) == AnswersTo(taken.table, x) + if x in taken.table.pending then [Refused(e)] else [];
    }
  }

  /** A reply to an id that has not been issued fails the session, and everybody who waits is told so. */
  lemma FutureReplyAlone(s: Session, t: Tid, id: Id, verdict: Verdict) returns (path: seq<Session>)
    requires t in s.threads && s.threads[t] == Idle && s.ids.highest < id <= MAX_ID
    requires s.end.errorLock == None && !Terminal(s.end.state)
    ensures Path(path) && path[0] == s
    ensures var n := path[|path| - 1];
            && n.end.state == Failed && n.end.error == Some(FUTURE_ID) && n.end.notified == s.end.notified + 1
            && AllRefused(s.table, n.table, FUTURE_ID) && n.threads == s.threads
  {
    path := Onward([s], t, OfReply(Arrive(id, verdict)), At(s, t, Received(id, verdict)));
    path := Onward(path, t, OfReply(JudgeId), At(s, t, Ending(Failed, FUTURE_ID, Stop, WantsError)));
    path := EndAlone(path, t);
    assert path[|path| - 1].threads == s.threads;
  }

  // ---- What the peer is sent ---------------------------------------------------------------------------

  /** In every run the writer is handed one id at a time: a registered request's own, as its message, or,
      while the session is ready or draining, that of an abandoned call that has left the table, to
      cancel it. */
  lemma QueuedFor(run: seq<Session>, i: nat)
    requires Run(run) && i + 1 < |run| && run[i + 1].table.outbound != run[i].table.outbound
    ensures exists t: Tid, id: Id ::
              && t in run[i].threads && run[i + 1].table.outbound == run[i].table.outbound + [id]
              && (|| (run[i].threads[t].Requesting? && run[i].threads[t].r == Sending(id))
                  || (run[i].threads[t] == Left(id, true) && (run[i].end.state == Ready || run[i].end.state == Draining)))
  {
    var t, a := StepAt(run, i);
    var s, n := run[i], run[i + 1];
    match a {
      case OfAdmit(m) => AdmitFrame(s, t, m, n);
      case OfWait(w) => assert NextWait(s, t, w, n);
      case OfReply(p) => IdsReply(s, t, p, n);
      case OfEnd(e) => IdsEnd(s, t, e, n);
      case OfObserver(o) => ObserverFrame(s, t, o, n);
      case OfControl(c) => ControlFrame(s, c, n);
    }
  }

  predicate Withdraws(pc: Pc, id: Id) {
    pc == Leaving(id, true) || pc == Left(id, true)
  }

  predicate InvocationWaits(s: Session, t: Tid, id: Id) {
    t in s.threads && s.threads[t].Requesting? && s.threads[t].invoke && s.threads[t].r == Waiting(id)
  }

  lemma WithdrawsSince(s: Session, t: Tid, a: Step, n: Session, u: Tid, id: Id)
    requires NextStep(s, t, a, n) && u in n.threads && Withdraws(n.threads[u], id)
    ensures u in s.threads && (Withdraws(s.threads[u], id) || InvocationWaits(s, u, id))
  {
    OnlyMover(s, t, a, n);
    if u == t {
      match a {
        case OfWait(w) => assert NextWait(s, t, w, n);
        case OfControl(c) => ControlFrame(s, c, n);
        case _ =>
      }
    }
  }

  /** Only an invocation that has been sent and waited is ever cancelled. */
  lemma {:induction false} CancelledWasSent(run: seq<Session>, j: nat, t: Tid, id: Id)
    requires Run(run) && j < |run| && t in run[j].threads && Withdraws(run[j].threads[t], id)
    ensures exists i :: 0 <= i < j && InvocationWaits(run[i], t, id)
  {
    if j == 0 { assert false; }
    var u, a := StepAt(run, j - 1);
    WithdrawsSince(run[j - 1], u, a, run[j], t, id);
    if Withdraws(run[j - 1].threads[t], id) { CancelledWasSent(run, j - 1, t, id); }
  }

  // ---- Where the terminal error comes from -----------------------------------------------------------

  /** A transition to Failed begins with this error: one that is asked for from outside; a reply from the
      future; or a dispatcher's, with the error of the verdict. */
  predicate Begins(s: Session, t: Tid, n: Session, error: Error) {
    && t in s.threads && t in n.threads && !s.threads[t].Ending?
    && n.threads[t].Ending? && n.threads[t].target == Failed && n.threads[t].error == error
    && (|| s.threads[t] == Idle
        || (s.threads[t].Received? && s.threads[t].id > s.ids.highest && error == FUTURE_ID)
        || (s.threads[t].Taken? && (s.threads[t].verdict == Mismatch(error) || s.threads[t].verdict == TerminalFailure(error))))
  }

  ghost predicate BeginsHere(s: Session, n: Session, error: Error) {
    exists t :: Begins(s, t, n, error)
  }

  ghost predicate BegunBefore(run: seq<Session>, j: nat, error: Error)
    requires j < |run|
  {
    exists i | 0 <= i < j :: BeginsHere(run[i], run[i + 1], error)
  }

  predicate FailsWith(s: Session, t: Tid, error: Error) {
    t in s.threads && s.threads[t].Ending? && s.threads[t].target == Failed && s.threads[t].error == error
  }

  lemma BeginsOrGoesOn(s: Session, t: Tid, a: Step, n: Session, u: Tid, error: Error)
    requires NextStep(s, t, a, n) && FailsWith(n, u, error)
    ensures FailsWith(s, u, error) || Begins(s, u, n, error)
  {
    OnlyMover(s, t, a, n);
    if u == t {
      match a {
        case OfReply(p) => assert NextReply(s, t, p, n);
        case OfEnd(e) => assert NextEnd(s, t, e, n);
        case OfControl(c) => ControlFrame(s, c, n);
        case _ =>
      }
    }
  }

  lemma {:induction false} FailureHasBegun(run: seq<Session>, j: nat, t: Tid, error: Error)
    requires Run(run) && j < |run| && FailsWith(run[j], t, error)
    ensures BegunBefore(run, j, error)
  {
    if j == 0 { assert false; }
    var u, a := StepAt(run, j - 1);
    BeginsOrGoesOn(run[j - 1], u, a, run[j], t, error);
    if FailsWith(run[j - 1], t, error) { FailureHasBegun(run, j - 1, t, error); }
  }

  lemma OnlyFailuresSetErrors(s: Session, t: Tid, a: Step, n: Session, error: Error)
    requires NextStep(s, t, a, n) && n.end.error == Some(error)
    ensures s.end.error == Some(error) || FailsWith(s, t, error)
  {
    if !a.OfEnd? { OnlyEndsEnd(s, t, a, n); }
  }

  /** In every run the session's error is one that a transition to Failed began with: the error somebody
      failed it with, that of a reply from the future, or that of a reply that did not match. */
  lemma {:induction false} TerminalErrorHasCause(run: seq<Session>, j: nat, error: Error)
    requires Run(run) && j < |run| && run[j].end.error == Some(error)
    ensures BegunBefore(run, j, error)
  {
    if j == 0 { assert false; }
    var t, a := StepAt(run, j - 1);
    OnlyFailuresSetErrors(run[j - 1], t, a, run[j], error);
    if run[j - 1].end.error == Some(error) {
      TerminalErrorHasCause(run, j - 1, error);
    } else {
      FailureHasBegun(run, j - 1, t, error);
    }
  }

  // ---- The states, and the negotiated limit -----------------------------------------------------------

  function Stage(state: SessionState): nat {
    match state
    case Created => 0
    case Handshaking => 1
    case Ready => 2
    case Draining => 3
    case _ => 4
  }

  /** A session goes through its states in order, one at a time unless it ends. */
  lemma {:induction false} StatesAdvance(run: seq<Session>, i: nat, j: nat)
    requires Run(run) && i <= j < |run|
    ensures Stage(run[i].end.state) <= Stage(run[j].end.state)
    ensures j == i + 1 && run[j].end.state != run[i].end.state ==>
              Stage(run[j].end.state) == if Terminal(run[j].end.state) then 4 else Stage(run[i].end.state) + 1
    decreases j
  {
    if i < j {
      StatesAdvance(run, i, j - 1);
      RunInv(run, j - 1);
      var t, a := StepAt(run, j - 1);
      StateStep(run[j - 1], t, a, run[j]);
    }
  }

  lemma StateStep(s: Session, t: Tid, a: Step, n: Session)
    requires EndInv(s) && NextStep(s, t, a, n)
    ensures n.end.state == s.end.state || Stage(n.end.state) == Stage(s.end.state) + 1 || (Terminal(n.end.state) && !Terminal(s.end.state))
  {
    match a {
      case OfEnd(e) => assert EndOk(s.end, t, s.threads[t]);
      case OfControl(c) => assert NextControl(s, c, n);
      case _ => OnlyEndsEnd(s, t, a, n);
    }
  }

  /** Negotiating a lower limit breaks exactly if more permits are held than it allows. */
  lemma NegotiationBreaksExactly(run: seq<Session>, i: nat, limit: nat, n: Session)
    requires Run(run) && i < |run| && NextControl(run[i], Forget(limit), n)
    ensures n.permits.negotiation == if |PermitHolders(run[i].threads)| <= limit then Forgot(limit) else Broken
    ensures n.threads == run[i].threads && n.end == run[i].end
  {
    RunInv(run, i);
  }

  predicate Wins(s: Session, t: Tid, n: Session, id: Id) {
    && t in s.threads && t in n.threads && s.threads[t].Requesting? && s.threads[t].r.IdLoaded?
    && n.threads[t].Requesting? && n.threads[t].r == IdWon(id)
  }

  lemma {:induction false} NextGrows(run: seq<Session>, i: nat, j: nat)
    requires Run(run) && i <= j < |run|
    ensures run[i].ids.next <= run[j].ids.next && run[i].ids.highest <= run[j].ids.highest
  {
    if i < j {
      NextGrows(run, i, j - 1);
      RunInv(run, j - 1);
      var t, a := StepAt(run, j - 1);
      IdsStep(run[j - 1], t, a, run[j]);
    }
  }

  lemma WinTakesNext(s: Session, t: Tid, a: Step, n: Session, u: Tid, id: Id)
    requires IdsInv(s) && NextStep(s, t, a, n) && Wins(s, u, n, id)
    ensures id == s.ids.next && n.ids.next == id + 1 && 0 < id < MAX_ID
  {
    OnlyMover(s, t, a, n);
    assert u == t && !a.OfControl?;
    assert IdOk(s.ids, s.threads[t]);
    match a {
      case OfAdmit(m) => assert NextAdmit(s, t, m, n);
      case OfWait(w) => WaitFrame(s, t, w, n);
      case OfReply(p) => IdsReply(s, t, p, n);
      case OfEnd(e) => IdsEnd(s, t, e, n);
      case OfObserver(o) => ObserverFrame(s, t, o, n);
    }
  }

  /** No id is handed out twice in a run, and neither 0 nor the largest ever is. */
  lemma IdsNeverReused(run: seq<Session>, i: nat, j: nat, t: Tid, u: Tid, id: Id, other: Id)
    requires Run(run) && i < j && j + 1 < |run|
    requires Wins(run[i], t, run[i + 1], id) && Wins(run[j], u, run[j + 1], other)
    ensures 0 < id < other < MAX_ID
  {
    RunInv(run, i);
    RunInv(run, j);
    var v, a := StepAt(run, i);
    WinTakesNext(run[i], v, a, run[i + 1], t, id);
    var w, b := StepAt(run, j);
    WinTakesNext(run[j], w, b, run[j + 1], u, other);
    NextGrows(run, i + 1, j);
  }

  /** A reply to anything ever queued for the peer is never judged to come from the future. */
  lemma GenuineReplyIsNotFuture(run: seq<Session>, i: nat, j: nat, id: Id, t: Tid, verdict: Verdict, n: Session)
    requires Run(run) && i <= j < |run| && id in run[i].table.outbound
    requires t in run[j].threads && run[j].threads[t] == Received(id, verdict) && NextReply(run[j], t, JudgeId, n)
    ensures n.threads[t] == Judged(id, verdict)
    ensures n.end == run[j].end
  {
    RunInv(run, i);
    NextGrows(run, i, j);
  }

  /** The table never holds more requests than permits are out, and never more permits are out than
      the limit in force: the negotiated one as soon as the permits have been given up. */
  lemma CapacityBound(run: seq<Session>, i: nat)
    requires Run(run) && i < |run|
    ensures var s := run[i];
            && |s.table.pending| <= |PermitHolders(s.threads)| <= s.permits.limit
            && (s.permits.negotiation.Forgot? ==> |PermitHolders(s.threads)| <= s.permits.negotiation.limit)
  {
    RunInv(run, i);
    var s := run[i];
    forall id | id in s.table.pending
      ensures s.table.pending[id] in PermitHolders(s.threads) && OwnId(s.threads[s.table.pending[id]]) == Some(id)
    {
      assert Receives(s.threads, id, s.table.pending[id]);
    }
    AtMostOwners(s.table.pending, s.table.pending.Keys, PermitHolders(s.threads));
    assert |s.table.pending.Keys| == |s.table.pending|;
  }
}
