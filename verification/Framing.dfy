/** Messages on a pipe: each payload behind its four-octet length.  The writer and the reader actor
    run over whole streams; what one sends is what the other delivers.  Bounds and limits are looked up
    anew for every frame, as the handshake changes them. */
module Framing {
  import opened Wrappers
  import opened Bytes
  import opened Protocol
  import opened Codec

  /** A side's bounds on a frame and on a control frame. */
  datatype Bounds = Bounds(frame: nat, control: nat)

  /** The bounds in force for each frame, by its number. */
  type BoundsFor = nat -> Bounds

  type LimitsFor = nat -> Limits

  // ---- The round trip of one message ---------------------------------------------------------------

  /** A message that can be sent comes back as itself exactly if it is within the receiver's limits,
      and one within those limits can be sent in every frame that has room. */
  lemma RoundTrip(m: Message, limit: nat, semantic: Limits)
    ensures Encoded(m, limit).Ok? ==> (ParseMessage(Encoded(m, limit).value, semantic) == Ok(m) <==> Fits(m, semantic))
    ensures Fits(m, semantic) ==> (Encoded(m, limit).Ok? <==> |PutMessage(m, 0)| <= limit)
  {
    if Encoded(m, limit).Ok? && ParseMessage(PutMessage(m, 0), semantic) == Ok(m) {
      var absent := MessageSpelled(PutMessage(m, 0), semantic);
    }
    if Fits(m, semantic) {
      FitsIsSized(m, semantic);
      MessageBack(m, 0, semantic);
    }
  }

  // ---- Writer ----------------------------------------------------------------------------------------

  function LimitFor(m: Message, bounds: Bounds): nat {
    if IsControl(m) && bounds.control < bounds.frame then bounds.control else bounds.frame
  }

  /** The frame of a message, or why the writer stops the session. */
  function Frame(m: Message, bounds: Bounds): Result<Octets, Fault> {
    match Encoded(m, LimitFor(m, bounds))
    case Err(fault) => Err(fault)
    case Ok(payload) => if |payload| < U32_LIMIT then Ok(PutBytes(payload, [])) else Err(TooLarge)
  }

  /** A message goes out whole behind its length exactly if every length in it has its four octets and
      the payload is within the frame limit and, for a control message alone, within the control limit
      as well; it is too large exactly if only its size stands in the way. */
  lemma BoundsOfClass(m: Message, bounds: Bounds)
    ensures var payload, frame := PutMessage(m, 0), Frame(m, bounds);
            var within := |payload| <= bounds.frame && |payload| < U32_LIMIT && (IsControl(m) ==> |payload| <= bounds.control);
            && (frame.Ok? <==> SizedBody(m.body) && within)
            && (frame.Ok? ==> frame.value == BigEndian(4, |payload|) + payload)
            && (frame == Err(TooLarge) <==> SizedBody(m.body) && !within)
            && (frame == Err(Violation) <==> !SizedBody(m.body))
  {
    BytesIs(PutMessage(m, 0), []);
  }

  predicate Sendable(m: Message, bounds: Bounds) {
    Frame(m, bounds).Ok?
  }

  function Wrapped(payloads: seq<Octets>): Octets {
    if payloads == [] then [] else PutBytes(payloads[0], Wrapped(payloads[1..]))
  }

  function Payloads(ms: seq<Message>): (ps: seq<Octets>)
    ensures |ps| == |ms| && forall i :: 0 <= i < |ms| ==> ps[i] == PutMessage(ms[i], 0)
  {
    seq(|ms|, i requires 0 <= i < |ms| => PutMessage(ms[i], 0))
  }

  predicate FirstSendable(ms: seq<Message>, count: nat, bounds: BoundsFor)
    requires count <= |ms|
  {
    forall i :: 0 <= i < count ==> Sendable(ms[i], bounds(i))
  }

  /** The first `count` messages, framed. */
  function Sent(ms: seq<Message>, count: nat): Octets
    requires count <= |ms|
  {
    Wrapped(Payloads(ms)[..count])
  }

  /** One turn of the writer. */
  method WriteNext(ms: seq<Message>, count: nat, bounds: BoundsFor) returns (r: Result<Octets, Fault>)
    requires count < |ms| && FirstSendable(ms, count, bounds)
    ensures r == Frame(ms[count], bounds(count))
    ensures r.Ok? ==> FirstSendable(ms, count + 1, bounds) && Sent(ms, count + 1) == Sent(ms, count) + r.value
  {
    var payload :- Encode(ms[count], LimitFor(ms[count], bounds(count)));
    if |payload| >= U32_LIMIT { return Err(TooLarge); }
    BytesIs(payload, []);
    assert PutBytes(payload, []) == BigEndian(4, |payload|) + payload;
    OneMoreFrame(ms, count, bounds(count));
    return Ok(BigEndian(4, |payload|) + payload);
  }

  lemma OneMoreFrame(ms: seq<Message>, count: nat, bounds: Bounds)
    requires count < |ms| && Sendable(ms[count], bounds)
    ensures Sent(ms, count + 1) == Sent(ms, count) + Frame(ms[count], bounds).value
  {
    var ps := Payloads(ms);
    FrameIs(ms, count, bounds);
    WrappedNext(ps, count);
  }

  lemma FrameIs(ms: seq<Message>, i: nat, bounds: Bounds)
    requires i < |ms|
    ensures Frame(ms[i], bounds).Ok? ==> Frame(ms[i], bounds).value == PutBytes(Payloads(ms)[i], [])
  {
  }

  lemma WrappedNext(ps: seq<Octets>, count: nat)
    requires count < |ps|
    ensures Wrapped(ps[..count + 1]) == Wrapped(ps[..count]) + PutBytes(ps[count], [])
  {
    WrappedExtend(ps[..count], ps[count]);
    assert ps[..count + 1] == ps[..count] + [ps[count]];
  }

  /** The writer actor: it stops at the first message it cannot frame. */
  method Write(ms: seq<Message>, bounds: BoundsFor) returns (sent: Octets, count: nat, fault: Option<Fault>)
    ensures count <= |ms| && FirstSendable(ms, count, bounds)
    ensures sent == Sent(ms, count)
    ensures if fault == None then count == |ms| else count < |ms| && Frame(ms[count], bounds(count)) == Err(fault.value)
  {
    sent, count, fault := [], 0, None;
    while count < |ms|
      invariant count <= |ms| && FirstSendable(ms, count, bounds)
      invariant sent == Sent(ms, count)
    {
      var frame := WriteNext(ms, count, bounds);
      if frame.Err? { return sent, count, Some(frame.error); }
      sent := sent + frame.value;
      count := count + 1;
    }
  }

  lemma WrappedFront(ps: seq<Octets>, tail: Octets)
    requires ps != []
    ensures Wrapped(ps) + tail == PutBytes(ps[0], Wrapped(ps[1..]) + tail)
  {
    BytesFront(ps[0], Wrapped(ps[1..]), tail);
  }

  lemma {:induction false} WrappedExtend(ps: seq<Octets>, p: Octets)
    ensures Wrapped(ps + [p]) == Wrapped(ps) + PutBytes(p, [])
  {
    if ps == [] {
      assert [] + [p] == [p] && [p][1..] == [];
    } else {
      assert (ps + [p])[1..] == ps[1..] + [p];
      WrappedExtend(ps[1..], p);
      WrappedFront(ps, PutBytes(p, []));
    }
  }

  lemma JoinTwice(a: Octets, b: Octets, c: Octets)
    ensures Join(a, Join(b, c)) == a + b + c
  {
    JoinIsConcatenation(b, c);
    JoinIsConcatenation(a, b + c);
  }

  lemma BytesIs(s: Octets, rest: Octets)
    ensures PutBytes(s, rest) == BigEndian(4, |s|) + s + rest
  {
    JoinTwice(BigEndian(4, |s|), s, rest);
  }

  // ---- Reader ----------------------------------------------------------------------------------------

  function ReadFrame(stream: Octets, limit: nat): Parsed<Octets> {
    if |stream| < 4 then Bad(Closed)
    else
      var length := Value(stream[..4]);
      if length > limit then Bad(TooLarge)
      else if |stream| - 4 < length then Bad(Violation)
      else Got(stream[4..4 + length], stream[4 + length..])
  }

  /** What is handed to the session before the reader stops, and why it stops. */
  datatype Delivery<T> = Delivery(messages: seq<T>, fault: Fault)

  function Cons<T>(x: T, d: Delivery<T>): Delivery<T> {
    Delivery([x] + d.messages, d.fault)
  }

  function Prepend<T>(xs: seq<T>, d: Delivery<T>): Delivery<T> {
    Delivery(xs + d.messages, d.fault)
  }

  lemma PrependNothing<T>(d: Delivery<T>)
    ensures Prepend([], d) == d
  {
    assert [] + d.messages == d.messages;
  }

  lemma PrependNext<T>(xs: seq<T>, x: T, d: Delivery<T>)
    ensures Prepend(xs, Cons(x, d)) == Prepend(xs + [x], d)
  {
    assert xs + ([x] + d.messages) == (xs + [x]) + d.messages;
  }

  /** From the `i`th frame on. */
  function Delivered<T>(stream: Octets, i: nat, limit: nat -> nat, admit: (nat, Octets) -> Result<T, Fault>): Delivery<T>
    decreases |stream|
  {
    match ReadFrame(stream, limit(i))
    case Bad(fault) => Delivery([], fault)
    case Got(payload, rest) =>
      match admit(i, payload)
      case Err(fault) => Delivery([], fault)
      case Ok(x) => Cons(x, Delivered(rest, i + 1, limit, admit))
  }

  /** A control payload must also be within the control bound. */
  function Admission(bounds: BoundsFor, semantic: LimitsFor): (nat, Octets) -> Result<Message, Fault> {
    (i: nat, payload: Octets) =>
      if PayloadIsControl(payload) && |payload| > bounds(i).control then Err(TooLarge)
      else ParseMessage(payload, semantic(i))
  }

  function FrameLimits(bounds: BoundsFor): nat -> nat {
    (i: nat) => bounds(i).frame
  }

  /** So many messages have been handed over, and the rest is still to be read. */
  predicate ReadSoFar<T(==)>(stream: Octets, rest: Octets, xs: seq<T>, limit: nat -> nat, admit: (nat, Octets) -> Result<T, Fault>) {
    Delivered(stream, 0, limit, admit) == Prepend(xs, Delivered(rest, |xs|, limit, admit))
  }

  lemma ReadOn<T>(stream: Octets, rest: Octets, xs: seq<T>, x: T, limit: nat -> nat, admit: (nat, Octets) -> Result<T, Fault>)
    requires ReadSoFar(stream, rest, xs, limit, admit)
    requires var f := ReadFrame(rest, limit(|xs|)); f.Got? && admit(|xs|, f.value) == Ok(x)
    ensures ReadSoFar(stream, ReadFrame(rest, limit(|xs|)).rest, xs + [x], limit, admit)
  {
    PrependNext(xs, x, Delivered(ReadFrame(rest, limit(|xs|)).rest, |xs| + 1, limit, admit));
  }

  lemma ReadEnds<T>(stream: Octets, rest: Octets, xs: seq<T>, fault: Fault, limit: nat -> nat, admit: (nat, Octets) -> Result<T, Fault>)
    requires ReadSoFar(stream, rest, xs, limit, admit)
    requires var f := ReadFrame(rest, limit(|xs|)); if f.Got? then admit(|xs|, f.value) == Err(fault) else f.fault == fault
    ensures Delivered(stream, 0, limit, admit) == Delivery(xs, fault)
  {
    assert xs + [] == xs;
  }

  /** One turn of the reader, for the `i`th frame. */
  method ReadNext(rest: Octets, i: nat, bounds: BoundsFor, semantic: LimitsFor) returns (r: Result<Message, Fault>, next: Octets)
    requires |rest| <= ISIZE_MAX
    ensures var f := ReadFrame(rest, bounds(i).frame);
            match f
            case Bad(fault) => r == Err(fault)
            case Got(payload, behind) => r == Admission(bounds, semantic)(i, payload) && next == behind && |next| < |rest|
  {
    var now := bounds(i);
    var frame := ReadFrame(rest, now.frame);
    if frame.Bad? { return Err(frame.fault), []; }
    if PayloadIsControl(frame.value) && |frame.value| > now.control { return Err(TooLarge), frame.rest; }
    var m := Decode(frame.value, semantic(i));
    return m, frame.rest;
  }

  /** The reader actor. */
  method Read(stream: Octets, bounds: BoundsFor, semantic: LimitsFor) returns (d: Delivery<Message>)
    requires |stream| <= ISIZE_MAX
    ensures d == Delivered(stream, 0, FrameLimits(bounds), Admission(bounds, semantic))
  {
    ghost var limit, admit := FrameLimits(bounds), Admission(bounds, semantic);
    var rest := stream;
    var messages := [];
    PrependNothing(Delivered(stream, 0, limit, admit));
    while true
      invariant |rest| <= |stream| && ReadSoFar(stream, rest, messages, limit, admit)
      decreases |rest|
    {
      var m, next := ReadNext(rest, |messages|, bounds, semantic);
      if m.Err? {
        ReadEnds(stream, rest, messages, m.error, limit, admit);
        return Delivery(messages, m.error);
      }
      ReadOn(stream, rest, messages, m.value, limit, admit);
      messages := messages + [m.value];
      rest := next;
    }
  }

  // ---- Streams of payloads -----------------------------------------------------------------------------

  lemma FrameBack(payload: Octets, rest: Octets, limit: nat)
    requires |payload| < U32_LIMIT && |payload| <= limit
    ensures ReadFrame(PutBytes(payload, rest), limit) == Got(payload, rest)
  {
    BytesIs(payload, rest);
    assert Pow256(4) == U32_LIMIT;
    ValueOfBigEndian(4, |payload|);
    var stream := PutBytes(payload, rest);
    assert stream[..4] == BigEndian(4, |payload|);
    assert stream[4..4 + |payload|] == payload && stream[4 + |payload|..] == rest;
  }

  /** A frame that announces more than the limit is refused as too large from its length alone. */
  lemma OversizeFrame(n: nat, rest: Octets, limit: nat)
    requires limit < n < U32_LIMIT
    ensures ReadFrame(BigEndian(4, n) + rest, limit) == Bad(TooLarge)
  {
    assert Pow256(4) == U32_LIMIT;
    ValueOfBigEndian(4, n);
    assert (BigEndian(4, n) + rest)[..4] == BigEndian(4, n);
  }

  /** A frame cut short is closed within its length and a violation behind it. */
  lemma CutFrame(payload: Octets, rest: Octets, k: nat, limit: nat)
    requires |payload| < U32_LIMIT && |payload| <= limit && k < 4 + |payload|
    ensures k <= |PutBytes(payload, rest)| && ReadFrame(PutBytes(payload, rest)[..k], limit) == Bad(if k < 4 then Closed else Violation)
  {
    BytesIs(payload, rest);
    assert Pow256(4) == U32_LIMIT;
    ValueOfBigEndian(4, |payload|);
    var cut := PutBytes(payload, rest)[..k];
    if k >= 4 { assert cut[..4] == BigEndian(4, |payload|); }
  }

  /** Each payload fits a frame and is admitted as the value beside it. */
  predicate Carry<T(==)>(ps: seq<Octets>, xs: seq<T>, i: nat, limit: nat -> nat, admit: (nat, Octets) -> Result<T, Fault>) {
    |ps| == |xs| && forall j :: 0 <= j < |ps| ==> |ps[j]| < U32_LIMIT && |ps[j]| <= limit(i + j) && admit(i + j, ps[j]) == Ok(xs[j])
  }

  lemma CarryOn<T>(ps: seq<Octets>, xs: seq<T>, i: nat, limit: nat -> nat, admit: (nat, Octets) -> Result<T, Fault>)
    requires Carry(ps, xs, i, limit, admit) && ps != []
    ensures Carry(ps[1..], xs[1..], i + 1, limit, admit)
  {
    forall j | 0 <= j < |ps[1..]|
      ensures |ps[1..][j]| < U32_LIMIT && |ps[1..][j]| <= limit(i + 1 + j) && admit(i + 1 + j, ps[1..][j]) == Ok(xs[1..][j])
    {
      assert ps[1..][j] == ps[j + 1] && xs[1..][j] == xs[j + 1];
    }
  }

  lemma FirstDelivered<T>(payload: Octets, x: T, rest: Octets, i: nat, limit: nat -> nat, admit: (nat, Octets) -> Result<T, Fault>)
    requires |payload| < U32_LIMIT && |payload| <= limit(i) && admit(i, payload) == Ok(x)
    ensures Delivered(PutBytes(payload, rest), i, limit, admit) == Cons(x, Delivered(rest, i + 1, limit, admit))
  {
    FrameBack(payload, rest, limit(i));
  }

  lemma ConsIsAppend<T>(xs: seq<T>, d: Delivery<T>)
    requires xs != []
    ensures Cons(xs[0], Prepend(xs[1..], d)) == Prepend(xs, d)
  {
    assert [xs[0]] + (xs[1..] + d.messages) == xs + d.messages;
  }

  /** One payload more in front of what is delivered. */
  lemma FrontDelivered<T>(payload: Octets, xs: seq<T>, rest: Octets, d: Delivery<T>, i: nat, limit: nat -> nat, admit: (nat, Octets) -> Result<T, Fault>)
    requires xs != [] && |payload| < U32_LIMIT && |payload| <= limit(i) && admit(i, payload) == Ok(xs[0])
    requires Delivered(rest, i + 1, limit, admit) == Prepend(xs[1..], d)
    ensures Delivered(PutBytes(payload, rest), i, limit, admit) == Prepend(xs, d)
  {
    FirstDelivered(payload, xs[0], rest, i, limit, admit);
    ConsIsAppend(xs, d);
  }

  lemma {:induction false} PayloadsDelivered<T>(ps: seq<Octets>, xs: seq<T>, tail: Octets, d: Delivery<T>, i: nat, limit: nat -> nat,
                                                admit: (nat, Octets) -> Result<T, Fault>)
    requires Carry(ps, xs, i, limit, admit) && d == Delivered(tail, i + |ps|, limit, admit)
    ensures Delivered(Wrapped(ps) + tail, i, limit, admit) == Prepend(xs, d)
  {
    if ps == [] {
      assert Wrapped(ps) + tail == tail;
      PrependNothing(d);
    } else {
      CarryOn(ps, xs, i, limit, admit);
      assert i + |ps| == i + 1 + |ps[1..]|;
      PayloadsDelivered(ps[1..], xs[1..], tail, d, i + 1, limit, admit);
      WrappedFront(ps, tail);
      FrontDelivered(ps[0], xs, Wrapped(ps[1..]) + tail, d, i, limit, admit);
    }
  }

  lemma AllDelivered<T>(ps: seq<Octets>, xs: seq<T>, tail: Octets, limit: nat -> nat, admit: (nat, Octets) -> Result<T, Fault>)
    requires Carry(ps, xs, 0, limit, admit)
    ensures Delivered(Wrapped(ps) + tail, 0, limit, admit) == Prepend(xs, Delivered(tail, |xs|, limit, admit))
  {
    PayloadsDelivered(ps, xs, tail, Delivered(tail, |xs|, limit, admit), 0, limit, admit);
  }

  lemma ConsPrefix<T>(xs: seq<T>, ys: seq<T>)
    requires xs != [] && ys <= xs[1..]
    ensures [xs[0]] + ys <= xs && ([xs[0]] + ys == xs <==> ys == xs[1..])
  {
    assert xs == [xs[0]] + xs[1..];
    assert ([xs[0]] + ys)[1..] == ys;
  }

  lemma CutBehind(payload: Octets, rest: Octets, j: nat)
    requires j <= |rest|
    ensures |PutBytes(payload, rest)| == 4 + |payload| + |rest|
    ensures PutBytes(payload, rest)[..4 + |payload| + j] == PutBytes(payload, rest[..j])
  {
    BytesIs(payload, rest);
    BytesIs(payload, rest[..j]);
  }

  lemma CutFirst<T>(payload: Octets, rest: Octets, k: nat, i: nat, limit: nat -> nat, admit: (nat, Octets) -> Result<T, Fault>)
    requires |payload| < U32_LIMIT && |payload| <= limit(i) && k < 4 + |payload|
    ensures k <= |PutBytes(payload, rest)|
    ensures Delivered(PutBytes(payload, rest)[..k], i, limit, admit) == Delivery([], if k < 4 then Closed else Violation)
  {
    CutFrame(payload, rest, k, limit(i));
  }

  lemma FrontOfCut<T>(payload: Octets, xs: seq<T>, cut: Octets, whole: bool, i: nat, limit: nat -> nat, admit: (nat, Octets) -> Result<T, Fault>)
    requires xs != [] && |payload| < U32_LIMIT && |payload| <= limit(i) && admit(i, payload) == Ok(xs[0])
    requires IsBeginning(Delivered(cut, i + 1, limit, admit), xs[1..], whole)
    ensures IsBeginning(Delivered(PutBytes(payload, cut), i, limit, admit), xs, whole)
  {
    FirstDelivered(payload, xs[0], cut, i, limit, admit);
    ConsPrefix(xs, Delivered(cut, i + 1, limit, admit).messages);
  }

  lemma CutLater<T>(ps: seq<Octets>, xs: seq<T>, j: nat, i: nat, limit: nat -> nat, admit: (nat, Octets) -> Result<T, Fault>)
    requires ps != [] && Carry(ps, xs, i, limit, admit) && j <= |Wrapped(ps[1..])|
    requires IsBeginning(Delivered(Wrapped(ps[1..])[..j], i + 1, limit, admit), xs[1..], j == |Wrapped(ps[1..])|)
    ensures var k := 4 + |ps[0]| + j;
            k <= |Wrapped(ps)| && IsBeginning(Delivered(Wrapped(ps)[..k], i, limit, admit), xs, k == |Wrapped(ps)|)
  {
    var rest := Wrapped(ps[1..]);
    BytesIs(ps[0], rest);
    CutBehind(ps[0], rest, j);
    FrontOfCut(ps[0], xs, rest[..j], j == |rest|, i, limit, admit);
  }

  lemma {:induction false} PayloadsCut<T>(ps: seq<Octets>, xs: seq<T>, k: nat, i: nat, limit: nat -> nat, admit: (nat, Octets) -> Result<T, Fault>)
    requires Carry(ps, xs, i, limit, admit) && k <= |Wrapped(ps)|
    ensures IsBeginning(Delivered(Wrapped(ps)[..k], i, limit, admit), xs, k == |Wrapped(ps)|)
  {
    if ps == [] {
    } else if k < 4 + |ps[0]| {
      CutFirst(ps[0], Wrapped(ps[1..]), k, i, limit, admit);
      BytesIs(ps[0], Wrapped(ps[1..]));
    } else {
      var j := k - (4 + |ps[0]|);
      BytesIs(ps[0], Wrapped(ps[1..]));
      CarryOn(ps, xs, i, limit, admit);
      PayloadsCut(ps[1..], xs[1..], j, i + 1, limit, admit);
      CutLater(ps, xs, j, i, limit, admit);
    }
  }

  /** A beginning of what was sent, all of it exactly if the stream is whole, and a fault that says
      the stream ended. */
  predicate IsBeginning<T(==)>(d: Delivery<T>, xs: seq<T>, whole: bool) {
    d.messages <= xs && (d.messages == xs <==> whole) && (d.fault == Closed || d.fault == Violation)
  }

  lemma FrameSpelled(stream: Octets, limit: nat)
    requires ReadFrame(stream, limit).Got?
    ensures var f := ReadFrame(stream, limit);
            |f.value| <= limit && |f.value| < U32_LIMIT && stream == PutBytes(f.value, f.rest)
  {
    var f := ReadFrame(stream, limit);
    BigEndianOfValue(stream[..4]);
    ValueBound(stream[..4]);
    assert Pow256(4) == U32_LIMIT;
    BytesIs(f.value, f.rest);
    assert stream == stream[..4] + f.value + f.rest;
  }

  lemma CarryFront<T>(payload: Octets, ps: seq<Octets>, x: T, xs: seq<T>, i: nat, limit: nat -> nat, admit: (nat, Octets) -> Result<T, Fault>)
    requires |payload| < U32_LIMIT && |payload| <= limit(i) && admit(i, payload) == Ok(x) && Carry(ps, xs, i + 1, limit, admit)
    ensures Carry([payload] + ps, [x] + xs, i, limit, admit)
  {
    var qs, ys := [payload] + ps, [x] + xs;
    forall j | 0 <= j < |qs| ensures |qs[j]| < U32_LIMIT && |qs[j]| <= limit(i + j) && admit(i + j, qs[j]) == Ok(ys[j]) {
      if j > 0 { assert qs[j] == ps[j - 1] && ys[j] == xs[j - 1] && i + j == i + 1 + (j - 1); }
    }
  }

  lemma WrappedFirst(payload: Octets, ps: seq<Octets>, rest: Octets)
    requires Wrapped(ps) <= rest
    ensures Wrapped([payload] + ps) <= PutBytes(payload, rest)
  {
    assert ([payload] + ps)[1..] == ps;
    BytesIs(payload, rest);
    BytesIs(payload, Wrapped(ps));
  }

  /** Nothing is delivered that is not on the stream: whatever the stream, what is delivered is what
      the payloads it begins with are admitted as, one each and in order. */
  lemma {:induction false} NothingInvented<T>(stream: Octets, i: nat, limit: nat -> nat, admit: (nat, Octets) -> Result<T, Fault>) returns (ps: seq<Octets>)
    ensures Wrapped(ps) <= stream && Carry(ps, Delivered(stream, i, limit, admit).messages, i, limit, admit)
    decreases |stream|
  {
    ps := [];
    var f := ReadFrame(stream, limit(i));
    if f.Got? && admit(i, f.value).Ok? {
      FrameSpelled(stream, limit(i));
      var others := NothingInvented(f.rest, i + 1, limit, admit);
      ps := [f.value] + others;
      CarryFront(f.value, others, admit(i, f.value).value, Delivered(f.rest, i + 1, limit, admit).messages, i, limit, admit);
      WrappedFirst(f.value, others, f.rest);
    }
  }

  // ---- Streams of messages -----------------------------------------------------------------------------

  predicate Receivable(m: Message, from: Bounds, to: Bounds, semantic: Limits) {
    Sendable(m, from) && Fits(m, semantic) && from.frame <= to.frame && from.control <= to.control
  }

  /** Each message under the bounds and limits that are in force, on either side, when its turn comes. */
  predicate AllReceivable(ms: seq<Message>, from: BoundsFor, to: BoundsFor, semantic: LimitsFor) {
    forall i :: 0 <= i < |ms| ==> Receivable(ms[i], from(i), to(i), semantic(i))
  }

  lemma Admitted(m: Message, i: nat, from: BoundsFor, to: BoundsFor, semantic: LimitsFor)
    requires Receivable(m, from(i), to(i), semantic(i))
    ensures var payload := PutMessage(m, 0);
            |payload| < U32_LIMIT && |payload| <= FrameLimits(to)(i) && Admission(to, semantic)(i, payload) == Ok(m)
  {
    RoundTrip(m, LimitFor(m, from(i)), semantic(i));
    ControlAgrees(m, 0);
  }

  lemma AllCarry(ms: seq<Message>, from: BoundsFor, to: BoundsFor, semantic: LimitsFor)
    requires AllReceivable(ms, from, to, semantic)
    ensures Carry(Payloads(ms), ms, 0, FrameLimits(to), Admission(to, semantic))
  {
    forall i | 0 <= i < |ms|
      ensures var p := Payloads(ms)[i]; |p| < U32_LIMIT && |p| <= FrameLimits(to)(0 + i) && Admission(to, semantic)(0 + i, p) == Ok(ms[i])
    {
      assert Receivable(ms[i], from(i), to(i), semantic(i));
      Admitted(ms[i], i, from, to, semantic);
    }
  }

  /** Whatever sequence of messages is framed and concatenated, the peer delivers that sequence and
      goes on with what follows. */
  lemma StreamReadsBack(ms: seq<Message>, tail: Octets, from: BoundsFor, to: BoundsFor, semantic: LimitsFor)
    requires AllReceivable(ms, from, to, semantic)
    ensures var limit, admit := FrameLimits(to), Admission(to, semantic);
            var d := Delivered(tail, |ms|, limit, admit);
            Delivered(Wrapped(Payloads(ms)) + tail, 0, limit, admit) == Prepend(ms, d)
  {
    AllCarry(ms, from, to, semantic);
    AllDelivered(Payloads(ms), ms, tail, FrameLimits(to), Admission(to, semantic));
  }

  /** A stream cut anywhere delivers a beginning of what was sent, and the reader can tell. */
  lemma TruncatedStream(ms: seq<Message>, k: nat, from: BoundsFor, to: BoundsFor, semantic: LimitsFor)
    requires AllReceivable(ms, from, to, semantic)
    requires k <= |Wrapped(Payloads(ms))|
    ensures IsBeginning(Delivered(Wrapped(Payloads(ms))[..k], 0, FrameLimits(to), Admission(to, semantic)), ms, k == |Wrapped(Payloads(ms))|)
  {
    AllCarry(ms, from, to, semantic);
    PayloadsCut(Payloads(ms), ms, k, 0, FrameLimits(to), Admission(to, semantic));
  }
}
