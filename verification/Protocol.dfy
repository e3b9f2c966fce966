/** The wire form of the messages between the runtime and a plugin process: what every message looks
    like as octets, how octets are read, and that the two agree.  The encoder and the decoder
    themselves are in module Codec. */
module Protocol {
  import opened Wrappers
  import opened Bytes

  const U16_LIMIT: nat := 0x1_0000
  const U32_LIMIT: nat := 0x1_0000_0000
  const U64_LIMIT: nat := 0x1_0000_0000_0000_0000

  const MAX_STRING: nat := 4096
  const MAX_ITEMS: nat := 256
  const MAX_DECLARATIONS: nat := 256

  type U16 = n: nat | n < U16_LIMIT
  type U32 = n: nat | n < U32_LIMIT
  type U64 = n: nat | n < U64_LIMIT

  type Octets = seq<Byte>
  type Str = s: seq<Byte> | Utf8(s)

  // ---- Messages -------------------------------------------------------------------------------

  datatype HostFailureKind =
    | HandshakeIncompatible | ProtocolViolation | TransportClosed | ProcessExited | ProcessKilled
    | MessageTooLarge | UnsupportedFormat | UnsupportedCapability | Overloaded | Unavailable

  datatype HostError = HostError(kind: HostFailureKind, message: Str)

  datatype Details = Details(format: Str, payload: Octets)

  datatype DomainError = DomainError(code: Str, message: Str, details: Option<Details>)

  datatype WireFailure = HostSide(host: HostError) | DomainSide(domain: DomainError)

  datatype InvokeOutcome = Success(format: Str, bytes: Octets) | RemoteDomain(domain: DomainError) | HostFailure(host: HostError)

  /** Sizes are machine words of the sender; the wire has four octets for each. */
  datatype Limits = Limits(frame: nat, artifact: nat, request: nat, response: nat, inflight: nat)

  datatype Greeting = Greeting(major: U16, minor: U16, supported: U64, required: U64, limits: Limits)

  datatype Key = Key(namespace: Str, name: Str, version: U32)

  datatype Policy = Restart | Dispose

  datatype Descriptor = Descriptor(name: Str, dependencies: seq<Key>, provisions: seq<Key>, policy: Policy, revision: U64)

  datatype Declaration = Declaration(route: U64, key: Key)

  datatype Body =
    | Hello(hello: Greeting)
    | HelloAck(hello: Greeting)
    | Load(format: Str, revision: U64, payload: Octets)
    | Loaded(route: U64, descriptor: Descriptor)
    | Start(route: U64)
    | Started(invocations: seq<Declaration>)
    | DisposeRoute(route: U64)
    | Disposed
    | Shutdown
    | ShutdownAck
    | Failure(failure: WireFailure)
    | Invoke(route: U64, format: Str, bytes: Octets, remaining: U64)
    | InvokeResult(outcome: InvokeOutcome)
    | Cancel

  /** Every message carries a request id. */
  datatype Message = Message(id: U64, body: Body)

  predicate IsControl(m: Message) {
    !(m.body.Load? || m.body.Loaded? || m.body.Invoke? || m.body.InvokeResult?)
  }

  predicate PayloadIsControl(payload: Octets) {
    payload == [] || payload[0] !in {3, 4, 12, 13}
  }

  function Tag(body: Body): Byte {
    match body
    case Hello(_) => 1
    case HelloAck(_) => 2
    case Load(_, _, _) => 3
    case Loaded(_, _) => 4
    case Start(_) => 5
    case Started(_) => 6
    case DisposeRoute(_) => 7
    case Disposed => 8
    case Shutdown => 9
    case ShutdownAck => 10
    case Failure(_) => 11
    case Invoke(_, _, _, _) => 12
    case InvokeResult(_) => 13
    case Cancel => 14
  }

  function KindCode(kind: HostFailureKind): Byte {
    match kind
    case HandshakeIncompatible => 0
    case TransportClosed => 2
    case ProcessExited => 3
    case ProcessKilled => 4
    case MessageTooLarge => 5
    case UnsupportedFormat => 6
    case UnsupportedCapability => 7
    case Overloaded => 8
    case Unavailable => 9
    case _ => 1
  }

  /** Exactly the codes some kind is written with are read, each as that kind. */
  function KindOf(code: Byte): (r: Result<HostFailureKind, Fault>)
    ensures r.Ok? <==> exists kind :: KindCode(kind) == code
    ensures r.Ok? ==> KindCode(r.value) == code
    ensures r.Err? ==> r.error == Violation
  {
    match code
    case 0 => assert KindCode(HandshakeIncompatible) == code; Ok(HandshakeIncompatible)
    case 1 => assert KindCode(ProtocolViolation) == code; Ok(ProtocolViolation)
    case 2 => assert KindCode(TransportClosed) == code; Ok(TransportClosed)
    case 3 => assert KindCode(ProcessExited) == code; Ok(ProcessExited)
    case 4 => assert KindCode(ProcessKilled) == code; Ok(ProcessKilled)
    case 5 => assert KindCode(MessageTooLarge) == code; Ok(MessageTooLarge)
    case 6 => assert KindCode(UnsupportedFormat) == code; Ok(UnsupportedFormat)
    case 7 => assert KindCode(UnsupportedCapability) == code; Ok(UnsupportedCapability)
    case 8 => assert KindCode(Overloaded) == code; Ok(Overloaded)
    case 9 => assert KindCode(Unavailable) == code; Ok(Unavailable)
    case _ => Err(Violation)
  }

  // ---- What a message looks like: each function puts a value in front of the octets that follow --

  /** Concatenation, unfolded one octet at a time. */
  function Join(s: Octets, rest: Octets): Octets {
    if s == [] then rest else [s[0]] + Join(s[1..], rest)
  }

  lemma {:induction false} JoinIsConcatenation(s: Octets, rest: Octets)
    ensures Join(s, rest) == s + rest
  {
    if s != [] {
      JoinIsConcatenation(s[1..], rest);
      assert s == [s[0]] + s[1..];
    }
  }

  function PutU8(n: Byte, rest: Octets): Octets {
    [n] + rest
  }

  function PutInt(width: nat, n: nat, rest: Octets): Octets {
    Join(BigEndian(width, n), rest)
  }

  function PutBytes(s: Octets, rest: Octets): Octets {
    PutInt(4, |s|, Join(s, rest))
  }

  function PutAll<T>(put: (T, Octets) -> Octets, xs: seq<T>, rest: Octets): Octets {
    if xs == [] then rest else put(xs[0], PutAll(put, xs[1..], rest))
  }

  /** A counted array. */
  function PutList<T>(put: (T, Octets) -> Octets, xs: seq<T>, rest: Octets): Octets {
    PutInt(4, |xs|, PutAll(put, xs, rest))
  }

  function PutLimits(l: Limits, rest: Octets): Octets {
    PutInt(4, l.frame, PutInt(4, l.artifact, PutInt(4, l.request, PutInt(4, l.response, PutInt(4, l.inflight, rest)))))
  }

  function PutGreeting(g: Greeting, rest: Octets): Octets {
    PutInt(2, g.major, PutInt(2, g.minor, PutInt(8, g.supported, PutInt(8, g.required, PutLimits(g.limits, rest)))))
  }

  function PutKey(k: Key, rest: Octets): Octets {
    PutBytes(k.namespace, PutBytes(k.name, PutInt(4, k.version, rest)))
  }

  function PutDeclaration(d: Declaration, rest: Octets): Octets {
    PutInt(8, d.route, PutKey(d.key, rest))
  }

  function PolicyCode(policy: Policy): Byte {
    if policy == Restart then 0 else 1
  }

  function PutPolicy(policy: Policy, revision: U64, rest: Octets): Octets {
    PutU8(PolicyCode(policy), PutInt(8, revision, rest))
  }

  function PutDescriptor(d: Descriptor, rest: Octets): Octets {
    PutBytes(d.name, PutList(PutKey, d.dependencies, PutList(PutKey, d.provisions, PutPolicy(d.policy, d.revision, rest))))
  }

  function PutHost(e: HostError, rest: Octets): Octets {
    PutU8(KindCode(e.kind), PutBytes(e.message, rest))
  }

  /** `absent` is the presence octet where there are no details; the encoder writes 0. */
  function PutDomain(e: DomainError, absent: Byte, rest: Octets): Octets {
    PutBytes(e.code, PutBytes(e.message,
      match e.details
      case None => PutU8(absent, rest)
      case Some(d) => PutU8(1, PutBytes(d.format, PutBytes(d.payload, rest)))))
  }

  function PutLoad(format: Str, revision: U64, payload: Octets, rest: Octets): Octets {
    PutBytes(format, PutInt(8, revision, PutBytes(payload, rest)))
  }

  function PutLoaded(route: U64, descriptor: Descriptor, rest: Octets): Octets {
    PutInt(8, route, PutDescriptor(descriptor, rest))
  }

  function PutInvoke(route: U64, format: Str, bytes: Octets, remaining: U64, rest: Octets): Octets {
    PutInt(8, route, PutBytes(format, PutBytes(bytes, PutInt(8, remaining, rest))))
  }

  function PutFailure(x: WireFailure, absent: Byte, rest: Octets): Octets {
    match x
    case HostSide(e) => PutU8(0, PutHost(e, rest))
    case DomainSide(e) => PutU8(1, PutDomain(e, absent, rest))
  }

  function PutOutcome(x: InvokeOutcome, absent: Byte, rest: Octets): Octets {
    match x
    case Success(format, bytes) => PutU8(0, PutBytes(format, PutBytes(bytes, rest)))
    case RemoteDomain(e) => PutU8(1, PutDomain(e, absent, rest))
    case HostFailure(e) => PutU8(2, PutHost(e, rest))
  }

  function PutBody(body: Body, absent: Byte, rest: Octets): Octets {
    match body
    case Hello(g) => PutGreeting(g, rest)
    case HelloAck(g) => PutGreeting(g, rest)
    case Load(format, revision, payload) => PutLoad(format, revision, payload, rest)
    case Loaded(route, descriptor) => PutLoaded(route, descriptor, rest)
    case Start(route) => PutInt(8, route, rest)
    case Started(ds) => PutList(PutDeclaration, ds, rest)
    case DisposeRoute(route) => PutInt(8, route, rest)
    case Disposed => rest
    case Shutdown => rest
    case ShutdownAck => rest
    case Failure(x) => PutFailure(x, absent, rest)
    case Invoke(route, format, bytes, remaining) => PutInvoke(route, format, bytes, remaining, rest)
    case InvokeResult(x) => PutOutcome(x, absent, rest)
    case Cancel => rest
  }

  function PutMessage(m: Message, absent: Byte): Octets {
    PutU8(Tag(m.body), PutInt(8, m.id, PutBody(m.body, absent, [])))
  }

  // ---- Which messages can be sent, and which are accepted --------------------------------------

  predicate FitsText(s: Octets) {
    |s| <= MAX_STRING
  }

  predicate FitsKey(k: Key) {
    FitsText(k.namespace) && FitsText(k.name)
  }

  predicate FitsDeclaration(d: Declaration) {
    FitsKey(d.key)
  }

  predicate FitsLimits(l: Limits) {
    l.frame < U32_LIMIT && l.artifact < U32_LIMIT && l.request < U32_LIMIT && l.response < U32_LIMIT && l.inflight < U32_LIMIT
  }

  predicate FitsDescriptor(d: Descriptor) {
    && FitsText(d.name)
    && |d.dependencies| <= MAX_ITEMS && |d.provisions| <= MAX_ITEMS
    && (forall k <- d.dependencies :: FitsKey(k))
    && (forall k <- d.provisions :: FitsKey(k))
  }

  predicate FitsPayload(s: Octets, limit: nat) {
    |s| <= limit && |s| < U32_LIMIT
  }

  predicate FitsDomain(e: DomainError, limit: nat) {
    && FitsText(e.code) && FitsText(e.message)
    && (e.details.Some? ==> FitsText(e.details.value.format) && FitsPayload(e.details.value.payload, limit))
  }

  predicate FitsFailure(x: WireFailure, limit: nat) {
    match x
    case HostSide(e) => FitsText(e.message)
    case DomainSide(e) => FitsDomain(e, limit)
  }

  predicate FitsOutcome(x: InvokeOutcome, limit: nat) {
    match x
    case Success(format, bytes) => FitsText(format) && FitsPayload(bytes, limit)
    case RemoteDomain(e) => FitsDomain(e, limit)
    case HostFailure(e) => FitsText(e.message)
  }

  predicate FitsBody(body: Body, semantic: Limits) {
    match body
    case Hello(g) => FitsLimits(g.limits)
    case HelloAck(g) => FitsLimits(g.limits)
    case Load(format, _, payload) => FitsText(format) && FitsPayload(payload, semantic.artifact)
    case Loaded(_, descriptor) => FitsDescriptor(descriptor)
    case Started(ds) => |ds| <= MAX_DECLARATIONS && forall d <- ds :: FitsDeclaration(d)
    case Failure(x) => FitsFailure(x, semantic.response)
    case Invoke(_, format, bytes, _) => FitsText(format) && FitsPayload(bytes, semantic.request)
    case InvokeResult(x) => FitsOutcome(x, semantic.response)
    case _ => true
  }

  /** Within the string, item and semantic limits of the receiver. */
  predicate Fits(m: Message, semantic: Limits) {
    FitsBody(m.body, semantic)
  }

  // ---- Every length has its four octets ---------------------------------------------------------

  predicate Sized(s: Octets) {
    |s| < U32_LIMIT
  }

  predicate SizedKey(k: Key) {
    Sized(k.namespace) && Sized(k.name)
  }

  predicate SizedKeys(ks: seq<Key>) {
    forall i :: 0 <= i < |ks| ==> SizedKey(ks[i])
  }

  predicate SizedDeclarations(ds: seq<Declaration>) {
    forall i :: 0 <= i < |ds| ==> SizedKey(ds[i].key)
  }

  predicate SizedDescriptor(d: Descriptor) {
    && Sized(d.name) && |d.dependencies| < U32_LIMIT && |d.provisions| < U32_LIMIT
    && SizedKeys(d.dependencies) && SizedKeys(d.provisions)
  }

  predicate SizedFailure(x: WireFailure) {
    match x
    case HostSide(e) => Sized(e.message)
    case DomainSide(e) => SizedDomain(e)
  }

  predicate SizedOutcome(x: InvokeOutcome) {
    match x
    case Success(format, bytes) => Sized(format) && Sized(bytes)
    case RemoteDomain(e) => SizedDomain(e)
    case HostFailure(e) => Sized(e.message)
  }

  predicate SizedDomain(e: DomainError) {
    && Sized(e.code) && Sized(e.message)
    && (e.details.Some? ==> Sized(e.details.value.format) && Sized(e.details.value.payload))
  }

  predicate SizedBody(body: Body) {
    match body
    case Hello(g) => FitsLimits(g.limits)
    case HelloAck(g) => FitsLimits(g.limits)
    case Load(format, _, payload) => Sized(format) && Sized(payload)
    case Loaded(_, d) => SizedDescriptor(d)
    case Started(ds) => |ds| < U32_LIMIT && SizedDeclarations(ds)
    case Failure(x) => SizedFailure(x)
    case Invoke(_, format, bytes, _) => Sized(format) && Sized(bytes)
    case InvokeResult(x) => SizedOutcome(x)
    case _ => true
  }

  // ---- How octets are read ---------------------------------------------------------------------

  datatype Fault = Violation | TooLarge | Closed

  datatype Parsed<+T> = Got(value: T, rest: Octets) | Bad(fault: Fault)

  function ParseInt(width: nat, b: Octets): Parsed<nat> {
    if |b| < width then Bad(Violation)
    else Got(Value(b[..width]), b[width..])
  }

  lemma ParseIntBound(width: nat, b: Octets)
    ensures ParseInt(width, b).Got? ==> ParseInt(width, b).value < Pow256(width)
  {
    if |b| >= width { ValueBound(b[..width]); }
  }

  function ParseU8(b: Octets): Parsed<Byte> {
    if b == [] then Bad(Violation) else Got(b[0], b[1..])
  }

  function ParseU16(b: Octets): Parsed<U16> {
    ParseIntBound(2, b);
    assert Pow256(2) == U16_LIMIT;
    match ParseInt(2, b) case Bad(f) => Bad(f) case Got(n, r) => Got(n, r)
  }

  function ParseU32(b: Octets): Parsed<U32> {
    ParseIntBound(4, b);
    assert Pow256(4) == U32_LIMIT;
    match ParseInt(4, b) case Bad(f) => Bad(f) case Got(n, r) => Got(n, r)
  }

  function ParseU64(b: Octets): Parsed<U64> {
    ParseIntBound(8, b);
    assert Pow256(8) == U64_LIMIT;
    match ParseInt(8, b) case Bad(f) => Bad(f) case Got(n, r) => Got(n, r)
  }

  function ParseBytes(b: Octets, limit: nat): Parsed<Octets> {
    match ParseU32(b)
    case Bad(f) => Bad(f)
    case Got(n, r) =>
      if n > limit then Bad(TooLarge) else if |r| < n then Bad(Violation)
      else Got(r[..n], r[n..])
  }

  function ParseText(b: Octets): Parsed<Str> {
    match ParseBytes(b, MAX_STRING)
    case Bad(f) => Bad(f)
    case Got(s, r) => if Utf8(s) then Got(s, r) else Bad(Violation)
  }

  function ParseAll<T>(parse: Octets -> Parsed<T>, count: nat, b: Octets): Parsed<seq<T>> {
    if count == 0 then Got([], b) else
    match parse(b) case Bad(f) => Bad(f) case Got(x, b1) =>
    match ParseAll(parse, count - 1, b1) case Bad(f) => Bad(f) case Got(xs, b2) =>
    Got([x] + xs, b2)
  }

  function ParseList<T>(parse: Octets -> Parsed<T>, max: nat, b: Octets): Parsed<seq<T>> {
    match ParseU32(b) case Bad(f) => Bad(f) case Got(count, b1) =>
    if count > max then Bad(TooLarge) else ParseAll(parse, count, b1)
  }

  function ParseLimits(b: Octets): Parsed<Limits> {
    match ParseU32(b) case Bad(f) => Bad(f) case Got(frame, b1) =>
    match ParseU32(b1) case Bad(f) => Bad(f) case Got(artifact, b2) =>
    match ParseU32(b2) case Bad(f) => Bad(f) case Got(request, b3) =>
    match ParseU32(b3) case Bad(f) => Bad(f) case Got(response, b4) =>
    match ParseU32(b4) case Bad(f) => Bad(f) case Got(inflight, b5) =>
    Got(Limits(frame, artifact, request, response, inflight), b5)
  }

  function ParseGreeting(b: Octets): Parsed<Greeting> {
    match ParseU16(b) case Bad(f) => Bad(f) case Got(major, b1) =>
    match ParseU16(b1) case Bad(f) => Bad(f) case Got(minor, b2) =>
    match ParseU64(b2) case Bad(f) => Bad(f) case Got(supported, b3) =>
    match ParseU64(b3) case Bad(f) => Bad(f) case Got(required, b4) =>
    match ParseLimits(b4) case Bad(f) => Bad(f) case Got(limits, b5) =>
    Got(Greeting(major, minor, supported, required, limits), b5)
  }

  function ParseKey(b: Octets): Parsed<Key> {
    match ParseText(b) case Bad(f) => Bad(f) case Got(namespace, b1) =>
    match ParseText(b1) case Bad(f) => Bad(f) case Got(name, b2) =>
    match ParseU32(b2) case Bad(f) => Bad(f) case Got(version, b3) =>
    Got(Key(namespace, name, version), b3)
  }

  function ParseDeclaration(b: Octets): Parsed<Declaration> {
    match ParseU64(b) case Bad(f) => Bad(f) case Got(route, b1) =>
    match ParseKey(b1) case Bad(f) => Bad(f) case Got(key, b2) =>
    Got(Declaration(route, key), b2)
  }

  function ParsePolicy(b: Octets): Parsed<(Policy, U64)> {
    match ParseU8(b) case Bad(f) => Bad(f) case Got(policy, b1) =>
    if policy > 1 then Bad(Violation) else
    match ParseU64(b1) case Bad(f) => Bad(f) case Got(revision, b2) =>
    Got((if policy == 0 then Restart else Dispose, revision), b2)
  }

  function ParseDescriptor(b: Octets): Parsed<Descriptor> {
    match ParseText(b) case Bad(f) => Bad(f) case Got(name, b1) =>
    match ParseList(ParseKey, MAX_ITEMS, b1) case Bad(f) => Bad(f) case Got(dependencies, b2) =>
    match ParseList(ParseKey, MAX_ITEMS, b2) case Bad(f) => Bad(f) case Got(provisions, b3) =>
    match ParsePolicy(b3) case Bad(f) => Bad(f) case Got(last, b4) =>
    Got(Descriptor(name, dependencies, provisions, last.0, last.1), b4)
  }

  function ParseHost(b: Octets): Parsed<HostError> {
    match ParseU8(b) case Bad(f) => Bad(f) case Got(code, b1) =>
    match KindOf(code) case Err(f) => Bad(f) case Ok(kind) =>
    match ParseText(b1) case Bad(f) => Bad(f) case Got(message, b2) =>
    Got(HostError(kind, message), b2)
  }

  /** Details are read only behind a presence octet of 1; every other octet means none. */
  function ParseDomain(b: Octets, limit: nat): Parsed<DomainError> {
    match ParseText(b) case Bad(f) => Bad(f) case Got(code, b1) =>
    match ParseText(b1) case Bad(f) => Bad(f) case Got(message, b2) =>
    match ParseU8(b2) case Bad(f) => Bad(f) case Got(flag, b3) =>
    if flag != 1 then Got(DomainError(code, message, None), b3) else
    match ParseText(b3) case Bad(f) => Bad(f) case Got(format, b4) =>
    match ParseBytes(b4, limit) case Bad(f) => Bad(f) case Got(payload, b5) =>
    Got(DomainError(code, message, Some(Details(format, payload))), b5)
  }

  function ParseFailure(b: Octets, limit: nat): Parsed<WireFailure> {
    match ParseU8(b) case Bad(f) => Bad(f) case Got(category, b1) =>
    if category == 0 then match ParseHost(b1) case Bad(f) => Bad(f) case Got(e, b2) => Got(HostSide(e), b2)
    else if category == 1 then match ParseDomain(b1, limit) case Bad(f) => Bad(f) case Got(e, b2) => Got(DomainSide(e), b2)
    else Bad(Violation)
  }

  function ParseOutcome(b: Octets, limit: nat): Parsed<InvokeOutcome> {
    match ParseU8(b) case Bad(f) => Bad(f) case Got(category, b1) =>
    if category == 0 then
      match ParseText(b1) case Bad(f) => Bad(f) case Got(format, b2) =>
      match ParseBytes(b2, limit) case Bad(f) => Bad(f) case Got(bytes, b3) =>
      Got(Success(format, bytes), b3)
    else if category == 1 then match ParseDomain(b1, limit) case Bad(f) => Bad(f) case Got(e, b2) => Got(RemoteDomain(e), b2)
    else if category == 2 then match ParseHost(b1) case Bad(f) => Bad(f) case Got(e, b2) => Got(HostFailure(e), b2)
    else Bad(Violation)
  }

  function ParseLoad(b: Octets, limit: nat): Parsed<Body> {
    match ParseText(b) case Bad(f) => Bad(f) case Got(format, b1) =>
    match ParseU64(b1) case Bad(f) => Bad(f) case Got(revision, b2) =>
    match ParseBytes(b2, limit) case Bad(f) => Bad(f) case Got(payload, b3) =>
    Got(Load(format, revision, payload), b3)
  }

  function ParseInvoke(b: Octets, limit: nat): Parsed<Body> {
    match ParseU64(b) case Bad(f) => Bad(f) case Got(route, b1) =>
    match ParseText(b1) case Bad(f) => Bad(f) case Got(format, b2) =>
    match ParseBytes(b2, limit) case Bad(f) => Bad(f) case Got(bytes, b3) =>
    match ParseU64(b3) case Bad(f) => Bad(f) case Got(remaining, b4) =>
    Got(Invoke(route, format, bytes, remaining), b4)
  }

  function ParseLoaded(b: Octets): Parsed<Body> {
    match ParseU64(b) case Bad(f) => Bad(f) case Got(route, b1) =>
    match ParseDescriptor(b1) case Bad(f) => Bad(f) case Got(descriptor, b2) =>
    Got(Loaded(route, descriptor), b2)
  }

  function ParseBody(tag: Byte, b: Octets, semantic: Limits): Parsed<Body> {
    if tag == 3 then ParseLoad(b, semantic.artifact)
    else if tag == 4 then ParseLoaded(b)
    else if tag == 12 then ParseInvoke(b, semantic.request)
    else ParseOther(tag, b, semantic)
  }

  function ParseOther(tag: Byte, b: Octets, semantic: Limits): Parsed<Body> {
    match tag
    case 1 => (match ParseGreeting(b) case Bad(f) => Bad(f) case Got(g, r) => Got(Hello(g), r))
    case 2 => (match ParseGreeting(b) case Bad(f) => Bad(f) case Got(g, r) => Got(HelloAck(g), r))
    case 5 => (match ParseU64(b) case Bad(f) => Bad(f) case Got(route, r) => Got(Start(route), r))
    case 6 => (match ParseList(ParseDeclaration, MAX_DECLARATIONS, b) case Bad(f) => Bad(f) case Got(ds, r) => Got(Started(ds), r))
    case 7 => (match ParseU64(b) case Bad(f) => Bad(f) case Got(route, r) => Got(DisposeRoute(route), r))
    case 8 => Got(Disposed, b)
    case 9 => Got(Shutdown, b)
    case 10 => Got(ShutdownAck, b)
    case 11 => (match ParseFailure(b, semantic.response) case Bad(f) => Bad(f) case Got(x, r) => Got(Failure(x), r))
    case 13 => (match ParseOutcome(b, semantic.response) case Bad(f) => Bad(f) case Got(x, r) => Got(InvokeResult(x), r))
    case 14 => Got(Cancel, b)
    case _ => Bad(Violation)
  }

  /** A whole payload: tag, id, body, and nothing after it. */
  function ParseMessage(b: Octets, semantic: Limits): Result<Message, Fault> {
    match ParseU8(b) case Bad(f) => Err(f) case Got(tag, b1) =>
    match ParseU64(b1) case Bad(f) => Err(f) case Got(id, b2) =>
    match ParseBody(tag, b2, semantic) case Bad(f) => Err(f) case Got(body, b3) =>
    if b3 == [] then Ok(Message(id, body)) else Err(Violation)
  }

  // ---- What is put is read back -----------------------------------------------------------------

  lemma IntBack(width: nat, n: nat, rest: Octets)
    requires n < Pow256(width)
    ensures ParseInt(width, PutInt(width, n, rest)) == Got(n, rest)
  {
    var s := BigEndian(width, n);
    JoinIsConcatenation(s, rest);
    ValueOfBigEndian(width, n);
    assert (s + rest)[..width] == s && (s + rest)[width..] == rest;
  }

  lemma U8Back(n: Byte, rest: Octets)
    ensures ParseU8(PutU8(n, rest)) == Got(n, rest)
  {
  }

  lemma U16Back(n: U16, rest: Octets)
    ensures ParseU16(PutInt(2, n, rest)) == Got(n, rest)
  {
    assert Pow256(2) == U16_LIMIT;
    IntBack(2, n, rest);
  }

  lemma U32Back(n: nat, rest: Octets)
    requires n < U32_LIMIT
    ensures ParseU32(PutInt(4, n, rest)) == Got(n, rest)
  {
    assert Pow256(4) == U32_LIMIT;
    IntBack(4, n, rest);
  }

  lemma U64Back(n: U64, rest: Octets)
    ensures ParseU64(PutInt(8, n, rest)) == Got(n, rest)
  {
    assert Pow256(8) == U64_LIMIT;
    IntBack(8, n, rest);
  }

  /** What a reader within limits makes of a value: the value, or a refusal for its size. */
  function Within<T>(fits: bool, value: T, rest: Octets): Parsed<T> {
    if fits then Got(value, rest) else Bad(TooLarge)
  }

  lemma BytesBack(s: Octets, rest: Octets, limit: nat)
    requires Sized(s)
    ensures ParseBytes(PutBytes(s, rest), limit) == Within(FitsPayload(s, limit), s, rest)
  {
    U32Back(|s|, Join(s, rest));
    JoinIsConcatenation(s, rest);
    assert (s + rest)[..|s|] == s && (s + rest)[|s|..] == rest;
  }

  lemma TextBack(s: Str, rest: Octets)
    requires Sized(s)
    ensures ParseText(PutBytes(s, rest)) == Within(FitsText(s), s, rest)
  {
    BytesBack(s, rest, MAX_STRING);
  }

  predicate All<T(==)>(fits: T -> bool, xs: seq<T>) {
    forall x <- xs :: fits(x)
  }

  lemma {:induction false} AllBack<T>(put: (T, Octets) -> Octets, parse: Octets -> Parsed<T>, fits: T -> bool, xs: seq<T>, rest: Octets)
    requires forall x, r :: x in xs ==> parse(put(x, r)) == Within(fits(x), x, r)
    ensures ParseAll(parse, |xs|, PutAll(put, xs, rest)) == Within(All(fits, xs), xs, rest)
  {
    if xs != [] {
      AllBack(put, parse, fits, xs[1..], rest);
      var b := put(xs[0], PutAll(put, xs[1..], rest));
      assert parse(b) == Within(fits(xs[0]), xs[0], PutAll(put, xs[1..], rest));
      assert xs == [xs[0]] + xs[1..];
      assert All(fits, xs) == (fits(xs[0]) && All(fits, xs[1..]));
    }
  }

  lemma ListBack<T>(put: (T, Octets) -> Octets, parse: Octets -> Parsed<T>, fits: T -> bool, xs: seq<T>, max: nat, rest: Octets)
    requires |xs| < U32_LIMIT && forall x, r :: x in xs ==> parse(put(x, r)) == Within(fits(x), x, r)
    ensures ParseList(parse, max, PutList(put, xs, rest)) == Within(|xs| <= max && All(fits, xs), xs, rest)
  {
    U32Back(|xs|, PutAll(put, xs, rest));
    AllBack(put, parse, fits, xs, rest);
  }

  lemma LimitsBack(l: Limits, rest: Octets)
    requires FitsLimits(l)
    ensures ParseLimits(PutLimits(l, rest)) == Got(l, rest)
  {
    var b4 := PutInt(4, l.inflight, rest);
    var b3 := PutInt(4, l.response, b4);
    var b2 := PutInt(4, l.request, b3);
    var b1 := PutInt(4, l.artifact, b2);
    U32Back(l.frame, b1);
    U32Back(l.artifact, b2);
    U32Back(l.request, b3);
    U32Back(l.response, b4);
    U32Back(l.inflight, rest);
  }

  lemma GreetingBack(g: Greeting, rest: Octets)
    requires FitsLimits(g.limits)
    ensures ParseGreeting(PutGreeting(g, rest)) == Got(g, rest)
  {
    var b4 := PutLimits(g.limits, rest);
    var b3 := PutInt(8, g.required, b4);
    var b2 := PutInt(8, g.supported, b3);
    U16Back(g.major, PutInt(2, g.minor, b2));
    U16Back(g.minor, b2);
    U64Back(g.supported, b3);
    U64Back(g.required, b4);
    LimitsBack(g.limits, rest);
  }

  lemma KeyBack(k: Key, rest: Octets)
    requires SizedKey(k)
    ensures ParseKey(PutKey(k, rest)) == Within(FitsKey(k), k, rest)
  {
    var b2 := PutInt(4, k.version, rest);
    TextBack(k.namespace, PutBytes(k.name, b2));
    TextBack(k.name, b2);
    U32Back(k.version, rest);
  }

  lemma DeclarationBack(d: Declaration, rest: Octets)
    requires SizedKey(d.key)
    ensures ParseDeclaration(PutDeclaration(d, rest)) == Within(FitsDeclaration(d), d, rest)
  {
    U64Back(d.route, PutKey(d.key, rest));
    KeyBack(d.key, rest);
  }

  lemma KeyListBack(ks: seq<Key>, rest: Octets)
    requires |ks| < U32_LIMIT && SizedKeys(ks)
    ensures ParseList(ParseKey, MAX_ITEMS, PutList(PutKey, ks, rest)) == Within(|ks| <= MAX_ITEMS && All(FitsKey, ks), ks, rest)
  {
    forall k, r | k in ks ensures ParseKey(PutKey(k, r)) == Within(FitsKey(k), k, r) { KeyBack(k, r); }
    ListBack(PutKey, ParseKey, FitsKey, ks, MAX_ITEMS, rest);
  }

  lemma DeclarationListBack(ds: seq<Declaration>, rest: Octets)
    requires |ds| < U32_LIMIT && SizedDeclarations(ds)
    ensures ParseList(ParseDeclaration, MAX_DECLARATIONS, PutList(PutDeclaration, ds, rest))
            == Within(|ds| <= MAX_DECLARATIONS && All(FitsDeclaration, ds), ds, rest)
  {
    forall d, r | d in ds ensures ParseDeclaration(PutDeclaration(d, r)) == Within(FitsDeclaration(d), d, r) { DeclarationBack(d, r); }
    ListBack(PutDeclaration, ParseDeclaration, FitsDeclaration, ds, MAX_DECLARATIONS, rest);
  }

  lemma PolicyBack(policy: Policy, revision: U64, rest: Octets)
    ensures ParsePolicy(PutPolicy(policy, revision, rest)) == Got((policy, revision), rest)
  {
    U8Back(PolicyCode(policy), PutInt(8, revision, rest));
    U64Back(revision, rest);
  }

  lemma DescriptorBack(d: Descriptor, rest: Octets)
    requires SizedDescriptor(d)
    ensures ParseDescriptor(PutDescriptor(d, rest)) == Within(FitsDescriptor(d), d, rest)
  {
    var b3 := PutPolicy(d.policy, d.revision, rest);
    var b2 := PutList(PutKey, d.provisions, b3);
    TextBack(d.name, PutList(PutKey, d.dependencies, b2));
    KeyListBack(d.dependencies, b2);
    KeyListBack(d.provisions, b3);
    PolicyBack(d.policy, d.revision, rest);
  }

  lemma HostBack(e: HostError, rest: Octets)
    requires Sized(e.message)
    ensures ParseHost(PutHost(e, rest)) == Within(FitsText(e.message), e, rest)
  {
    U8Back(KindCode(e.kind), PutBytes(e.message, rest));
    TextBack(e.message, rest);
  }

  lemma DomainBack(e: DomainError, absent: Byte, rest: Octets, limit: nat)
    requires SizedDomain(e) && absent != 1
    ensures ParseDomain(PutDomain(e, absent, rest), limit) == Within(FitsDomain(e, limit), e, rest)
  {
    match e.details {
      case None =>
        TextBack(e.code, PutBytes(e.message, PutU8(absent, rest)));
        TextBack(e.message, PutU8(absent, rest));
        U8Back(absent, rest);
      case Some(d) =>
        var b4 := PutBytes(d.payload, rest);
        var b3 := PutBytes(d.format, b4);
        TextBack(e.code, PutBytes(e.message, PutU8(1, b3)));
        TextBack(e.message, PutU8(1, b3));
        U8Back(1, b3);
        TextBack(d.format, b4);
        BytesBack(d.payload, rest, limit);
    }
  }

  lemma FailureBack(x: WireFailure, absent: Byte, rest: Octets, limit: nat)
    requires SizedFailure(x) && absent != 1
    ensures ParseFailure(PutFailure(x, absent, rest), limit) == Within(FitsFailure(x, limit), x, rest)
  {
    match x {
      case HostSide(e) => U8Back(0, PutHost(e, rest)); HostBack(e, rest);
      case DomainSide(e) => U8Back(1, PutDomain(e, absent, rest)); DomainBack(e, absent, rest, limit);
    }
  }

  lemma OutcomeBack(x: InvokeOutcome, absent: Byte, rest: Octets, limit: nat)
    requires SizedOutcome(x) && absent != 1
    ensures ParseOutcome(PutOutcome(x, absent, rest), limit) == Within(FitsOutcome(x, limit), x, rest)
  {
    match x {
      case Success(format, bytes) =>
        U8Back(0, PutBytes(format, PutBytes(bytes, rest)));
        TextBack(format, PutBytes(bytes, rest));
        BytesBack(bytes, rest, limit);
      case RemoteDomain(e) => U8Back(1, PutDomain(e, absent, rest)); DomainBack(e, absent, rest, limit);
      case HostFailure(e) => U8Back(2, PutHost(e, rest)); HostBack(e, rest);
    }
  }

  lemma LoadBack(body: Body, rest: Octets, semantic: Limits)
    requires body.Load? && SizedBody(body)
    ensures ParseLoad(PutBody(body, 0, rest), semantic.artifact) == Within(FitsBody(body, semantic), body, rest)
  {
    var b2 := PutBytes(body.payload, rest);
    TextBack(body.format, PutInt(8, body.revision, b2));
    U64Back(body.revision, b2);
    BytesBack(body.payload, rest, semantic.artifact);
  }

  lemma InvokeBack(body: Body, rest: Octets, semantic: Limits)
    requires body.Invoke? && SizedBody(body)
    ensures ParseInvoke(PutBody(body, 0, rest), semantic.request) == Within(FitsBody(body, semantic), body, rest)
  {
    var b3 := PutInt(8, body.remaining, rest);
    var b2 := PutBytes(body.bytes, b3);
    U64Back(body.route, PutBytes(body.format, b2));
    TextBack(body.format, b2);
    BytesBack(body.bytes, b3, semantic.request);
    U64Back(body.remaining, rest);
  }

  lemma LoadedBack(body: Body, rest: Octets)
    requires body.Loaded? && SizedDescriptor(body.descriptor)
    ensures ParseLoaded(PutBody(body, 0, rest)) == Within(FitsDescriptor(body.descriptor), body, rest)
  {
    U64Back(body.route, PutDescriptor(body.descriptor, rest));
    DescriptorBack(body.descriptor, rest);
  }

  lemma FailureStep(b: Octets, fits: bool, x: WireFailure, rest: Octets, semantic: Limits)
    requires ParseFailure(b, semantic.response) == Within(fits, x, rest)
    ensures ParseBody(11, b, semantic) == Within(fits, Failure(x), rest)
  {
  }

  lemma OutcomeStep(b: Octets, fits: bool, x: InvokeOutcome, rest: Octets, semantic: Limits)
    requires ParseOutcome(b, semantic.response) == Within(fits, x, rest)
    ensures ParseBody(13, b, semantic) == Within(fits, InvokeResult(x), rest)
  {
  }

  lemma StartedStep(b: Octets, fits: bool, ds: seq<Declaration>, rest: Octets, semantic: Limits)
    requires ParseList(ParseDeclaration, MAX_DECLARATIONS, b) == Within(fits, ds, rest)
    ensures ParseBody(6, b, semantic) == Within(fits, Started(ds), rest)
  {
  }

  /** The cases whose body is one field. */
  lemma OneFieldBack(body: Body, absent: Byte, rest: Octets, semantic: Limits)
    requires SizedBody(body) && absent != 1
    requires body.Hello? || body.HelloAck? || body.Started? || body.Failure? || body.InvokeResult?
    ensures ParseBody(Tag(body), PutBody(body, absent, rest), semantic) == Within(FitsBody(body, semantic), body, rest)
  {
    match body {
      case Hello(g) => GreetingBack(g, rest);
      case HelloAck(g) => GreetingBack(g, rest);
      case Started(ds) =>
        DeclarationListBack(ds, rest);
        StartedStep(PutList(PutDeclaration, ds, rest), FitsBody(body, semantic), ds, rest, semantic);
      case Failure(x) =>
        FailureBack(x, absent, rest, semantic.response);
        FailureStep(PutFailure(x, absent, rest), FitsFailure(x, semantic.response), x, rest, semantic);
      case InvokeResult(x) =>
        OutcomeBack(x, absent, rest, semantic.response);
        OutcomeStep(PutOutcome(x, absent, rest), FitsOutcome(x, semantic.response), x, rest, semantic);
    }
  }

  predicate Short(body: Body) {
    body.Start? || body.DisposeRoute? || body.Disposed? || body.Shutdown? || body.ShutdownAck? || body.Cancel?
  }

  lemma ShortBack(body: Body, absent: Byte, rest: Octets, semantic: Limits)
    requires Short(body)
    ensures ParseBody(Tag(body), PutBody(body, absent, rest), semantic) == Within(FitsBody(body, semantic), body, rest)
  {
    if body.Start? || body.DisposeRoute? { U64Back(body.route, rest); }
  }

  predicate Long(body: Body) {
    body.Load? || body.Loaded? || body.Invoke?
  }

  lemma LoadStep(b: Octets, fits: bool, body: Body, rest: Octets, semantic: Limits)
    requires body.Load? && ParseLoad(b, semantic.artifact) == Within(fits, body, rest)
    ensures ParseBody(Tag(body), b, semantic) == Within(fits, body, rest)
  {
  }

  lemma LoadedStep(b: Octets, fits: bool, body: Body, rest: Octets, semantic: Limits)
    requires body.Loaded? && ParseLoaded(b) == Within(fits, body, rest)
    ensures ParseBody(Tag(body), b, semantic) == Within(fits, body, rest)
  {
  }

  lemma InvokeStep(b: Octets, fits: bool, body: Body, rest: Octets, semantic: Limits)
    requires body.Invoke? && ParseInvoke(b, semantic.request) == Within(fits, body, rest)
    ensures ParseBody(Tag(body), b, semantic) == Within(fits, body, rest)
  {
  }

  lemma LongBack(body: Body, rest: Octets, semantic: Limits)
    requires SizedBody(body) && Long(body)
    ensures ParseBody(Tag(body), PutBody(body, 0, rest), semantic) == Within(FitsBody(body, semantic), body, rest)
  {
    var b := PutBody(body, 0, rest);
    if body.Load? {
      LoadBack(body, rest, semantic);
      LoadStep(b, FitsBody(body, semantic), body, rest, semantic);
    } else if body.Loaded? {
      LoadedBack(body, rest);
      LoadedStep(b, FitsBody(body, semantic), body, rest, semantic);
    } else {
      InvokeBack(body, rest, semantic);
      InvokeStep(b, FitsBody(body, semantic), body, rest, semantic);
    }
  }

  lemma BodyBack(body: Body, absent: Byte, rest: Octets, semantic: Limits)
    requires SizedBody(body) && absent != 1
    ensures ParseBody(Tag(body), PutBody(body, absent, rest), semantic) == Within(FitsBody(body, semantic), body, rest)
  {
    if Short(body) {
      ShortBack(body, absent, rest, semantic);
    } else if Long(body) {
      assert PutBody(body, absent, rest) == PutBody(body, 0, rest);
      LongBack(body, rest, semantic);
    } else {
      OneFieldBack(body, absent, rest, semantic);
    }
  }

  lemma FitsIsSized(m: Message, semantic: Limits)
    requires Fits(m, semantic)
    ensures SizedBody(m.body)
  {
    match m.body {
      case Loaded(_, d) =>
        assert forall i :: 0 <= i < |d.dependencies| ==> FitsKey(d.dependencies[i]);
        assert forall i :: 0 <= i < |d.provisions| ==> FitsKey(d.provisions[i]);
      case Started(ds) =>
        assert forall i :: 0 <= i < |ds| ==> FitsDeclaration(ds[i]);
      case _ =>
    }
  }

  /** Whatever has a wire form is read back from it as itself if it is within the receiver's limits, and
      is refused as too large, and as nothing else, if it is not. */
  lemma MessageBack(m: Message, absent: Byte, semantic: Limits)
    requires SizedBody(m.body) && absent != 1
    ensures ParseMessage(PutMessage(m, absent), semantic) == if Fits(m, semantic) then Ok(m) else Err(TooLarge)
  {
    var b2 := PutBody(m.body, absent, []);
    U8Back(Tag(m.body), PutInt(8, m.id, b2));
    U64Back(m.id, b2);
    BodyBack(m.body, absent, [], semantic);
  }

  // ---- What is read was put, up to the presence octet --------------------------------------------

  lemma IntSpelled(width: nat, b: Octets)
    requires ParseInt(width, b).Got?
    ensures var p := ParseInt(width, b); b == PutInt(width, p.value, p.rest)
  {
    BigEndianOfValue(b[..width]);
    JoinIsConcatenation(b[..width], b[width..]);
    assert b == b[..width] + b[width..];
  }

  lemma BytesSpelled(b: Octets, limit: nat)
    requires ParseBytes(b, limit).Got?
    ensures var p := ParseBytes(b, limit); FitsPayload(p.value, limit) && b == PutBytes(p.value, p.rest)
  {
    IntSpelled(4, b);
    var p := ParseBytes(b, limit);
    var after := ParseU32(b).rest;
    JoinIsConcatenation(p.value, p.rest);
    assert after == p.value + p.rest;
  }

  lemma TextSpelled(b: Octets)
    requires ParseText(b).Got?
    ensures var p := ParseText(b); FitsText(p.value) && b == PutBytes(p.value, p.rest)
  {
    BytesSpelled(b, MAX_STRING);
  }

  lemma LimitsSpelled(b: Octets)
    requires ParseLimits(b).Got?
    ensures var p := ParseLimits(b); FitsLimits(p.value) && b == PutLimits(p.value, p.rest)
  {
    IntSpelled(4, b);
    var b1 := ParseU32(b).rest;
    IntSpelled(4, b1);
    var b2 := ParseU32(b1).rest;
    IntSpelled(4, b2);
    var b3 := ParseU32(b2).rest;
    IntSpelled(4, b3);
    IntSpelled(4, ParseU32(b3).rest);
  }

  lemma GreetingSpelled(b: Octets)
    requires ParseGreeting(b).Got?
    ensures var p := ParseGreeting(b); FitsLimits(p.value.limits) && b == PutGreeting(p.value, p.rest)
  {
    IntSpelled(2, b);
    var b1 := ParseU16(b).rest;
    IntSpelled(2, b1);
    var b2 := ParseU16(b1).rest;
    IntSpelled(8, b2);
    var b3 := ParseU64(b2).rest;
    IntSpelled(8, b3);
    LimitsSpelled(ParseU64(b3).rest);
  }

  lemma KeySpelled(b: Octets)
    requires ParseKey(b).Got?
    ensures var p := ParseKey(b); FitsKey(p.value) && b == PutKey(p.value, p.rest)
  {
    TextSpelled(b);
    var b1 := ParseText(b).rest;
    TextSpelled(b1);
    IntSpelled(4, ParseText(b1).rest);
  }

  lemma DeclarationSpelled(b: Octets)
    requires ParseDeclaration(b).Got?
    ensures var p := ParseDeclaration(b); FitsKey(p.value.key) && b == PutDeclaration(p.value, p.rest)
  {
    IntSpelled(8, b);
    KeySpelled(ParseU64(b).rest);
  }

  lemma {:induction false} AllSpelled<T>(put: (T, Octets) -> Octets, parse: Octets -> Parsed<T>, fits: T -> bool, count: nat, b: Octets)
    requires forall r :: parse(r).Got? ==> fits(parse(r).value) && r == put(parse(r).value, parse(r).rest)
    requires ParseAll(parse, count, b).Got?
    ensures var p := ParseAll(parse, count, b);
            |p.value| == count && (forall x <- p.value :: fits(x)) && b == PutAll(put, p.value, p.rest)
  {
    if count > 0 { AllSpelled(put, parse, fits, count - 1, parse(b).rest); }
  }

  lemma ListSpelled<T>(put: (T, Octets) -> Octets, parse: Octets -> Parsed<T>, fits: T -> bool, max: nat, b: Octets)
    requires forall r :: parse(r).Got? ==> fits(parse(r).value) && r == put(parse(r).value, parse(r).rest)
    requires ParseList(parse, max, b).Got?
    ensures var p := ParseList(parse, max, b);
            |p.value| <= max && (forall x <- p.value :: fits(x)) && b == PutList(put, p.value, p.rest)
  {
    IntSpelled(4, b);
    var count := ParseU32(b);
    AllSpelled(put, parse, fits, count.value, count.rest);
  }

  lemma KeyListSpelled(b: Octets)
    requires ParseList(ParseKey, MAX_ITEMS, b).Got?
    ensures var p := ParseList(ParseKey, MAX_ITEMS, b);
            |p.value| <= MAX_ITEMS && (forall k <- p.value :: FitsKey(k)) && b == PutList(PutKey, p.value, p.rest)
  {
    forall r | ParseKey(r).Got?
      ensures FitsKey(ParseKey(r).value) && r == PutKey(ParseKey(r).value, ParseKey(r).rest)
    {
      KeySpelled(r);
    }
    ListSpelled(PutKey, ParseKey, FitsKey, MAX_ITEMS, b);
  }

  lemma DeclarationListSpelled(b: Octets)
    requires ParseList(ParseDeclaration, MAX_DECLARATIONS, b).Got?
    ensures var p := ParseList(ParseDeclaration, MAX_DECLARATIONS, b);
            && |p.value| <= MAX_DECLARATIONS && (forall d <- p.value :: FitsDeclaration(d))
            && b == PutList(PutDeclaration, p.value, p.rest)
  {
    forall r | ParseDeclaration(r).Got?
      ensures FitsDeclaration(ParseDeclaration(r).value) && r == PutDeclaration(ParseDeclaration(r).value, ParseDeclaration(r).rest)
    {
      DeclarationSpelled(r);
    }
    ListSpelled(PutDeclaration, ParseDeclaration, FitsDeclaration, MAX_DECLARATIONS, b);
  }

  lemma PolicySpelled(b: Octets)
    requires ParsePolicy(b).Got?
    ensures var p := ParsePolicy(b); b == PutPolicy(p.value.0, p.value.1, p.rest)
  {
    var policy := ParseU8(b);
    assert b == PutU8(policy.value, policy.rest);
    IntSpelled(8, policy.rest);
    assert policy.value == PolicyCode(ParsePolicy(b).value.0);
  }

  lemma DescriptorSpelled(b: Octets)
    requires ParseDescriptor(b).Got?
    ensures var p := ParseDescriptor(b); FitsDescriptor(p.value) && b == PutDescriptor(p.value, p.rest)
  {
    TextSpelled(b);
    var b1 := ParseText(b).rest;
    KeyListSpelled(b1);
    var b2 := ParseList(ParseKey, MAX_ITEMS, b1).rest;
    KeyListSpelled(b2);
    PolicySpelled(ParseList(ParseKey, MAX_ITEMS, b2).rest);
  }

  lemma HostSpelled(b: Octets)
    requires ParseHost(b).Got?
    ensures var p := ParseHost(b); FitsText(p.value.message) && b == PutHost(p.value, p.rest)
  {
    var code := ParseU8(b);
    assert b == PutU8(code.value, code.rest);
    TextSpelled(code.rest);
  }

  lemma DetailsSpelled(b: Octets, limit: nat)
    requires ParseText(b).Got? && ParseBytes(ParseText(b).rest, limit).Got?
    ensures var format := ParseText(b);
            var payload := ParseBytes(format.rest, limit);
            && FitsText(format.value) && FitsPayload(payload.value, limit)
            && b == PutBytes(format.value, PutBytes(payload.value, payload.rest))
  {
    TextSpelled(b);
    BytesSpelled(ParseText(b).rest, limit);
  }

  lemma TwoTextsSpelled(b: Octets)
    requires ParseText(b).Got? && ParseText(ParseText(b).rest).Got?
    ensures var code := ParseText(b);
            var message := ParseText(code.rest);
            FitsText(code.value) && FitsText(message.value) && b == PutBytes(code.value, PutBytes(message.value, message.rest))
  {
    TextSpelled(b);
    TextSpelled(ParseText(b).rest);
  }

  lemma DomainSpelled(b: Octets, limit: nat) returns (absent: Byte)
    requires ParseDomain(b, limit).Got?
    ensures var p := ParseDomain(b, limit);
            absent != 1 && FitsDomain(p.value, limit) && b == PutDomain(p.value, absent, p.rest)
  {
    TwoTextsSpelled(b);
    var b2 := ParseText(ParseText(b).rest).rest;
    var flag := ParseU8(b2);
    assert b2 == PutU8(flag.value, flag.rest);
    absent := if flag.value == 1 then 0 else flag.value;
    if flag.value == 1 { DetailsSpelled(flag.rest, limit); }
  }

  lemma FailureSpelled(b: Octets, limit: nat) returns (absent: Byte)
    requires ParseFailure(b, limit).Got?
    ensures var p := ParseFailure(b, limit);
            absent != 1 && b == PutFailure(p.value, absent, p.rest) && FitsFailure(p.value, limit)
  {
    var category := ParseU8(b);
    assert b == PutU8(category.value, category.rest);
    absent := 0;
    if category.value == 0 { HostSpelled(category.rest); } else { absent := DomainSpelled(category.rest, limit); }
  }

  lemma OutcomeSpelled(b: Octets, limit: nat) returns (absent: Byte)
    requires ParseOutcome(b, limit).Got?
    ensures var p := ParseOutcome(b, limit);
            absent != 1 && b == PutOutcome(p.value, absent, p.rest) && FitsOutcome(p.value, limit)
  {
    var category := ParseU8(b);
    assert b == PutU8(category.value, category.rest);
    absent := 0;
    match category.value {
      case 0 => TextSpelled(category.rest); BytesSpelled(ParseText(category.rest).rest, limit);
      case 1 => absent := DomainSpelled(category.rest, limit);
      case _ => HostSpelled(category.rest);
    }
  }

  lemma LoadSpelled(b: Octets, semantic: Limits)
    requires ParseLoad(b, semantic.artifact).Got?
    ensures var p := ParseLoad(b, semantic.artifact);
            && p.value.Load? && FitsBody(p.value, semantic)
            && b == PutLoad(p.value.format, p.value.revision, p.value.payload, p.rest)
  {
    TextSpelled(b);
    var b1 := ParseText(b).rest;
    IntSpelled(8, b1);
    BytesSpelled(ParseU64(b1).rest, semantic.artifact);
  }

  lemma InvokeSpelled(b: Octets, semantic: Limits)
    requires ParseInvoke(b, semantic.request).Got?
    ensures var p := ParseInvoke(b, semantic.request);
            && p.value.Invoke? && FitsBody(p.value, semantic)
            && b == PutInvoke(p.value.route, p.value.format, p.value.bytes, p.value.remaining, p.rest)
  {
    IntSpelled(8, b);
    var b1 := ParseU64(b).rest;
    TextSpelled(b1);
    var b2 := ParseText(b1).rest;
    BytesSpelled(b2, semantic.request);
    IntSpelled(8, ParseBytes(b2, semantic.request).rest);
  }

  lemma LoadedSpelled(b: Octets)
    requires ParseLoaded(b).Got?
    ensures var p := ParseLoaded(b);
            p.value.Loaded? && FitsDescriptor(p.value.descriptor) && b == PutLoaded(p.value.route, p.value.descriptor, p.rest)
  {
    IntSpelled(8, b);
    DescriptorSpelled(ParseU64(b).rest);
  }

  lemma BodySpelled(tag: Byte, b: Octets, semantic: Limits) returns (absent: Byte)
    requires ParseBody(tag, b, semantic).Got?
    ensures var p := ParseBody(tag, b, semantic);
            absent != 1 && tag == Tag(p.value) && b == PutBody(p.value, absent, p.rest) && FitsBody(p.value, semantic)
  {
    absent := 0;
    match tag {
      case 1 => GreetingSpelled(b);
      case 2 => GreetingSpelled(b);
      case 3 => LoadSpelled(b, semantic);
      case 4 => LoadedSpelled(b);
      case 5 => IntSpelled(8, b);
      case 6 => DeclarationListSpelled(b);
      case 7 => IntSpelled(8, b);
      case 11 => absent := FailureSpelled(b, semantic.response);
      case 12 => InvokeSpelled(b, semantic);
      case 13 => absent := OutcomeSpelled(b, semantic.response);
      case _ =>
    }
  }

  lemma MessageSpelled(b: Octets, semantic: Limits) returns (absent: Byte)
    requires ParseMessage(b, semantic).Ok?
    ensures var m := ParseMessage(b, semantic).value;
            absent != 1 && b == PutMessage(m, absent) && Fits(m, semantic)
  {
    var tag := ParseU8(b);
    assert b == PutU8(tag.value, tag.rest);
    IntSpelled(8, tag.rest);
    var id := ParseU64(tag.rest);
    absent := BodySpelled(tag.value, id.rest, semantic);
  }

  /** A payload is accepted as a message exactly if the message is within the receiver's limits and
      the payload is its wire form, with any octet but 1 where absent details are marked. */
  lemma AcceptedExactly(b: Octets, m: Message, semantic: Limits)
    ensures ParseMessage(b, semantic) == Ok(m) <==>
            Fits(m, semantic) && exists absent: Byte :: absent != 1 && b == PutMessage(m, absent)
  {
    if ParseMessage(b, semantic) == Ok(m) {
      var absent := MessageSpelled(b, semantic);
      assert b == PutMessage(m, absent);
    }
    if Fits(m, semantic) && exists absent: Byte :: absent != 1 && b == PutMessage(m, absent) {
      var absent: Byte :| absent != 1 && b == PutMessage(m, absent);
      FitsIsSized(m, semantic);
      MessageBack(m, absent, semantic);
    }
  }

  // ---- Octets that follow are left alone -----------------------------------------------------------

  lemma IntFront(width: nat, n: nat, a: Octets, rest: Octets)
    ensures PutInt(width, n, a + rest) == PutInt(width, n, a) + rest
  {
    JoinIsConcatenation(BigEndian(width, n), a + rest);
    JoinIsConcatenation(BigEndian(width, n), a);
  }

  lemma BytesFront(s: Octets, a: Octets, rest: Octets)
    ensures PutBytes(s, a + rest) == PutBytes(s, a) + rest
  {
    JoinIsConcatenation(s, a + rest);
    JoinIsConcatenation(s, a);
    assert s + (a + rest) == s + a + rest;
    IntFront(4, |s|, s + a, rest);
  }

  lemma LimitsFront(l: Limits, a: Octets, rest: Octets)
    ensures PutLimits(l, a + rest) == PutLimits(l, a) + rest
  {
    var b4 := PutInt(4, l.inflight, a);
    var b3 := PutInt(4, l.response, b4);
    var b2 := PutInt(4, l.request, b3);
    IntFront(4, l.inflight, a, rest);
    IntFront(4, l.response, b4, rest);
    IntFront(4, l.request, b3, rest);
    IntFront(4, l.artifact, b2, rest);
    IntFront(4, l.frame, PutInt(4, l.artifact, b2), rest);
  }

  lemma GreetingFront(g: Greeting, a: Octets, rest: Octets)
    ensures PutGreeting(g, a + rest) == PutGreeting(g, a) + rest
  {
    var b3 := PutLimits(g.limits, a);
    var b2 := PutInt(8, g.required, b3);
    var b1 := PutInt(8, g.supported, b2);
    LimitsFront(g.limits, a, rest);
    IntFront(8, g.required, b3, rest);
    IntFront(8, g.supported, b2, rest);
    IntFront(2, g.minor, b1, rest);
    IntFront(2, g.major, PutInt(2, g.minor, b1), rest);
  }

  lemma KeyFront(k: Key, a: Octets, rest: Octets)
    ensures PutKey(k, a + rest) == PutKey(k, a) + rest
  {
    var b1 := PutInt(4, k.version, a);
    IntFront(4, k.version, a, rest);
    BytesFront(k.name, b1, rest);
    BytesFront(k.namespace, PutBytes(k.name, b1), rest);
  }

  lemma DeclarationFront(d: Declaration, a: Octets, rest: Octets)
    ensures PutDeclaration(d, a + rest) == PutDeclaration(d, a) + rest
  {
    KeyFront(d.key, a, rest);
    IntFront(8, d.route, PutKey(d.key, a), rest);
  }

  lemma {:induction false} ListFront<T>(put: (T, Octets) -> Octets, xs: seq<T>, a: Octets, rest: Octets)
    requires forall x, r :: put(x, r + rest) == put(x, r) + rest
    ensures PutAll(put, xs, a + rest) == PutAll(put, xs, a) + rest
    ensures PutList(put, xs, a + rest) == PutList(put, xs, a) + rest
  {
    if xs != [] { ListFront(put, xs[1..], a, rest); }
    IntFront(4, |xs|, PutAll(put, xs, a), rest);
  }

  lemma KeyListFront(ks: seq<Key>, a: Octets, rest: Octets)
    ensures PutList(PutKey, ks, a + rest) == PutList(PutKey, ks, a) + rest
  {
    forall k, r ensures PutKey(k, r + rest) == PutKey(k, r) + rest { KeyFront(k, r, rest); }
    ListFront(PutKey, ks, a, rest);
  }

  lemma DeclarationListFront(ds: seq<Declaration>, a: Octets, rest: Octets)
    ensures PutList(PutDeclaration, ds, a + rest) == PutList(PutDeclaration, ds, a) + rest
  {
    forall d, r ensures PutDeclaration(d, r + rest) == PutDeclaration(d, r) + rest { DeclarationFront(d, r, rest); }
    ListFront(PutDeclaration, ds, a, rest);
  }

  lemma U8Front(n: Byte, a: Octets, rest: Octets)
    ensures PutU8(n, a + rest) == PutU8(n, a) + rest
  {
  }

  lemma DescriptorFront(d: Descriptor, a: Octets, rest: Octets)
    ensures PutDescriptor(d, a + rest) == PutDescriptor(d, a) + rest
  {
    var b3 := PutPolicy(d.policy, d.revision, a);
    var b2 := PutList(PutKey, d.provisions, b3);
    IntFront(8, d.revision, a, rest);
    U8Front(PolicyCode(d.policy), PutInt(8, d.revision, a), rest);
    KeyListFront(d.provisions, b3, rest);
    KeyListFront(d.dependencies, b2, rest);
    BytesFront(d.name, PutList(PutKey, d.dependencies, b2), rest);
  }

  lemma TextAndBytesFront(format: Str, payload: Octets, a: Octets, rest: Octets)
    ensures PutBytes(format, PutBytes(payload, a + rest)) == PutBytes(format, PutBytes(payload, a)) + rest
  {
    BytesFront(payload, a, rest);
    BytesFront(format, PutBytes(payload, a), rest);
  }

  lemma HostFront(e: HostError, a: Octets, rest: Octets)
    ensures PutHost(e, a + rest) == PutHost(e, a) + rest
  {
    BytesFront(e.message, a, rest);
    U8Front(KindCode(e.kind), PutBytes(e.message, a), rest);
  }

  lemma DomainFront(e: DomainError, absent: Byte, a: Octets, rest: Octets)
    ensures PutDomain(e, absent, a + rest) == PutDomain(e, absent, a) + rest
  {
    var last;
    match e.details {
      case None =>
        last := PutU8(absent, a);
        U8Front(absent, a, rest);
      case Some(d) =>
        var details := PutBytes(d.format, PutBytes(d.payload, a));
        last := PutU8(1, details);
        TextAndBytesFront(d.format, d.payload, a, rest);
        U8Front(1, details, rest);
    }
    BytesFront(e.message, last, rest);
    BytesFront(e.code, PutBytes(e.message, last), rest);
  }

  lemma FailureFront(x: WireFailure, absent: Byte, a: Octets, rest: Octets)
    ensures PutFailure(x, absent, a + rest) == PutFailure(x, absent, a) + rest
  {
    match x {
      case HostSide(e) => HostFront(e, a, rest); U8Front(0, PutHost(e, a), rest);
      case DomainSide(e) => DomainFront(e, absent, a, rest); U8Front(1, PutDomain(e, absent, a), rest);
    }
  }

  lemma OutcomeFront(x: InvokeOutcome, absent: Byte, a: Octets, rest: Octets)
    ensures PutOutcome(x, absent, a + rest) == PutOutcome(x, absent, a) + rest
  {
    match x {
      case Success(format, bytes) =>
        TextAndBytesFront(format, bytes, a, rest);
        U8Front(0, PutBytes(format, PutBytes(bytes, a)), rest);
      case RemoteDomain(e) => DomainFront(e, absent, a, rest); U8Front(1, PutDomain(e, absent, a), rest);
      case HostFailure(e) => HostFront(e, a, rest); U8Front(2, PutHost(e, a), rest);
    }
  }

  lemma LoadFront(format: Str, revision: U64, payload: Octets, a: Octets, rest: Octets)
    ensures PutLoad(format, revision, payload, a + rest) == PutLoad(format, revision, payload, a) + rest
  {
    BytesFront(payload, a, rest);
    IntFront(8, revision, PutBytes(payload, a), rest);
    BytesFront(format, PutInt(8, revision, PutBytes(payload, a)), rest);
  }

  lemma InvokeFront(route: U64, format: Str, bytes: Octets, remaining: U64, a: Octets, rest: Octets)
    ensures PutInvoke(route, format, bytes, remaining, a + rest) == PutInvoke(route, format, bytes, remaining, a) + rest
  {
    var last := PutInt(8, remaining, a);
    IntFront(8, remaining, a, rest);
    TextAndBytesFront(format, bytes, last, rest);
    IntFront(8, route, PutBytes(format, PutBytes(bytes, last)), rest);
  }

  lemma LoadedFront(route: U64, d: Descriptor, a: Octets, rest: Octets)
    ensures PutLoaded(route, d, a + rest) == PutLoaded(route, d, a) + rest
  {
    DescriptorFront(d, a, rest);
    IntFront(8, route, PutDescriptor(d, a), rest);
  }

  lemma BodyFront(body: Body, absent: Byte, a: Octets, rest: Octets)
    ensures PutBody(body, absent, a + rest) == PutBody(body, absent, a) + rest
  {
    match body {
      case Hello(g) => GreetingFront(g, a, rest);
      case HelloAck(g) => GreetingFront(g, a, rest);
      case Load(format, revision, payload) => LoadFront(format, revision, payload, a, rest);
      case Loaded(route, d) => LoadedFront(route, d, a, rest);
      case Start(route) => IntFront(8, route, a, rest);
      case Started(ds) => DeclarationListFront(ds, a, rest);
      case DisposeRoute(route) => IntFront(8, route, a, rest);
      case Failure(x) => FailureFront(x, absent, a, rest);
      case Invoke(route, format, bytes, remaining) => InvokeFront(route, format, bytes, remaining, a, rest);
      case InvokeResult(x) => OutcomeFront(x, absent, a, rest);
      case _ =>
    }
  }

  lemma MessageFront(m: Message, absent: Byte, more: Octets)
    ensures PutMessage(m, absent) + more == PutU8(Tag(m.body), PutInt(8, m.id, PutBody(m.body, absent, more)))
  {
    assert [] + more == more;
    var body := PutBody(m.body, absent, []);
    BodyFront(m.body, absent, [], more);
    IntFront(8, m.id, body, more);
    U8Front(Tag(m.body), PutInt(8, m.id, body), more);
  }

  lemma TrailingIsRefused(b: Octets, m: Message, body: Octets, more: Octets, semantic: Limits)
    requires b == PutU8(Tag(m.body), PutInt(8, m.id, body)) && more != []
    requires ParseBody(Tag(m.body), body, semantic) == Got(m.body, more)
    ensures ParseMessage(b, semantic) == Err(Violation)
  {
    U8Back(Tag(m.body), PutInt(8, m.id, body));
    U64Back(m.id, body);
  }

  /** What follows an accepted payload makes it unacceptable: one message is never the beginning of
      another. */
  lemma PrefixFree(b: Octets, c: Octets, semantic: Limits)
    requires ParseMessage(b, semantic).Ok? && b < c
    ensures ParseMessage(c, semantic) == Err(Violation)
  {
    var absent := MessageSpelled(b, semantic);
    var m := ParseMessage(b, semantic).value;
    var more := c[|b|..];
    assert c == b + more;
    MessageFront(m, absent, more);
    FitsIsSized(m, semantic);
    BodyBack(m.body, absent, more, semantic);
    TrailingIsRefused(c, m, PutBody(m.body, absent, more), more, semantic);
  }

  // ---- What follows changes no refusal for size ----------------------------------------------------

  /** The same, with more octets behind. */
  function Further<T>(p: Parsed<T>, more: Octets): Parsed<T> {
    match p case Bad(f) => Bad(f) case Got(x, rest) => Got(x, rest + more)
  }

  lemma IntMore(width: nat, b: Octets, more: Octets)
    requires ParseInt(width, b) != Bad(Violation)
    ensures ParseInt(width, b + more) == Further(ParseInt(width, b), more)
  {
    assert (b + more)[..width] == b[..width] && (b + more)[width..] == b[width..] + more;
  }

  lemma U8More(b: Octets, more: Octets)
    requires ParseU8(b) != Bad(Violation)
    ensures ParseU8(b + more) == Further(ParseU8(b), more)
  {
    assert (b + more)[1..] == b[1..] + more;
  }

  lemma U16More(b: Octets, more: Octets)
    requires ParseU16(b) != Bad(Violation)
    ensures ParseU16(b + more) == Further(ParseU16(b), more)
  {
    IntMore(2, b, more);
  }

  lemma U32More(b: Octets, more: Octets)
    requires ParseU32(b) != Bad(Violation)
    ensures ParseU32(b + more) == Further(ParseU32(b), more)
  {
    IntMore(4, b, more);
  }

  lemma U64More(b: Octets, more: Octets)
    requires ParseU64(b) != Bad(Violation)
    ensures ParseU64(b + more) == Further(ParseU64(b), more)
  {
    IntMore(8, b, more);
  }

  lemma BytesMore(b: Octets, limit: nat, more: Octets)
    requires ParseBytes(b, limit) != Bad(Violation)
    ensures ParseBytes(b + more, limit) == Further(ParseBytes(b, limit), more)
  {
    U32More(b, more);
    var n, r := ParseU32(b).value, ParseU32(b).rest;
    if n <= limit { assert (r + more)[..n] == r[..n] && (r + more)[n..] == r[n..] + more; }
  }

  lemma TextMore(b: Octets, more: Octets)
    requires ParseText(b) != Bad(Violation)
    ensures ParseText(b + more) == Further(ParseText(b), more)
  {
    BytesMore(b, MAX_STRING, more);
  }

  lemma {:induction false} AllMore<T>(parse: Octets -> Parsed<T>, count: nat, b: Octets, more: Octets)
    requires forall r :: parse(r) != Bad(Violation) ==> parse(r + more) == Further(parse(r), more)
    requires ParseAll(parse, count, b) != Bad(Violation)
    ensures ParseAll(parse, count, b + more) == Further(ParseAll(parse, count, b), more)
  {
    if count > 0 && parse(b).Got? { AllMore(parse, count - 1, parse(b).rest, more); }
  }

  lemma ListMore<T>(parse: Octets -> Parsed<T>, max: nat, b: Octets, more: Octets)
    requires forall r :: parse(r) != Bad(Violation) ==> parse(r + more) == Further(parse(r), more)
    requires ParseList(parse, max, b) != Bad(Violation)
    ensures ParseList(parse, max, b + more) == Further(ParseList(parse, max, b), more)
  {
    U32More(b, more);
    var count := ParseU32(b);
    if count.value <= max { AllMore(parse, count.value, count.rest, more); }
  }

  lemma LimitsMore(b: Octets, more: Octets)
    requires ParseLimits(b) != Bad(Violation)
    ensures ParseLimits(b + more) == Further(ParseLimits(b), more)
  {
    U32More(b, more);
    var b1 := ParseU32(b).rest;
    U32More(b1, more);
    var b2 := ParseU32(b1).rest;
    U32More(b2, more);
    var b3 := ParseU32(b2).rest;
    U32More(b3, more);
    U32More(ParseU32(b3).rest, more);
  }

  lemma GreetingMore(b: Octets, more: Octets)
    requires ParseGreeting(b) != Bad(Violation)
    ensures ParseGreeting(b + more) == Further(ParseGreeting(b), more)
  {
    U16More(b, more);
    var b1 := ParseU16(b).rest;
    U16More(b1, more);
    var b2 := ParseU16(b1).rest;
    U64More(b2, more);
    var b3 := ParseU64(b2).rest;
    U64More(b3, more);
    LimitsMore(ParseU64(b3).rest, more);
  }

  lemma KeyMore(b: Octets, more: Octets)
    requires ParseKey(b) != Bad(Violation)
    ensures ParseKey(b + more) == Further(ParseKey(b), more)
  {
    TextMore(b, more);
    if ParseText(b).Got? {
      var b1 := ParseText(b).rest;
      TextMore(b1, more);
      if ParseText(b1).Got? { U32More(ParseText(b1).rest, more); }
    }
  }

  lemma DeclarationMore(b: Octets, more: Octets)
    requires ParseDeclaration(b) != Bad(Violation)
    ensures ParseDeclaration(b + more) == Further(ParseDeclaration(b), more)
  {
    U64More(b, more);
    KeyMore(ParseU64(b).rest, more);
  }

  lemma KeyListMore(b: Octets, more: Octets)
    requires ParseList(ParseKey, MAX_ITEMS, b) != Bad(Violation)
    ensures ParseList(ParseKey, MAX_ITEMS, b + more) == Further(ParseList(ParseKey, MAX_ITEMS, b), more)
  {
    forall r | ParseKey(r) != Bad(Violation) ensures ParseKey(r + more) == Further(ParseKey(r), more) { KeyMore(r, more); }
    ListMore(ParseKey, MAX_ITEMS, b, more);
  }

  lemma DeclarationListMore(b: Octets, more: Octets)
    requires ParseList(ParseDeclaration, MAX_DECLARATIONS, b) != Bad(Violation)
    ensures ParseList(ParseDeclaration, MAX_DECLARATIONS, b + more) == Further(ParseList(ParseDeclaration, MAX_DECLARATIONS, b), more)
  {
    forall r | ParseDeclaration(r) != Bad(Violation) ensures ParseDeclaration(r + more) == Further(ParseDeclaration(r), more) {
      DeclarationMore(r, more);
    }
    ListMore(ParseDeclaration, MAX_DECLARATIONS, b, more);
  }

  lemma PolicyMore(b: Octets, more: Octets)
    requires ParsePolicy(b) != Bad(Violation)
    ensures ParsePolicy(b + more) == Further(ParsePolicy(b), more)
  {
    U8More(b, more);
    U64More(ParseU8(b).rest, more);
  }

  lemma DescriptorMore(b: Octets, more: Octets)
    requires ParseDescriptor(b) != Bad(Violation)
    ensures ParseDescriptor(b + more) == Further(ParseDescriptor(b), more)
  {
    TextMore(b, more);
    if ParseText(b).Got? {
      var b1 := ParseText(b).rest;
      KeyListMore(b1, more);
      var dependencies := ParseList(ParseKey, MAX_ITEMS, b1);
      if dependencies.Got? {
        KeyListMore(dependencies.rest, more);
        var provisions := ParseList(ParseKey, MAX_ITEMS, dependencies.rest);
        if provisions.Got? { PolicyMore(provisions.rest, more); }
      }
    }
  }

  lemma HostMore(b: Octets, more: Octets)
    requires ParseHost(b) != Bad(Violation)
    ensures ParseHost(b + more) == Further(ParseHost(b), more)
  {
    U8More(b, more);
    TextMore(ParseU8(b).rest, more);
  }

  lemma TextAndBytesMore(b: Octets, limit: nat, more: Octets)
    requires ParseText(b) != Bad(Violation) && (ParseText(b).Got? ==> ParseBytes(ParseText(b).rest, limit) != Bad(Violation))
    ensures ParseText(b + more) == Further(ParseText(b), more)
    ensures ParseText(b).Got? ==>
              var r := ParseText(b).rest; ParseBytes(r + more, limit) == Further(ParseBytes(r, limit), more)
  {
    TextMore(b, more);
    if ParseText(b).Got? { BytesMore(ParseText(b).rest, limit, more); }
  }

  lemma DomainMore(b: Octets, limit: nat, more: Octets)
    requires ParseDomain(b, limit) != Bad(Violation)
    ensures ParseDomain(b + more, limit) == Further(ParseDomain(b, limit), more)
  {
    TextMore(b, more);
    if ParseText(b).Got? {
      var b1 := ParseText(b).rest;
      TextMore(b1, more);
      if ParseText(b1).Got? {
        var b2 := ParseText(b1).rest;
        U8More(b2, more);
        if ParseU8(b2).value == 1 { TextAndBytesMore(ParseU8(b2).rest, limit, more); }
      }
    }
  }

  lemma FailureMore(b: Octets, limit: nat, more: Octets)
    requires ParseFailure(b, limit) != Bad(Violation)
    ensures ParseFailure(b + more, limit) == Further(ParseFailure(b, limit), more)
  {
    U8More(b, more);
    var category := ParseU8(b);
    if category.value == 0 { HostMore(category.rest, more); } else { DomainMore(category.rest, limit, more); }
  }

  lemma OutcomeMore(b: Octets, limit: nat, more: Octets)
    requires ParseOutcome(b, limit) != Bad(Violation)
    ensures ParseOutcome(b + more, limit) == Further(ParseOutcome(b, limit), more)
  {
    U8More(b, more);
    var category := ParseU8(b);
    match category.value {
      case 0 => TextAndBytesMore(category.rest, limit, more);
      case 1 => DomainMore(category.rest, limit, more);
      case _ => HostMore(category.rest, more);
    }
  }

  lemma LoadMore(b: Octets, limit: nat, more: Octets)
    requires ParseLoad(b, limit) != Bad(Violation)
    ensures ParseLoad(b + more, limit) == Further(ParseLoad(b, limit), more)
  {
    TextMore(b, more);
    if ParseText(b).Got? {
      U64More(ParseText(b).rest, more);
      BytesMore(ParseU64(ParseText(b).rest).rest, limit, more);
    }
  }

  lemma InvokeMore(b: Octets, limit: nat, more: Octets)
    requires ParseInvoke(b, limit) != Bad(Violation)
    ensures ParseInvoke(b + more, limit) == Further(ParseInvoke(b, limit), more)
  {
    U64More(b, more);
    var b1 := ParseU64(b).rest;
    TextMore(b1, more);
    if ParseText(b1).Got? {
      var b2 := ParseText(b1).rest;
      BytesMore(b2, limit, more);
      if ParseBytes(b2, limit).Got? { U64More(ParseBytes(b2, limit).rest, more); }
    }
  }

  lemma LoadedMore(b: Octets, more: Octets)
    requires ParseLoaded(b) != Bad(Violation)
    ensures ParseLoaded(b + more) == Further(ParseLoaded(b), more)
  {
    U64More(b, more);
    DescriptorMore(ParseU64(b).rest, more);
  }

  lemma BodyMore(tag: Byte, b: Octets, semantic: Limits, more: Octets)
    requires ParseBody(tag, b, semantic) != Bad(Violation)
    ensures ParseBody(tag, b + more, semantic) == Further(ParseBody(tag, b, semantic), more)
  {
    match tag {
      case 1 => GreetingMore(b, more);
      case 2 => GreetingMore(b, more);
      case 3 => LoadMore(b, semantic.artifact, more);
      case 4 => LoadedMore(b, more);
      case 5 => U64More(b, more);
      case 6 => DeclarationListMore(b, more);
      case 7 => U64More(b, more);
      case 11 => FailureMore(b, semantic.response, more);
      case 12 => InvokeMore(b, semantic.request, more);
      case 13 => OutcomeMore(b, semantic.response, more);
      case _ =>
    }
  }

  /** What a message comes to, once its head has been read. */
  lemma HeadThenBody(b: Octets, tag: Byte, id: U64, rest: Octets, semantic: Limits)
    requires ParseU8(b).Got? && ParseU8(b).value == tag && ParseU64(ParseU8(b).rest) == Got(id, rest)
    ensures ParseBody(tag, rest, semantic).Bad? ==> ParseMessage(b, semantic) == Err(ParseBody(tag, rest, semantic).fault)
    ensures ParseBody(tag, rest, semantic).Got? && ParseBody(tag, rest, semantic).rest != [] ==> ParseMessage(b, semantic) == Err(Violation)
    ensures ParseBody(tag, rest, semantic).Got? && ParseBody(tag, rest, semantic).rest == [] ==> ParseMessage(b, semantic).Ok?
  {
  }

  lemma RefusedBody(b: Octets, semantic: Limits) returns (tag: Byte, id: U64, rest: Octets)
    requires ParseMessage(b, semantic).Err? && ParseMessage(b, semantic).error != Violation
    ensures ParseU8(b).Got? && ParseU8(b).value == tag && ParseU64(ParseU8(b).rest) == Got(id, rest)
    ensures ParseBody(tag, rest, semantic) == Bad(ParseMessage(b, semantic).error)
  {
    tag := ParseU8(b).value;
    var head := ParseU64(ParseU8(b).rest);
    id, rest := head.value, head.rest;
    HeadThenBody(b, tag, id, rest, semantic);
  }

  /** A refusal that is no violation, so one for size, stands whatever follows: it is given for what has
      been read, and a payload that merely ends too early is not refused for size. */
  lemma SizeRefusalStands(b: Octets, more: Octets, semantic: Limits)
    requires ParseMessage(b, semantic).Err? && ParseMessage(b, semantic).error != Violation
    ensures ParseMessage(b + more, semantic) == ParseMessage(b, semantic)
  {
    var tag, id, rest := RefusedBody(b, semantic);
    U8More(b, more);
    U64More(ParseU8(b).rest, more);
    BodyMore(tag, rest, semantic, more);
    HeadThenBody(b + more, tag, id, rest + more, semantic);
  }

  /** A payload cut short is a violation, never too large and never another message. */
  lemma CutIsViolation(b: Octets, c: Octets, semantic: Limits)
    requires ParseMessage(b, semantic).Ok? && c < b
    ensures ParseMessage(c, semantic) == Err(Violation)
  {
    var more := b[|c|..];
    assert c + more == b;
    if ParseMessage(c, semantic).Ok? {
      PrefixFree(c, b, semantic);
    } else if ParseMessage(c, semantic).error != Violation {
      SizeRefusalStands(c, more, semantic);
    }
  }

  // ---- The one octet that is not canonical ---------------------------------------------------------

  function DomainMark(e: DomainError): nat {
    8 + |e.code| + |e.message|
  }

  /** Where the payload marks absent details. */
  function MarkAt(m: Message): Option<nat> {
    match m.body
    case Failure(DomainSide(e)) => if e.details == None then Some(10 + DomainMark(e)) else None
    case InvokeResult(RemoteDomain(e)) => if e.details == None then Some(10 + DomainMark(e)) else None
    case _ => None
  }

  lemma DomainEnds(e: DomainError, absent: Byte)
    requires e.details == None
    ensures PutDomain(e, absent, []) == PutBytes(e.code, PutBytes(e.message, [])) + [absent]
  {
    assert [] + [absent] == [absent] == PutU8(absent, []);
    BytesFront(e.message, [], [absent]);
    BytesFront(e.code, PutBytes(e.message, []), [absent]);
  }

  lemma DomainUpdate(e: DomainError, absent: Byte)
    requires e.details == None
    ensures var k := DomainMark(e);
            && |PutDomain(e, 0, [])| == k + 1 && PutDomain(e, 0, [])[k] == 0
            && PutDomain(e, absent, []) == PutDomain(e, 0, [])[k := absent]
  {
    forall s, r ensures |PutBytes(s, r)| == 4 + |s| + |r| { BytesSize(s, r); }
    DomainEnds(e, 0);
    DomainEnds(e, absent);
  }

  lemma BytesSize(s: Octets, rest: Octets)
    ensures |PutBytes(s, rest)| == 4 + |s| + |rest|
  {
    JoinIsConcatenation(s, rest);
    JoinIsConcatenation(BigEndian(4, |s|), s + rest);
  }

  lemma HeadUpdate(tag: Byte, id: U64, b: Octets, c: Octets, k: nat, f: Byte)
    requires k < |b| && c == b[k := f]
    ensures var whole := PutU8(tag, PutInt(8, id, PutU8(1, b)));
            && k + 10 < |whole| && whole[k + 10] == b[k]
            && PutU8(tag, PutInt(8, id, PutU8(1, c))) == whole[k + 10 := f]
  {
    JoinIsConcatenation(BigEndian(8, id), PutU8(1, b));
    JoinIsConcatenation(BigEndian(8, id), PutU8(1, c));
  }

  /** The octet the reader tolerates is the presence octet of absent details and nothing else. */
  lemma OnlyTheMarkVaries(m: Message, absent: Byte)
    ensures match MarkAt(m)
            case None => PutMessage(m, absent) == PutMessage(m, 0)
            case Some(k) => && k < |PutMessage(m, 0)| && PutMessage(m, 0)[k] == 0
                            && PutMessage(m, absent) == PutMessage(m, 0)[k := absent]
  {
    if MarkAt(m).Some? {
      var e := if m.body.Failure? then m.body.failure.domain else m.body.outcome.domain;
      DomainUpdate(e, absent);
      HeadUpdate(Tag(m.body), m.id, PutDomain(e, 0, []), PutDomain(e, absent, []), DomainMark(e), absent);
    }
  }

  /** Decoding is canonical: an accepted payload is what its message is encoded as, or differs from
      that in the mark of absent details alone. */
  lemma DecodingIsCanonical(b: Octets, semantic: Limits)
    requires ParseMessage(b, semantic).Ok?
    ensures var m := ParseMessage(b, semantic).value;
            b == PutMessage(m, 0) || (MarkAt(m).Some? && MarkAt(m).value < |b| && b[MarkAt(m).value := 0] == PutMessage(m, 0))
  {
    var absent := MessageSpelled(b, semantic);
    OnlyTheMarkVaries(ParseMessage(b, semantic).value, absent);
  }

  /** Payload class and message class agree, on whatever is sent and on whatever is accepted. */
  lemma ControlAgrees(m: Message, absent: Byte)
    ensures PayloadIsControl(PutMessage(m, absent)) == IsControl(m)
  {
    assert PutMessage(m, absent)[0] == Tag(m.body);
  }

  lemma ControlAgreesOnAccepted(b: Octets, semantic: Limits)
    requires ParseMessage(b, semantic).Ok?
    ensures PayloadIsControl(b) == IsControl(ParseMessage(b, semantic).value)
  {
    var absent := MessageSpelled(b, semantic);
    ControlAgrees(ParseMessage(b, semantic).value, absent);
  }
}
