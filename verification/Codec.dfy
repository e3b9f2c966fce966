/** The encoder and the decoder as they run: a growing buffer, and a cursor over a payload.  Both are
    proved against the wire form of module Protocol. */
module Codec {
  import opened Wrappers
  import opened Bytes
  import opened Protocol

  const USIZE_MAX: nat := 0xFFFF_FFFF_FFFF_FFFF
  const ISIZE_MAX: nat := 0x7FFF_FFFF_FFFF_FFFF

  /** No slice is longer than this. */
  type Slice = s: Octets | |s| <= ISIZE_MAX

  // ---- Encoded messages ----------------------------------------------------------------------------

  /** What `encode` answers: every length must have a four-octet form, and the whole a place in the
      frame. */
  function Encoded(m: Message, limit: nat): Result<Octets, Fault> {
    if !SizedBody(m.body) then Err(Violation)
    else if |PutMessage(m, 0)| > limit then Err(TooLarge)
    else Ok(PutMessage(m, 0))
  }

  // ---- Encoder -----------------------------------------------------------------------------------

  /** `rest` is what will follow: each method puts its value between the buffer and that. */
  class Encoder {
    var buf: Octets

    constructor ()
      ensures buf == []
    {
      buf := [];
    }

    method U8(value: Byte, ghost rest: Octets)
      modifies this
      ensures buf + rest == old(buf) + PutU8(value, rest)
    {
      buf := buf + [value];
    }

    method Extend(s: Octets, ghost rest: Octets)
      modifies this
      ensures buf + rest == old(buf) + Join(s, rest)
    {
      JoinIsConcatenation(s, rest);
      buf := buf + s;
    }

    method U16(value: U16, ghost rest: Octets)
      modifies this
      ensures buf + rest == old(buf) + PutInt(2, value, rest)
    {
      Extend(BigEndian(2, value), rest);
    }

    method U32(value: nat, ghost rest: Octets) returns (r: Result<(), Fault>)
      modifies this
      ensures r == if value < U32_LIMIT then Ok(()) else Err(Violation)
      ensures r.Ok? ==> buf + rest == old(buf) + PutInt(4, value, rest)
    {
      if value >= U32_LIMIT { return Err(Violation); }
      Extend(BigEndian(4, value), rest);
      return Ok(());
    }

    method U64(value: U64, ghost rest: Octets)
      modifies this
      ensures buf + rest == old(buf) + PutInt(8, value, rest)
    {
      Extend(BigEndian(8, value), rest);
    }

    method Bytes(value: Octets, ghost rest: Octets) returns (r: Result<(), Fault>)
      modifies this
      ensures r == if Sized(value) then Ok(()) else Err(Violation)
      ensures r.Ok? ==> buf + rest == old(buf) + PutBytes(value, rest)
    {
      var _ :- U32(|value|, Join(value, rest));
      Extend(value, rest);
      return Ok(());
    }

    method Limits(l: Limits, ghost rest: Octets) returns (r: Result<(), Fault>)
      modifies this
      ensures r == if FitsLimits(l) then Ok(()) else Err(Violation)
      ensures r.Ok? ==> buf + rest == old(buf) + PutLimits(l, rest)
    {
      ghost var b4 := PutInt(4, l.inflight, rest);
      ghost var b3 := PutInt(4, l.response, b4);
      ghost var b2 := PutInt(4, l.request, b3);
      var _ :- U32(l.frame, PutInt(4, l.artifact, b2));
      var _ :- U32(l.artifact, b2);
      var _ :- U32(l.request, b3);
      var _ :- U32(l.response, b4);
      r := U32(l.inflight, rest);
    }

    method Greet(g: Greeting, ghost rest: Octets) returns (r: Result<(), Fault>)
      modifies this
      ensures r == if FitsLimits(g.limits) then Ok(()) else Err(Violation)
      ensures r.Ok? ==> buf + rest == old(buf) + PutGreeting(g, rest)
    {
      ghost var b3 := PutLimits(g.limits, rest);
      ghost var b2 := PutInt(8, g.required, b3);
      ghost var b1 := PutInt(8, g.supported, b2);
      U16(g.major, PutInt(2, g.minor, b1));
      U16(g.minor, b1);
      U64(g.supported, b2);
      U64(g.required, b3);
      r := Limits(g.limits, rest);
    }

    method Key(k: Key, ghost rest: Octets) returns (r: Result<(), Fault>)
      modifies this
      ensures r == if SizedKey(k) then Ok(()) else Err(Violation)
      ensures r.Ok? ==> buf + rest == old(buf) + PutKey(k, rest)
    {
      ghost var b1 := PutInt(4, k.version, rest);
      var _ :- Bytes(k.namespace, PutBytes(k.name, b1));
      var _ :- Bytes(k.name, b1);
      r := U32(k.version, rest);
    }

    method KeyAt(ks: seq<Key>, i: nat, ghost rest: Octets, ghost goal: Octets) returns (r: Result<(), Fault>)
      requires i < |ks| && buf + PutAll(PutKey, ks[i..], rest) == goal
      modifies this
      ensures r == if SizedKey(ks[i]) then Ok(()) else Err(Violation)
      ensures r.Ok? ==> buf + PutAll(PutKey, ks[i + 1..], rest) == goal
    {
      AllFrom(PutKey, ks, i, rest);
      r := Key(ks[i], PutAll(PutKey, ks[i + 1..], rest));
    }

    method Keys(ks: seq<Key>, ghost rest: Octets) returns (r: Result<(), Fault>)
      modifies this
      ensures r == if |ks| < U32_LIMIT && SizedKeys(ks) then Ok(()) else Err(Violation)
      ensures r.Ok? ==> buf + rest == old(buf) + PutList(PutKey, ks, rest)
    {
      ghost var goal := buf + PutList(PutKey, ks, rest);
      var _ :- U32(|ks|, PutAll(PutKey, ks, rest));
      for i := 0 to |ks|
        invariant forall j :: 0 <= j < i ==> SizedKey(ks[j])
        invariant buf + PutAll(PutKey, ks[i..], rest) == goal
      {
        var _ :- KeyAt(ks, i, rest, goal);
      }
      return Ok(());
    }

    method DeclarationAt(ds: seq<Declaration>, i: nat, ghost rest: Octets, ghost goal: Octets) returns (r: Result<(), Fault>)
      requires i < |ds| && buf + PutAll(PutDeclaration, ds[i..], rest) == goal
      modifies this
      ensures r == if SizedKey(ds[i].key) then Ok(()) else Err(Violation)
      ensures r.Ok? ==> buf + PutAll(PutDeclaration, ds[i + 1..], rest) == goal
    {
      AllFrom(PutDeclaration, ds, i, rest);
      ghost var tail := PutAll(PutDeclaration, ds[i + 1..], rest);
      U64(ds[i].route, PutKey(ds[i].key, tail));
      r := Key(ds[i].key, tail);
    }

    method Declarations(ds: seq<Declaration>, ghost rest: Octets) returns (r: Result<(), Fault>)
      modifies this
      ensures r == if |ds| < U32_LIMIT && SizedDeclarations(ds) then Ok(()) else Err(Violation)
      ensures r.Ok? ==> buf + rest == old(buf) + PutList(PutDeclaration, ds, rest)
    {
      ghost var goal := buf + PutList(PutDeclaration, ds, rest);
      var _ :- U32(|ds|, PutAll(PutDeclaration, ds, rest));
      for i := 0 to |ds|
        invariant forall j :: 0 <= j < i ==> SizedKey(ds[j].key)
        invariant buf + PutAll(PutDeclaration, ds[i..], rest) == goal
      {
        var _ :- DeclarationAt(ds, i, rest, goal);
      }
      return Ok(());
    }

    method Descriptor(d: Descriptor, ghost rest: Octets) returns (r: Result<(), Fault>)
      modifies this
      ensures r == if SizedDescriptor(d) then Ok(()) else Err(Violation)
      ensures r.Ok? ==> buf + rest == old(buf) + PutDescriptor(d, rest)
    {
      ghost var b4 := PutInt(8, d.revision, rest);
      ghost var b3 := PutU8(PolicyCode(d.policy), b4);
      ghost var b2 := PutList(PutKey, d.provisions, b3);
      var _ :- Bytes(d.name, PutList(PutKey, d.dependencies, b2));
      var _ :- Keys(d.dependencies, b2);
      var _ :- Keys(d.provisions, b3);
      U8(PolicyCode(d.policy), b4);
      U64(d.revision, rest);
      return Ok(());
    }

    method Host(e: HostError, ghost rest: Octets) returns (r: Result<(), Fault>)
      modifies this
      ensures r == if Sized(e.message) then Ok(()) else Err(Violation)
      ensures r.Ok? ==> buf + rest == old(buf) + PutHost(e, rest)
    {
      U8(KindCode(e.kind), PutBytes(e.message, rest));
      r := Bytes(e.message, rest);
    }

    method Domain(e: DomainError, ghost rest: Octets) returns (r: Result<(), Fault>)
      modifies this
      ensures r == if SizedDomain(e) then Ok(()) else Err(Violation)
      ensures r.Ok? ==> buf + rest == old(buf) + PutDomain(e, 0, rest)
    {
      match e.details {
        case None =>
          ghost var b := PutU8(0, rest);
          var _ :- Bytes(e.code, PutBytes(e.message, b));
          var _ :- Bytes(e.message, b);
          U8(0, rest);
          return Ok(());
        case Some(d) =>
          ghost var b2 := PutBytes(d.payload, rest);
          ghost var b1 := PutBytes(d.format, b2);
          var _ :- Bytes(e.code, PutBytes(e.message, PutU8(1, b1)));
          var _ :- Bytes(e.message, PutU8(1, b1));
          U8(1, b1);
          var _ :- Bytes(d.format, b2);
          r := Bytes(d.payload, rest);
      }
    }

    method Failed(x: WireFailure, ghost rest: Octets) returns (r: Result<(), Fault>)
      modifies this
      ensures r == if SizedBody(Failure(x)) then Ok(()) else Err(Violation)
      ensures r.Ok? ==> buf + rest == old(buf) + PutFailure(x, 0, rest)
    {
      match x {
        case HostSide(e) =>
          U8(0, PutHost(e, rest));
          r := Host(e, rest);
        case DomainSide(e) =>
          U8(1, PutDomain(e, 0, rest));
          r := Domain(e, rest);
      }
    }

    method Outcome(x: InvokeOutcome, ghost rest: Octets) returns (r: Result<(), Fault>)
      modifies this
      ensures r == if SizedBody(InvokeResult(x)) then Ok(()) else Err(Violation)
      ensures r.Ok? ==> buf + rest == old(buf) + PutOutcome(x, 0, rest)
    {
      match x {
        case Success(format, bytes) =>
          U8(0, PutBytes(format, PutBytes(bytes, rest)));
          var _ :- Bytes(format, PutBytes(bytes, rest));
          r := Bytes(bytes, rest);
        case RemoteDomain(e) =>
          U8(1, PutDomain(e, 0, rest));
          r := Domain(e, rest);
        case HostFailure(e) =>
          U8(2, PutHost(e, rest));
          r := Host(e, rest);
      }
    }

    method Loading(format: Str, revision: U64, payload: Octets, ghost rest: Octets) returns (r: Result<(), Fault>)
      modifies this
      ensures r == if Sized(format) && Sized(payload) then Ok(()) else Err(Violation)
      ensures r.Ok? ==> buf + rest == old(buf) + PutLoad(format, revision, payload, rest)
    {
      var _ :- Bytes(format, PutInt(8, revision, PutBytes(payload, rest)));
      U64(revision, PutBytes(payload, rest));
      r := Bytes(payload, rest);
    }

    method Invoking(route: U64, format: Str, bytes: Octets, remaining: U64, ghost rest: Octets) returns (r: Result<(), Fault>)
      modifies this
      ensures r == if Sized(format) && Sized(bytes) then Ok(()) else Err(Violation)
      ensures r.Ok? ==> buf + rest == old(buf) + PutInvoke(route, format, bytes, remaining, rest)
    {
      ghost var b1 := PutInt(8, remaining, rest);
      U64(route, PutBytes(format, PutBytes(bytes, b1)));
      var _ :- Bytes(format, PutBytes(bytes, b1));
      var _ :- Bytes(bytes, b1);
      U64(remaining, rest);
      return Ok(());
    }

    method Body(body: Body, ghost rest: Octets) returns (r: Result<(), Fault>)
      modifies this
      ensures r == if SizedBody(body) then Ok(()) else Err(Violation)
      ensures r.Ok? ==> buf + rest == old(buf) + PutBody(body, 0, rest)
    {
      r := Ok(());
      match body {
        case Hello(g) => r := Greet(g, rest);
        case HelloAck(g) => r := Greet(g, rest);
        case Load(format, revision, payload) => r := Loading(format, revision, payload, rest);
        case Loaded(route, d) => U64(route, PutDescriptor(d, rest)); r := Descriptor(d, rest);
        case Start(route) => U64(route, rest);
        case Started(ds) => r := Declarations(ds, rest);
        case DisposeRoute(route) => U64(route, rest);
        case Failure(x) => r := Failed(x, rest);
        case Invoke(route, format, bytes, remaining) => r := Invoking(route, format, bytes, remaining, rest);
        case InvokeResult(x) => r := Outcome(x, rest);
        case _ =>
      }
    }
  }

  lemma AllFrom<T>(put: (T, Octets) -> Octets, xs: seq<T>, i: nat, rest: Octets)
    requires i < |xs|
    ensures PutAll(put, xs[i..], rest) == put(xs[i], PutAll(put, xs[i + 1..], rest))
  {
    assert xs[i..][1..] == xs[i + 1..];
  }

  method Encode(m: Message, limit: nat) returns (r: Result<Octets, Fault>)
    ensures r == Encoded(m, limit)
  {
    var e := new Encoder();
    ghost var body := PutBody(m.body, 0, []);
    e.U8(Tag(m.body), PutInt(8, m.id, body));
    e.U64(m.id, body);
    var _ :- e.Body(m.body, []);
    assert e.buf == e.buf + [] == PutMessage(m, 0);
    return if |e.buf| > limit then Err(TooLarge) else Ok(e.buf);
  }

  // ---- Decoder -----------------------------------------------------------------------------------

  /** The outcome of a read is that of the parsing function, and so is what is left to read. */
  predicate Reads<T(==)>(r: Result<T, Fault>, p: Parsed<T>, rest: Octets) {
    match p
    case Got(x, after) => r == Ok(x) && rest == after
    case Bad(fault) => r == Err(fault)
  }

  class Decoder {
    const bytes: Slice
    var at: nat

    ghost predicate Valid()
      reads this
    {
      at <= |bytes|
    }

    ghost function Rest(): Octets
      requires Valid()
      reads this
    {
      bytes[at..]
    }

    constructor (bytes: Slice)
      ensures Valid() && Rest() == bytes
    {
      this.bytes := bytes;
      at := 0;
    }

    method Take(count: nat) returns (r: Result<Octets, Fault>)
      requires Valid()
      modifies this
      ensures Valid()
      ensures r == if count <= |old(Rest())| then Ok(old(Rest())[..count]) else Err(Violation)
      ensures Rest() == if r.Ok? then old(Rest())[count..] else old(Rest())
    {
      if at + count > USIZE_MAX { return Err(Violation); }
      var end := at + count;
      if end > |bytes| { return Err(Violation); }
      assert bytes[at..end] == Rest()[..count] && bytes[end..] == Rest()[count..];
      r := Ok(bytes[at..end]);
      at := end;
    }

    method U8() returns (r: Result<Byte, Fault>)
      requires Valid()
      modifies this
      ensures Valid() && Reads(r, ParseU8(old(Rest())), Rest())
    {
      var s :- Take(1);
      return Ok(s[0]);
    }

    method U16() returns (r: Result<U16, Fault>)
      requires Valid()
      modifies this
      ensures Valid() && Reads(r, ParseU16(old(Rest())), Rest())
    {
      ParseIntBound(2, Rest());
      var s :- Take(2);
      return Ok(Value(s));
    }

    method U32() returns (r: Result<U32, Fault>)
      requires Valid()
      modifies this
      ensures Valid() && Reads(r, ParseU32(old(Rest())), Rest())
    {
      ParseIntBound(4, Rest());
      var s :- Take(4);
      return Ok(Value(s));
    }

    method U64() returns (r: Result<U64, Fault>)
      requires Valid()
      modifies this
      ensures Valid() && Reads(r, ParseU64(old(Rest())), Rest())
    {
      ParseIntBound(8, Rest());
      var s :- Take(8);
      return Ok(Value(s));
    }

    method Bytes(limit: nat) returns (r: Result<Octets, Fault>)
      requires Valid()
      modifies this
      ensures Valid() && Reads(r, ParseBytes(old(Rest()), limit), Rest())
    {
      var len :- U32();
      if len > limit { return Err(TooLarge); }
      r := Take(len);
    }

    method Text() returns (r: Result<Str, Fault>)
      requires Valid()
      modifies this
      ensures Valid() && Reads(r, ParseText(old(Rest())), Rest())
    {
      var s :- Bytes(MAX_STRING);
      if !Utf8(s) { return Err(Violation); }
      return Ok(s);
    }

    method Limits() returns (r: Result<Protocol.Limits, Fault>)
      requires Valid()
      modifies this
      ensures Valid() && Reads(r, ParseLimits(old(Rest())), Rest())
    {
      var frame :- U32();
      var artifact :- U32();
      var request :- U32();
      var response :- U32();
      var inflight :- U32();
      return Ok(Protocol.Limits(frame, artifact, request, response, inflight));
    }

    method Greet() returns (r: Result<Greeting, Fault>)
      requires Valid()
      modifies this
      ensures Valid() && Reads(r, ParseGreeting(old(Rest())), Rest())
    {
      var major :- U16();
      var minor :- U16();
      var supported :- U64();
      var required :- U64();
      var limits :- Limits();
      return Ok(Greeting(major, minor, supported, required, limits));
    }

    method Key() returns (r: Result<Protocol.Key, Fault>)
      requires Valid()
      modifies this
      ensures Valid() && Reads(r, ParseKey(old(Rest())), Rest())
    {
      var namespace :- Text();
      var name :- Text();
      var version :- U32();
      return Ok(Protocol.Key(namespace, name, version));
    }

    method Keys() returns (r: Result<seq<Protocol.Key>, Fault>)
      requires Valid()
      modifies this
      ensures Valid() && Reads(r, ParseList(ParseKey, MAX_ITEMS, old(Rest())), Rest())
    {
      var count :- U32();
      if count > MAX_ITEMS { return Err(TooLarge); }
      ghost var whole := ParseAll(ParseKey, count, Rest());
      var values := [];
      AfterNone(whole);
      for i := 0 to count
        invariant Valid()
        invariant whole == After(values, ParseAll(ParseKey, count - i, Rest()))
      {
        ghost var before := Rest();
        var key := Key();
        AfterOne(whole, values, ParseKey, count - i, before, key, Rest());
        if key.Err? { return Err(key.error); }
        values := values + [key.value];
      }
      AfterAll(values, ParseKey, Rest());
      return Ok(values);
    }

    method Declarations() returns (r: Result<seq<Declaration>, Fault>)
      requires Valid()
      modifies this
      ensures Valid() && Reads(r, ParseList(ParseDeclaration, MAX_DECLARATIONS, old(Rest())), Rest())
    {
      var count :- U32();
      if count > MAX_DECLARATIONS { return Err(TooLarge); }
      ghost var whole := ParseAll(ParseDeclaration, count, Rest());
      var values := [];
      AfterNone(whole);
      for i := 0 to count
        invariant Valid()
        invariant whole == After(values, ParseAll(ParseDeclaration, count - i, Rest()))
      {
        ghost var before := Rest();
        var declaration := Declared();
        AfterOne(whole, values, ParseDeclaration, count - i, before, declaration, Rest());
        if declaration.Err? { return Err(declaration.error); }
        values := values + [declaration.value];
      }
      AfterAll(values, ParseDeclaration, Rest());
      return Ok(values);
    }

    method Declared() returns (r: Result<Declaration, Fault>)
      requires Valid()
      modifies this
      ensures Valid() && Reads(r, ParseDeclaration(old(Rest())), Rest())
    {
      var route :- U64();
      var key :- Key();
      return Ok(Declaration(route, key));
    }

    method Descriptor() returns (r: Result<Protocol.Descriptor, Fault>)
      requires Valid()
      modifies this
      ensures Valid() && Reads(r, ParseDescriptor(old(Rest())), Rest())
    {
      var name :- Text();
      var dependencies :- Keys();
      var provisions :- Keys();
      var policy :- U8();
      if policy > 1 { return Err(Violation); }
      var revision :- U64();
      return Ok(Protocol.Descriptor(name, dependencies, provisions, if policy == 0 then Restart else Dispose, revision));
    }

    method Host() returns (r: Result<HostError, Fault>)
      requires Valid()
      modifies this
      ensures Valid() && Reads(r, ParseHost(old(Rest())), Rest())
    {
      var code :- U8();
      var kind :- KindOf(code);
      var message :- Text();
      return Ok(HostError(kind, message));
    }

    method Domain(limit: nat) returns (r: Result<DomainError, Fault>)
      requires Valid()
      modifies this
      ensures Valid() && Reads(r, ParseDomain(old(Rest()), limit), Rest())
    {
      var code :- Text();
      var message :- Text();
      var flag :- U8();
      if flag != 1 { return Ok(DomainError(code, message, None)); }
      var format :- Text();
      var payload :- Bytes(limit);
      return Ok(DomainError(code, message, Some(Details(format, payload))));
    }

    method Failed(limit: nat) returns (r: Result<WireFailure, Fault>)
      requires Valid()
      modifies this
      ensures Valid() && Reads(r, ParseFailure(old(Rest()), limit), Rest())
    {
      var category :- U8();
      if category == 0 {
        var host :- Host();
        return Ok(HostSide(host));
      } else if category == 1 {
        var domain :- Domain(limit);
        return Ok(DomainSide(domain));
      }
      return Err(Violation);
    }

    method Outcome(limit: nat) returns (r: Result<InvokeOutcome, Fault>)
      requires Valid()
      modifies this
      ensures Valid() && Reads(r, ParseOutcome(old(Rest()), limit), Rest())
    {
      var category :- U8();
      if category == 0 {
        var format :- Text();
        var bytes :- Bytes(limit);
        return Ok(Success(format, bytes));
      } else if category == 1 {
        var domain :- Domain(limit);
        return Ok(RemoteDomain(domain));
      } else if category == 2 {
        var host :- Host();
        return Ok(HostFailure(host));
      }
      return Err(Violation);
    }

    method Loading(limit: nat) returns (r: Result<Body, Fault>)
      requires Valid()
      modifies this
      ensures Valid() && Reads(r, ParseLoad(old(Rest()), limit), Rest())
    {
      var format :- Text();
      var revision :- U64();
      var payload :- Bytes(limit);
      return Ok(Load(format, revision, payload));
    }

    method Invoking(limit: nat) returns (r: Result<Body, Fault>)
      requires Valid()
      modifies this
      ensures Valid() && Reads(r, ParseInvoke(old(Rest()), limit), Rest())
    {
      var route :- U64();
      var format :- Text();
      var bytes :- Bytes(limit);
      var remaining :- U64();
      return Ok(Invoke(route, format, bytes, remaining));
    }

    method Body(tag: Byte, semantic: Protocol.Limits) returns (r: Result<Body, Fault>)
      requires Valid()
      modifies this
      ensures Valid() && Reads(r, ParseBody(tag, old(Rest()), semantic), Rest())
    {
      match tag {
        case 1 =>
          var hello :- Greet();
          return Ok(Hello(hello));
        case 2 =>
          var hello :- Greet();
          return Ok(HelloAck(hello));
        case 3 => r := Loading(semantic.artifact);
        case 4 =>
          var route :- U64();
          var descriptor :- Descriptor();
          return Ok(Loaded(route, descriptor));
        case 5 =>
          var route :- U64();
          return Ok(Start(route));
        case 6 =>
          var invocations :- Declarations();
          return Ok(Started(invocations));
        case 7 =>
          var route :- U64();
          return Ok(DisposeRoute(route));
        case 8 => return Ok(Disposed);
        case 9 => return Ok(Shutdown);
        case 10 => return Ok(ShutdownAck);
        case 11 =>
          var failure :- Failed(semantic.response);
          return Ok(Failure(failure));
        case 12 => r := Invoking(semantic.request);
        case 13 =>
          var outcome :- Outcome(semantic.response);
          return Ok(InvokeResult(outcome));
        case 14 => return Ok(Cancel);
        case _ => return Err(Violation);
      }
    }

    method Finish() returns (r: Result<(), Fault>)
      requires Valid()
      ensures r == if Rest() == [] then Ok(()) else Err(Violation)
    {
      return if at == |bytes| then Ok(()) else Err(Violation);
    }
  }

  method Decode(payload: Slice, semantic: Limits) returns (r: Result<Message, Fault>)
    ensures r == ParseMessage(payload, semantic)
  {
    var d := new Decoder(payload);
    var tag :- d.U8();
    var id :- d.U64();
    var body :- d.Body(tag, semantic);
    var _ :- d.Finish();
    return Ok(Message(id, body));
  }

  // ---- Reading an array from the front -------------------------------------------------------------

  function After<T>(values: seq<T>, p: Parsed<seq<T>>): Parsed<seq<T>> {
    match p
    case Bad(fault) => Bad(fault)
    case Got(xs, rest) => Got(values + xs, rest)
  }

  lemma AfterNone<T>(p: Parsed<seq<T>>)
    ensures After([], p) == p
  {
    if p.Got? { assert [] + p.value == p.value; }
  }

  lemma AfterAll<T>(values: seq<T>, parse: Octets -> Parsed<T>, rest: Octets)
    ensures After(values, ParseAll(parse, 0, rest)) == Got(values, rest)
  {
    assert values + [] == values;
  }

  /** One more element read. */
  lemma AfterOne<T>(whole: Parsed<seq<T>>, values: seq<T>, parse: Octets -> Parsed<T>, count: nat, before: Octets,
                    r: Result<T, Fault>, rest: Octets)
    requires count > 0 && whole == After(values, ParseAll(parse, count, before)) && Reads(r, parse(before), rest)
    ensures r.Err? ==> whole == Bad(r.error)
    ensures r.Ok? ==> whole == After(values + [r.value], ParseAll(parse, count - 1, rest))
  {
    if r.Ok? {
      var q := ParseAll(parse, count - 1, rest);
      if q.Got? { assert values + ([r.value] + q.value) == (values + [r.value]) + q.value; }
    }
  }
}
