/** The transports (lib/UnencryptedTransport.js, lib/Transport.js): how their
    constructors resolve `hostname`, `port`, `agent` and `tls`, the options
    they hand to Node's `http.request`/`https.request`, and how a request's
    body is sent. The network calls themselves are not modelled: the shaped
    options and the send decision are the results. */
module Transports {
  import opened Results
  import opened JsValues
  import opened Requests

  const BadOptions := "Expected `options` to be an object."

  const TlsWithAgent := "Unexpected `tls`, `agent` is not `false`."

  const BadTls := "Expected `tls` to be an object."

  /** `hostname`, `port` and `agent` as they read on the transport object,
      own or inherited; any JavaScript value. */
  datatype TransportState = TransportState(hostname: Value, port: Value, agent: Value)

  /** The own option `k` when `options` has one, else `fallback`. */
  function OptionOr(options: Value, k: string, fallback: Value): Value {
    if HasOwn(options, k) then Get(options, k) else fallback
  }

  /** The `UnencryptedTransport` constructor on a transport whose fields read
      `s`: the fields it assigns, or the error it throws before assigning
      any. */
  function Configure(s: TransportState, options: Value): Result<TransportState> {
    var hostname := if Truthy(s.hostname) then s.hostname else Str("localhost");
    var port := if Truthy(s.port) then s.port else Num(Int(80));
    if !Truthy(options) then Ok(TransportState(hostname, port, s.agent))
    else if TypeOf(options) != "object" then Err(BadOptions)
    else Ok(TransportState(
      OptionOr(options, "hostname", hostname),
      OptionOr(options, "port", port),
      OptionOr(options, "agent", s.agent)))
  }

  /** Truthy options that are not an object are rejected; anything else is
      accepted. This and `ConfigureResolves` spell `Configure` out case by
      case; `ConfigureFalsyOptions` and `SecureBase` relate it to other
      inputs. */
  lemma ConfigureErrors(s: TransportState, options: Value)
    ensures Configure(s, options).Err? <==> Truthy(options) && !IsObject(options)
    ensures Configure(s, options).Err? ==> Configure(s, options) == Err(BadOptions)
  {
  }

  /** Each field is the option when the options own it, else the existing
      value when truthy, else the default: `'localhost'`, `80`, and for
      `agent` the existing value whatever it is. */
  lemma ConfigureResolves(s: TransportState, options: Value, k: string)
    requires Configure(s, options).Ok?
    requires k == "hostname" || k == "port" || k == "agent"
    ensures var t := Configure(s, options).value;
      var field := if k == "hostname" then t.hostname else if k == "port" then t.port else t.agent;
      var existing := if k == "hostname" then s.hostname else if k == "port" then s.port else s.agent;
      var default := if k == "hostname" then Str("localhost") else if k == "port" then Num(Int(80)) else existing;
      (Truthy(options) && HasOwn(options, k) ==> field == Get(options, k)) &&
      (!(Truthy(options) && HasOwn(options, k)) ==>
        field == if Truthy(existing) then existing else default)
  {
  }

  /** Falsy options are the same as an empty options object. */
  lemma ConfigureFalsyOptions(s: TransportState, options: Value)
    requires !Truthy(options)
    ensures Configure(s, options) == Configure(s, Literal([]))
  {
  }

  /** Running the constructor again with the same options changes nothing:
      the defaults it writes are truthy, so they are kept. The library never
      does this; the lemma is a consistency check on the resolution rule. */
  lemma ConfigureIdempotent(s: TransportState, options: Value)
    requires Configure(s, options).Ok?
    ensures Configure(Configure(s, options).value, options) == Configure(s, options)
  {
  }

  /** A transport with its field state and the options it shapes. */
  class UnencryptedTransport {
    var hostname: Value
    var port: Value
    var agent: Value

    function State(): TransportState
      reads this
    {
      TransportState(hostname, port, agent)
    }

    /** The values a subclass or prototype provides before the constructor
        body runs. */
    constructor Inherit(hostname: Value, port: Value, agent: Value)
      ensures State() == TransportState(hostname, port, agent)
    {
      this.hostname := hostname;
      this.port := port;
      this.agent := agent;
    }

    /** The constructor body `UnencryptedTransport(options)`. */
    method Init(options: Value) returns (outcome: Outcome)
      modifies this
      ensures Configure(old(State()), options).Ok? ==>
        outcome == Pass && State() == Configure(old(State()), options).value
      ensures Configure(old(State()), options).Err? ==>
        outcome == Fail(BadOptions) && State() == old(State())
    {
      var hostname := if Truthy(this.hostname) then this.hostname else Str("localhost");
      var port := if Truthy(this.port) then this.port else Num(Int(80));
      var agent := this.agent;
      if Truthy(options) {
        if TypeOf(options) != "object" {
          return Fail(BadOptions);
        }
        if HasOwn(options, "hostname") {
          hostname := Get(options, "hostname");
        }
        if HasOwn(options, "port") {
          port := Get(options, "port");
        }
        if HasOwn(options, "agent") {
          agent := Get(options, "agent");
        }
      }
      this.hostname := hostname;
      this.port := port;
      this.agent := agent;
      return Pass;
    }

    /** `issueRequest(descriptor)`: the options object handed to
        `_makeRequest`, and how the body is sent. */
    method IssueRequest(d: Outgoing) returns (options: HttpOptions, dispatch: Dispatch)
      ensures fresh(options)
      ensures options.request == RequestOptions(hostname, port, agent, d.verb, d.path, d.headers, d.auth)
      ensures options.tlsSettings == NoTlsSettings
      ensures dispatch == DispatchOf(d.body)
    {
      options := new HttpOptions(RequestOptions(hostname, port, agent, d.verb, d.path, d.headers, d.auth));
      if d.body.Some? {
        if Truthy(d.body.value.stream) {
          dispatch := Pipe(d.body.value.stream);
        } else {
          dispatch := End(d.body.value.chunk);
        }
      } else {
        dispatch := End(None);
      }
    }
  }

  // ---------------------------------------------------------------------
  // Shaping and dispatch
  // ---------------------------------------------------------------------

  /** A request body object as `issueRequest` reads it: its `stream`
      (`undefined` when absent) and its `chunk`. */
  datatype BodyFields = BodyFields(stream: Value, chunk: Option<Chunk>)

  /** The descriptor `issueRequest` is given; `body` is `None` for a falsy
      body. */
  datatype Outgoing = Outgoing(verb: string, path: string, headers: HeaderMap, body: Option<BodyFields>, auth: Value)

  /** How the body goes out: piped from a stream, or written with `end`. */
  datatype Dispatch = Pipe(stream: Value) | End(data: Option<Chunk>)

  /** The body object of a built request. */
  function BodyFieldsOf(b: Body): Option<BodyFields> {
    match b
    case NoBody => None
    case StreamBody(s) => Some(BodyFields(s, None))
    case ChunkBody(c) => Some(BodyFields(Undefined, Some(c)))
  }

  /** A built request as `issueRequest` sees it. */
  function OutgoingOf(d: Descriptor): Outgoing {
    Outgoing(d.verb, d.path, d.headers, BodyFieldsOf(d.body), d.auth)
  }

  /** The body dispatch of `issueRequest`. */
  function DispatchOf(body: Option<BodyFields>): Dispatch {
    match body
    case None => End(None)
    case Some(b) => if Truthy(b.stream) then Pipe(b.stream) else End(b.chunk)
  }

  /** A truthy stream is piped and nothing is written, whatever chunk is
      there too; otherwise a body ends with its chunk, and no body ends with
      no data. This spells `DispatchOf` out; `RequestDispatch` ties it to the
      bodies `Request` builds. */
  lemma DispatchRules(body: Option<BodyFields>)
    ensures body.Some? && Truthy(body.value.stream) ==> DispatchOf(body) == Pipe(body.value.stream)
    ensures body.Some? && !Truthy(body.value.stream) ==> DispatchOf(body) == End(body.value.chunk)
    ensures body.None? ==> DispatchOf(body) == End(None)
    ensures DispatchOf(body).End? ==> DispatchOf(body).data == if body.Some? then body.value.chunk else None
  {
  }

  /** A built request is sent as its body says: its stream piped, its chunk
      written, or nothing. */
  lemma RequestDispatch(c: Clients.ClientState, verb: string, options: Value)
    requires Clients.Flat(c) && Describe(c, verb, options).Ok?
    ensures var d := Describe(c, verb, options).value;
      DispatchOf(OutgoingOf(d).body) ==
        match d.body
        case NoBody => End(None)
        case StreamBody(s) => Pipe(s)
        case ChunkBody(chunk) => End(Some(chunk))
  {
    var d := Describe(c, verb, options).value;
    DescribedRequest(c, verb, options);
    BuiltStreamPipes(HeadersOf(c.headers, options).value, options);
  }

  /** A stream body `buildBody` accepts is truthy and has a `pipe` function. */
  lemma BuiltStreamPipes(m: HeaderMap, options: Value)
    ensures BodyOf(m, options).1.Ok? && BodyOf(m, options).1.value.StreamBody? ==>
      var s := BodyOf(m, options).1.value.stream;
      Truthy(s) && Get(s, "pipe").Func? && s == Get(options, "stream")
  {
  }

  /** The options `issueRequest` passes to `_makeRequest`: the transport's
      `hostname`, `port` and `agent` and the descriptor's `method`, `path`,
      `headers` and `auth`, and nothing else. */
  datatype RequestOptions = RequestOptions(
    hostname: Value, port: Value, agent: Value,
    verb: string, path: string, headers: HeaderMap, auth: Value)

  /** The TLS properties `Transport#_makeRequest` may add to the options;
      `None` where a property has not been set. */
  datatype TlsSettings = TlsSettings(
    pfx: Option<Value>, key: Option<Value>, passphrase: Option<Value>, cert: Option<Value>,
    ca: Option<Value>, ciphers: Option<Value>, rejectUnauthorized: Option<Value>,
    secureProtocol: Option<Value>)

  const NoTlsSettings := TlsSettings(None, None, None, None, None, None, None, None)

  /** The names of the TLS properties that are copied. */
  const TlsKeys: seq<string> :=
    ["pfx", "key", "passphrase", "cert", "ca", "ciphers", "rejectUnauthorized", "secureProtocol"]

  /** The setting named `k`. */
  function Setting(t: TlsSettings, k: string): Option<Value> {
    if k == "pfx" then t.pfx
    else if k == "key" then t.key
    else if k == "passphrase" then t.passphrase
    else if k == "cert" then t.cert
    else if k == "ca" then t.ca
    else if k == "ciphers" then t.ciphers
    else if k == "rejectUnauthorized" then t.rejectUnauthorized
    else if k == "secureProtocol" then t.secureProtocol
    else None
  }

  /** A mutable options object for `http.request`/`https.request`. */
  class HttpOptions {
    var request: RequestOptions
    var tlsSettings: TlsSettings

    constructor (request: RequestOptions)
      ensures this.request == request && tlsSettings == NoTlsSettings
    {
      this.request := request;
      tlsSettings := NoTlsSettings;
    }
  }

  // ---------------------------------------------------------------------
  // The TLS transport
  // ---------------------------------------------------------------------

  /** The fields of a `Transport`: those of its base and `tls`. */
  datatype SecureState = SecureState(base: TransportState, tls: Value)

  /** The `Transport` constructor on a transport whose base fields read `s`:
      the fields afterwards and the outcome. `port` defaults to 443 and
      `tls` to `null` before the base constructor runs, so both are assigned
      even when it throws; the `tls` checks come after the base fields are
      assigned. */
  function ConfigureSecure(s: TransportState, options: Value): (SecureState, Outcome) {
    var before := TransportState(s.hostname, if Truthy(s.port) then s.port else Num(Int(443)), s.agent);
    match Configure(before, options)
    case Err(m) => (SecureState(before, Null), Fail(m))
    case Ok(t) =>
      if Truthy(options) && HasOwn(options, "tls") then
        if t.agent != Bool(false) then (SecureState(t, Null), Fail(TlsWithAgent))
        else if !IsObject(Get(options, "tls")) then (SecureState(t, Null), Fail(BadTls))
        else (SecureState(t, Get(options, "tls")), Pass)
      else (SecureState(t, Null), Pass)
  }

  /** Without a `port` option and without an existing port, the port is
      443, not 80, whatever the outcome: it is assigned before anything can
      throw. */
  lemma SecurePortDefault(s: TransportState, options: Value)
    requires !Truthy(s.port) && !(Truthy(options) && HasOwn(options, "port"))
    ensures ConfigureSecure(s, options).0.base.port == Num(Int(443))
  {
  }

  /** Apart from the port default, the base fields resolve as for the
      unencrypted transport, and its errors come first. When the base
      constructor throws, the port and `tls` assigned before it stay. */
  lemma SecureBase(s: TransportState, options: Value)
    ensures var before := TransportState(s.hostname, if Truthy(s.port) then s.port else Num(Int(443)), s.agent);
      (Configure(before, options).Err? ==> ConfigureSecure(s, options).1 == Fail(BadOptions)) &&
      (Configure(before, options).Err? ==> ConfigureSecure(s, options).0 == SecureState(before, Null)) &&
      (Configure(before, options).Ok? ==> ConfigureSecure(s, options).0.base == Configure(before, options).value)
  {
  }

  /** `tls` is `null` unless a `tls` option is accepted; it is accepted
      exactly when the resolved `agent` is `false` and the option is an
      object, and then it is stored as given. */
  lemma SecureTls(s: TransportState, options: Value)
    requires !Truthy(options) || IsObject(options)
    ensures var (t, outcome) := ConfigureSecure(s, options);
      (!(Truthy(options) && HasOwn(options, "tls")) ==> t.tls == Null && outcome == Pass) &&
      (Truthy(options) && HasOwn(options, "tls") ==>
        (t.base.agent != Bool(false) ==> outcome == Fail(TlsWithAgent) && t.tls == Null) &&
        (t.base.agent == Bool(false) && !IsObject(Get(options, "tls")) ==> outcome == Fail(BadTls) && t.tls == Null) &&
        (t.base.agent == Bool(false) && IsObject(Get(options, "tls")) ==> outcome == Pass && t.tls == Get(options, "tls")))
  {
  }

  /** The settings `_makeRequest` copies from a truthy `tls`. */
  function CopiedSettings(tls: Value): (r: TlsSettings)
    ensures forall i :: 0 <= i < |TlsKeys| ==> Setting(r, TlsKeys[i]) == Some(Get(tls, TlsKeys[i]))
  {
    TlsSettings(Some(Get(tls, "pfx")), Some(Get(tls, "key")), Some(Get(tls, "passphrase")),
      Some(Get(tls, "cert")), Some(Get(tls, "ca")), Some(Get(tls, "ciphers")),
      Some(Get(tls, "rejectUnauthorized")), Some(Get(tls, "secureProtocol")))
  }

  /** Exactly the eight TLS properties are copied, and no other name is
      set. */
  lemma CopiedExactly(tls: Value, k: string)
    ensures Setting(CopiedSettings(tls), k).Some? <==> k in TlsKeys
    ensures k in TlsKeys ==> Setting(CopiedSettings(tls), k) == Some(Get(tls, k))
  {
    if k in TlsKeys {
      var i :| 0 <= i < |TlsKeys| && TlsKeys[i] == k;
    }
  }

  /** A `Transport`: the base transport it extends, and `tls`. */
  class Transport {
    const base: UnencryptedTransport
    var tls: Value

    function Secure(): SecureState
      reads this, base
    {
      SecureState(base.State(), tls)
    }

    /** The values a subclass or prototype provides before the constructor
        body runs. */
    constructor Inherit(hostname: Value, port: Value, agent: Value)
      ensures fresh(base)
      ensures Secure() == SecureState(TransportState(hostname, port, agent), Undefined)
    {
      base := new UnencryptedTransport.Inherit(hostname, port, agent);
      tls := Undefined;
    }

    /** The constructor body `Transport(options)`. */
    method Init(options: Value) returns (outcome: Outcome)
      modifies this, base
      ensures (Secure(), outcome) == ConfigureSecure(old(base.State()), options)
    {
      base.port := if Truthy(base.port) then base.port else Num(Int(443));
      tls := Null;
      outcome := base.Init(options);
      if outcome.Fail? {
        return;
      }
      if Truthy(options) && HasOwn(options, "tls") {
        if base.agent != Bool(false) {
          return Fail(TlsWithAgent);
        }
        var t := Get(options, "tls");
        if !IsObject(t) {
          return Fail(BadTls);
        }
        tls := t;
      }
    }

    /** `_makeRequest(options)`: with a truthy `tls`, its eight properties
        are set on `options` one by one; otherwise `options` is untouched. */
    method MakeRequest(options: HttpOptions)
      modifies options
      ensures options.request == old(options.request)
      ensures options.tlsSettings == if Truthy(tls) then CopiedSettings(tls) else old(options.tlsSettings)
    {
      if Truthy(tls) {
        options.tlsSettings := options.tlsSettings.(pfx := Some(Get(tls, "pfx")));
        options.tlsSettings := options.tlsSettings.(key := Some(Get(tls, "key")));
        options.tlsSettings := options.tlsSettings.(passphrase := Some(Get(tls, "passphrase")));
        options.tlsSettings := options.tlsSettings.(cert := Some(Get(tls, "cert")));
        options.tlsSettings := options.tlsSettings.(ca := Some(Get(tls, "ca")));
        options.tlsSettings := options.tlsSettings.(ciphers := Some(Get(tls, "ciphers")));
        options.tlsSettings := options.tlsSettings.(rejectUnauthorized := Some(Get(tls, "rejectUnauthorized")));
        options.tlsSettings := options.tlsSettings.(secureProtocol := Some(Get(tls, "secureProtocol")));
      }
    }

    /** The inherited `issueRequest`, which calls this `_makeRequest`: the
        shaped options, with the TLS settings when `tls` is set. */
    method IssueRequest(d: Outgoing) returns (options: HttpOptions, dispatch: Dispatch)
      ensures fresh(options)
      ensures options.request ==
        RequestOptions(base.hostname, base.port, base.agent, d.verb, d.path, d.headers, d.auth)
      ensures options.tlsSettings == if Truthy(tls) then CopiedSettings(tls) else NoTlsSettings
      ensures dispatch == DispatchOf(d.body)
    {
      options, dispatch := base.IssueRequest(d);
      MakeRequest(options);
    }
  }
}
