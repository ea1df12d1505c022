/**
 * The client endpoint configuration (src/channel/endpoint.rs): an immutable
 * record with documented defaults, functional-update setters that each
 * change one field, the fallible user-agent setter, the TLS
 * verification-domain rule, and the order in which `connect*` fail.
 *
 * URI parsing is library code and is passed in as a function; so is the
 * outcome of an eager connection attempt.
 */
module EndpointConfig {
  import opened Wrappers
  import opened Externals
  import opened Errors
  import Tls

  /** `Endpoint`; `tls` is the shared native handshake context. */
  datatype Endpoint = Endpoint(
    uri: Uri,
    tls: NativeConnector,
    tlsVerifyDomain: Option<string>,
    origin: Option<Uri>,
    userAgent: Option<HeaderValue>,
    timeout: Option<Duration>,
    concurrencyLimit: Option<Usize>,
    rateLimit: Option<(U64, Duration)>,
    bufferSize: Option<Usize>,
    initStreamWindowSize: Option<U32>,
    initConnectionWindowSize: Option<U32>,
    tcpKeepalive: Option<Duration>,
    tcpNodelay: bool,
    http2KeepAliveInterval: Option<Duration>,
    http2KeepAliveTimeout: Option<Duration>,
    http2KeepAliveWhileIdle: Option<bool>,
    connectTimeout: Option<Duration>,
    http2AdaptiveWindow: Option<bool>)
  {
    /** `Endpoint::user_agent`: fails unless the value is a valid header value. */
    function WithUserAgent(ua: seq<byte>): (r: Result<Endpoint, Error>)
      ensures r.Err? <==> !IsValidHeaderValue(ua)
      ensures r.Err? ==> r.error == InvalidUserAgent
      ensures r.Ok? ==> SameExcept(this, r.value, UserAgentField)
                        && r.value.userAgent == Some(HeaderValue(ua))
    {
      match ToHeaderValue(ua)
      case Ok(v) => Ok(this.(userAgent := Some(v)))
      case Err(_) => Err(InvalidUserAgent)
    }

    /** `Endpoint::origin`. */
    function WithOrigin(o: Uri): (r: Endpoint)
      ensures SameExcept(this, r, OriginField) && r.origin == Some(o)
    {
      this.(origin := Some(o))
    }

    /** `Endpoint::tls_verify_domain`. */
    function WithTlsVerifyDomain(d: string): (r: Endpoint)
      ensures SameExcept(this, r, TlsVerifyDomainField) && r.tlsVerifyDomain == Some(d)
    {
      this.(tlsVerifyDomain := Some(d))
    }

    /** `Endpoint::timeout`. */
    function WithTimeout(d: Duration): (r: Endpoint)
      ensures SameExcept(this, r, TimeoutField) && r.timeout == Some(d)
    {
      this.(timeout := Some(d))
    }

    /** `Endpoint::connect_timeout`. */
    function WithConnectTimeout(d: Duration): (r: Endpoint)
      ensures SameExcept(this, r, ConnectTimeoutField) && r.connectTimeout == Some(d)
    {
      this.(connectTimeout := Some(d))
    }

    /** `Endpoint::tcp_keepalive`: stores the option as given, so `None` unsets it. */
    function WithTcpKeepalive(k: Option<Duration>): (r: Endpoint)
      ensures SameExcept(this, r, TcpKeepaliveField) && r.tcpKeepalive == k
    {
      this.(tcpKeepalive := k)
    }

    /** `Endpoint::concurrency_limit`. */
    function WithConcurrencyLimit(limit: Usize): (r: Endpoint)
      ensures SameExcept(this, r, ConcurrencyLimitField) && r.concurrencyLimit == Some(limit)
    {
      this.(concurrencyLimit := Some(limit))
    }

    /** `Endpoint::rate_limit`: `limit` requests per `per`. */
    function WithRateLimit(limit: U64, per: Duration): (r: Endpoint)
      ensures SameExcept(this, r, RateLimitField) && r.rateLimit == Some((limit, per))
    {
      this.(rateLimit := Some((limit, per)))
    }

    /** `Endpoint::initial_stream_window_size`: stores the option as given. */
    function WithInitialStreamWindowSize(size: Option<U32>): (r: Endpoint)
      ensures SameExcept(this, r, InitStreamWindowSizeField) && r.initStreamWindowSize == size
    {
      this.(initStreamWindowSize := size)
    }

    /** `Endpoint::initial_connection_window_size`: stores the option as given. */
    function WithInitialConnectionWindowSize(size: Option<U32>): (r: Endpoint)
      ensures SameExcept(this, r, InitConnectionWindowSizeField) && r.initConnectionWindowSize == size
    {
      this.(initConnectionWindowSize := size)
    }

    /** `Endpoint::tcp_nodelay`. */
    function WithTcpNodelay(enabled: bool): (r: Endpoint)
      ensures SameExcept(this, r, TcpNodelayField) && r.tcpNodelay == enabled
    {
      this.(tcpNodelay := enabled)
    }

    /** `Endpoint::http2_keep_alive_interval`. */
    function WithHttp2KeepAliveInterval(interval: Duration): (r: Endpoint)
      ensures SameExcept(this, r, Http2KeepAliveIntervalField) && r.http2KeepAliveInterval == Some(interval)
    {
      this.(http2KeepAliveInterval := Some(interval))
    }

    /** `Endpoint::keep_alive_timeout` (sets the HTTP/2 keep-alive timeout). */
    function WithKeepAliveTimeout(d: Duration): (r: Endpoint)
      ensures SameExcept(this, r, Http2KeepAliveTimeoutField) && r.http2KeepAliveTimeout == Some(d)
    {
      this.(http2KeepAliveTimeout := Some(d))
    }

    /** `Endpoint::keep_alive_while_idle` (sets the HTTP/2 keep-alive-while-idle flag). */
    function WithKeepAliveWhileIdle(enabled: bool): (r: Endpoint)
      ensures SameExcept(this, r, Http2KeepAliveWhileIdleField) && r.http2KeepAliveWhileIdle == Some(enabled)
    {
      this.(http2KeepAliveWhileIdle := Some(enabled))
    }

    /** `Endpoint::http2_adaptive_window`. */
    function WithHttp2AdaptiveWindow(enabled: bool): (r: Endpoint)
      ensures SameExcept(this, r, Http2AdaptiveWindowField) && r.http2AdaptiveWindow == Some(enabled)
    {
      this.(http2AdaptiveWindow := Some(enabled))
    }

    /** `Endpoint::uri`. */
    function GetUri(): (r: Uri)
      ensures r == uri
    {
      uri
    }

    /**
     * `Endpoint::tls_connector`: an explicit verification domain wins, else
     * the URI's host; a URI without a host is an invalid URI.
     */
    function BuildTlsConnector(): (r: Result<Tls.TlsConnector, Error>)
      ensures r.Err? <==> tlsVerifyDomain.None? && uri.host.None?
      ensures r.Err? ==> r.error == InvalidUri(uri.text)
      ensures r.Ok? ==> r.value.connector == tls
      ensures r.Ok? && tlsVerifyDomain.Some? ==> r.value.domain == tlsVerifyDomain.value
      ensures r.Ok? && tlsVerifyDomain.None? ==> Some(r.value.domain) == uri.host
    {
      match Tls.ResolveDomain(tlsVerifyDomain, uri)
      case Err(e) => Err(e)
      case Ok(d) => Ok(Tls.NewTlsConnector(tls, d))
    }

    /** The dialer `connect` and `connect_lazy` configure from this endpoint. */
    function HttpDialer(): Dialer {
      Http(tcpNodelay, tcpKeepalive)
    }

    /** `Endpoint::connect`: `established` is the outcome of dialing and the handshake. */
    function Connect(established: Result<Unit, BoxError>): (r: Result<Channel, Error>)
      ensures BuildTlsConnector().Err? ==> r == Err(BuildTlsConnector().error)
      ensures r.Ok? <==> BuildTlsConnector().Ok? && established.Ok?
      ensures BuildTlsConnector().Ok? && established.Err? ==> r == Err(FromSource(established.error))
      ensures r.Ok? ==> !r.value.lazy && r.value.endpoint == this
                        && r.value.connector == Connector(HttpDialer(), BuildTlsConnector().value, connectTimeout)
    {
      match BuildTlsConnector()
      case Err(e) => Err(e)
      case Ok(tlsConnector) =>
        ConnectChannel(Connector(HttpDialer(), tlsConnector, connectTimeout), this, established)
    }

    /** `Endpoint::connect_lazy`: fails only when no TLS connector can be built. */
    function ConnectLazy(): (r: Result<Channel, Error>)
      ensures r.Err? <==> BuildTlsConnector().Err?
      ensures r.Err? ==> r.error == BuildTlsConnector().error
      ensures r.Ok? ==> r.value.lazy && r.value.endpoint == this
                        && r.value.connector == Connector(HttpDialer(), BuildTlsConnector().value, connectTimeout)
    {
      match BuildTlsConnector()
      case Err(e) => Err(e)
      case Ok(tlsConnector) => Ok(NewChannel(Connector(HttpDialer(), tlsConnector, connectTimeout), this))
    }

    /** `Endpoint::connect_with_connector`: the connect timeout still applies. */
    function ConnectWithConnector(custom: nat, established: Result<Unit, BoxError>): (r: Result<Channel, Error>)
      ensures BuildTlsConnector().Err? ==> r == Err(BuildTlsConnector().error)
      ensures r.Ok? <==> BuildTlsConnector().Ok? && established.Ok?
      ensures BuildTlsConnector().Ok? && established.Err? ==> r == Err(FromSource(established.error))
      ensures r.Ok? ==> !r.value.lazy && r.value.endpoint == this
                        && r.value.connector == Connector(Custom(custom), BuildTlsConnector().value, connectTimeout)
    {
      match BuildTlsConnector()
      case Err(e) => Err(e)
      case Ok(tlsConnector) =>
        ConnectChannel(Connector(Custom(custom), tlsConnector, connectTimeout), this, established)
    }

    /** `Endpoint::connect_with_connector_lazy`: no connect timeout is applied. */
    function ConnectWithConnectorLazy(custom: nat): (r: Result<Channel, Error>)
      ensures r.Err? <==> BuildTlsConnector().Err?
      ensures r.Err? ==> r.error == BuildTlsConnector().error
      ensures r.Ok? ==> r.value.lazy && r.value.endpoint == this
                        && r.value.connector == Connector(Custom(custom), BuildTlsConnector().value, None)
    {
      match BuildTlsConnector()
      case Err(e) => Err(e)
      case Ok(tlsConnector) => Ok(NewChannel(Connector(Custom(custom), tlsConnector, None), this))
    }
  }

  /** Every optional setting is unset. */
  predicate Unconfigured(e: Endpoint) {
    && e.tlsVerifyDomain.None? && e.origin.None? && e.userAgent.None?
    && e.timeout.None? && e.concurrencyLimit.None? && e.rateLimit.None?
    && e.bufferSize.None? && e.initStreamWindowSize.None? && e.initConnectionWindowSize.None?
    && e.tcpKeepalive.None? && e.http2KeepAliveInterval.None? && e.http2KeepAliveTimeout.None?
    && e.http2KeepAliveWhileIdle.None? && e.connectTimeout.None? && e.http2AdaptiveWindow.None?
  }

  /** `Endpoint::new`: never fails; TCP_NODELAY on, every other option unset. */
  function New(uri: Uri, tls: NativeConnector): (r: Result<Endpoint, Error>)
    ensures r.Ok?
    ensures r.value.GetUri() == uri && r.value.tls == tls
    ensures r.value.tcpNodelay && Unconfigured(r.value)
  {
    Ok(Endpoint(uri, tls, None, None, None, None, None, None, None, None, None, None, true,
                None, None, None, None, None))
  }

  /** `Endpoint::from_shared`: a parse failure becomes `InvalidUri` with its text. */
  function FromShared(s: seq<byte>, tls: NativeConnector, parse: seq<byte> -> Result<Uri, string>): (r: Result<Endpoint, Error>)
    ensures parse(s).Err? ==> r == Err(InvalidUri(parse(s).error))
    ensures parse(s).Ok? ==> r == New(parse(s).value, tls)
  {
    match parse(s)
    case Err(e) => Err(NewInvalidUri(e))
    case Ok(uri) => New(uri, tls)
  }

  /** `Endpoint::from_static`: the source panics on an invalid URI, so callers must pass a valid one. */
  function FromStatic(s: seq<byte>, tls: NativeConnector, parse: seq<byte> -> Result<Uri, string>): (r: Result<Endpoint, Error>)
    requires parse(s).Ok?
    ensures r == New(parse(s).value, tls)
    ensures r == FromShared(s, tls, parse)
  {
    New(parse(s).value, tls)
  }

  // ---------------------------------------------------------------------
  // Fields, and what "changes exactly one field" means

  /** The fields of an `Endpoint`. */
  datatype Field =
    | UriField | TlsField | TlsVerifyDomainField | OriginField | UserAgentField
    | TimeoutField | ConcurrencyLimitField | RateLimitField | BufferSizeField
    | InitStreamWindowSizeField | InitConnectionWindowSizeField | TcpKeepaliveField
    | TcpNodelayField | Http2KeepAliveIntervalField | Http2KeepAliveTimeoutField
    | Http2KeepAliveWhileIdleField | ConnectTimeoutField | Http2AdaptiveWindowField

  /** The value held in one field, whatever its type. */
  datatype FieldValue =
    | UriValue(uri: Uri)
    | ConnectorValue(connector: NativeConnector)
    | NameValue(name: Option<string>)
    | OriginValue(origin: Option<Uri>)
    | UserAgentValue(userAgent: Option<HeaderValue>)
    | DurationValue(duration: Option<Duration>)
    | LimitValue(limit: Option<Usize>)
    | RateValue(rate: Option<(U64, Duration)>)
    | WindowValue(window: Option<U32>)
    | FlagValue(flag: bool)
    | OptionalFlagValue(optionalFlag: Option<bool>)

  function Get(e: Endpoint, f: Field): FieldValue {
    match f
    case UriField => UriValue(e.uri)
    case TlsField => ConnectorValue(e.tls)
    case TlsVerifyDomainField => NameValue(e.tlsVerifyDomain)
    case OriginField => OriginValue(e.origin)
    case UserAgentField => UserAgentValue(e.userAgent)
    case TimeoutField => DurationValue(e.timeout)
    case ConcurrencyLimitField => LimitValue(e.concurrencyLimit)
    case RateLimitField => RateValue(e.rateLimit)
    case BufferSizeField => LimitValue(e.bufferSize)
    case InitStreamWindowSizeField => WindowValue(e.initStreamWindowSize)
    case InitConnectionWindowSizeField => WindowValue(e.initConnectionWindowSize)
    case TcpKeepaliveField => DurationValue(e.tcpKeepalive)
    case TcpNodelayField => FlagValue(e.tcpNodelay)
    case Http2KeepAliveIntervalField => DurationValue(e.http2KeepAliveInterval)
    case Http2KeepAliveTimeoutField => DurationValue(e.http2KeepAliveTimeout)
    case Http2KeepAliveWhileIdleField => OptionalFlagValue(e.http2KeepAliveWhileIdle)
    case ConnectTimeoutField => DurationValue(e.connectTimeout)
    case Http2AdaptiveWindowField => OptionalFlagValue(e.http2AdaptiveWindow)
  }

  /** `a` and `b` agree on every field except possibly `f`. */
  predicate SameExcept(a: Endpoint, b: Endpoint, f: Field) {
    forall g: Field :: g != f ==> Get(a, g) == Get(b, g)
  }

  /** An endpoint is nothing but its fields. */
  lemma FieldsDetermineEndpoint(a: Endpoint, b: Endpoint)
    requires forall g: Field :: Get(a, g) == Get(b, g)
    ensures a == b
  {
    assert Get(a, UriField) == Get(b, UriField);
    assert Get(a, TlsField) == Get(b, TlsField);
    assert Get(a, TlsVerifyDomainField) == Get(b, TlsVerifyDomainField);
    assert Get(a, OriginField) == Get(b, OriginField);
    assert Get(a, UserAgentField) == Get(b, UserAgentField);
    assert Get(a, TimeoutField) == Get(b, TimeoutField);
    assert Get(a, ConcurrencyLimitField) == Get(b, ConcurrencyLimitField);
    assert Get(a, RateLimitField) == Get(b, RateLimitField);
    assert Get(a, BufferSizeField) == Get(b, BufferSizeField);
    assert Get(a, InitStreamWindowSizeField) == Get(b, InitStreamWindowSizeField);
    assert Get(a, InitConnectionWindowSizeField) == Get(b, InitConnectionWindowSizeField);
    assert Get(a, TcpKeepaliveField) == Get(b, TcpKeepaliveField);
    assert Get(a, TcpNodelayField) == Get(b, TcpNodelayField);
    assert Get(a, Http2KeepAliveIntervalField) == Get(b, Http2KeepAliveIntervalField);
    assert Get(a, Http2KeepAliveTimeoutField) == Get(b, Http2KeepAliveTimeoutField);
    assert Get(a, Http2KeepAliveWhileIdleField) == Get(b, Http2KeepAliveWhileIdleField);
    assert Get(a, ConnectTimeoutField) == Get(b, ConnectTimeoutField);
    assert Get(a, Http2AdaptiveWindowField) == Get(b, Http2AdaptiveWindowField);
  }

  // ---------------------------------------------------------------------
  // Builder chains

  /** One call of a builder setter, with its argument. */
  datatype Setting =
    | SetUserAgent(userAgent: seq<byte>)
    | SetOrigin(origin: Uri)
    | SetTlsVerifyDomain(domain: string)
    | SetTimeout(timeout: Duration)
    | SetConnectTimeout(connectTimeout: Duration)
    | SetTcpKeepalive(keepalive: Option<Duration>)
    | SetConcurrencyLimit(limit: Usize)
    | SetRateLimit(rate: U64, per: Duration)
    | SetInitialStreamWindowSize(streamWindow: Option<U32>)
    | SetInitialConnectionWindowSize(connectionWindow: Option<U32>)
    | SetTcpNodelay(nodelay: bool)
    | SetHttp2KeepAliveInterval(interval: Duration)
    | SetKeepAliveTimeout(keepAliveTimeout: Duration)
    | SetKeepAliveWhileIdle(whileIdle: bool)
    | SetHttp2AdaptiveWindow(adaptive: bool)
  {
    /** The one field the setter writes. */
    function Target(): Field {
      match this
      case SetUserAgent(_) => UserAgentField
      case SetOrigin(_) => OriginField
      case SetTlsVerifyDomain(_) => TlsVerifyDomainField
      case SetTimeout(_) => TimeoutField
      case SetConnectTimeout(_) => ConnectTimeoutField
      case SetTcpKeepalive(_) => TcpKeepaliveField
      case SetConcurrencyLimit(_) => ConcurrencyLimitField
      case SetRateLimit(_, _) => RateLimitField
      case SetInitialStreamWindowSize(_) => InitStreamWindowSizeField
      case SetInitialConnectionWindowSize(_) => InitConnectionWindowSizeField
      case SetTcpNodelay(_) => TcpNodelayField
      case SetHttp2KeepAliveInterval(_) => Http2KeepAliveIntervalField
      case SetKeepAliveTimeout(_) => Http2KeepAliveTimeoutField
      case SetKeepAliveWhileIdle(_) => Http2KeepAliveWhileIdleField
      case SetHttp2AdaptiveWindow(_) => Http2AdaptiveWindowField
    }

    /** The value the setter writes into its field, when it succeeds. */
    function Written(): FieldValue {
      match this
      case SetUserAgent(ua) => UserAgentValue(Some(HeaderValue(ua)))
      case SetOrigin(o) => OriginValue(Some(o))
      case SetTlsVerifyDomain(d) => NameValue(Some(d))
      case SetTimeout(d) => DurationValue(Some(d))
      case SetConnectTimeout(d) => DurationValue(Some(d))
      case SetTcpKeepalive(k) => DurationValue(k)
      case SetConcurrencyLimit(l) => LimitValue(Some(l))
      case SetRateLimit(l, d) => RateValue(Some((l, d)))
      case SetInitialStreamWindowSize(s) => WindowValue(s)
      case SetInitialConnectionWindowSize(s) => WindowValue(s)
      case SetTcpNodelay(b) => FlagValue(b)
      case SetHttp2KeepAliveInterval(d) => DurationValue(Some(d))
      case SetKeepAliveTimeout(d) => DurationValue(Some(d))
      case SetKeepAliveWhileIdle(b) => OptionalFlagValue(Some(b))
      case SetHttp2AdaptiveWindow(b) => OptionalFlagValue(Some(b))
    }

    /** The setters of HTTP/2 connection settings: flow-control windows and keep-alive. */
    predicate IsHttp2Setting() {
      || SetInitialStreamWindowSize? || SetInitialConnectionWindowSize?
      || SetHttp2KeepAliveInterval? || SetKeepAliveTimeout?
      || SetKeepAliveWhileIdle? || SetHttp2AdaptiveWindow?
    }

    /** Only the user-agent setter can fail, and only on an invalid header value. */
    predicate Fails() {
      SetUserAgent? && !IsValidHeaderValue(userAgent)
    }
  }

  /** Calls the setter `s` names on `e`. */
  function Apply(e: Endpoint, s: Setting): (r: Result<Endpoint, Error>)
    ensures r.Err? <==> s.Fails()
    ensures r.Err? ==> r.error == InvalidUserAgent
    ensures r.Ok? ==> SameExcept(e, r.value, s.Target()) && Get(r.value, s.Target()) == s.Written()
  {
    if s.SetUserAgent? then e.WithUserAgent(s.userAgent)
    else if s.IsHttp2Setting() then Ok(ApplyHttp2Setting(e, s))
    else Ok(ApplyChannelSetting(e, s))
  }

  /** The setters of the channel and its TCP transport, which cannot fail. */
  function ApplyChannelSetting(e: Endpoint, s: Setting): (r: Endpoint)
    requires !s.SetUserAgent? && !s.IsHttp2Setting()
    ensures SameExcept(e, r, s.Target()) && Get(r, s.Target()) == s.Written()
  {
    match s
    case SetOrigin(o) => e.WithOrigin(o)
    case SetTlsVerifyDomain(d) => e.WithTlsVerifyDomain(d)
    case SetTimeout(d) => e.WithTimeout(d)
    case SetConnectTimeout(d) => e.WithConnectTimeout(d)
    case SetTcpKeepalive(k) => e.WithTcpKeepalive(k)
    case SetConcurrencyLimit(l) => e.WithConcurrencyLimit(l)
    case SetRateLimit(l, d) => e.WithRateLimit(l, d)
    case SetTcpNodelay(b) => e.WithTcpNodelay(b)
  }

  /** The setters of HTTP/2 connection settings, which cannot fail. */
  function ApplyHttp2Setting(e: Endpoint, s: Setting): (r: Endpoint)
    requires s.IsHttp2Setting()
    ensures SameExcept(e, r, s.Target()) && Get(r, s.Target()) == s.Written()
  {
    match s
    case SetInitialStreamWindowSize(sz) => e.WithInitialStreamWindowSize(sz)
    case SetInitialConnectionWindowSize(sz) => e.WithInitialConnectionWindowSize(sz)
    case SetHttp2KeepAliveInterval(d) => e.WithHttp2KeepAliveInterval(d)
    case SetKeepAliveTimeout(d) => e.WithKeepAliveTimeout(d)
    case SetKeepAliveWhileIdle(b) => e.WithKeepAliveWhileIdle(b)
    case SetHttp2AdaptiveWindow(b) => e.WithHttp2AdaptiveWindow(b)
  }

  /** `?`-chaining of a setter after a possibly failed build. */
  function Then(r: Result<Endpoint, Error>, s: Setting): Result<Endpoint, Error> {
    match r
    case Err(e) => Err(e)
    case Ok(e) => Apply(e, s)
  }

  /** A chain of setters, applied left to right, stopping at the first error. */
  function Configure(e: Endpoint, steps: seq<Setting>): Result<Endpoint, Error>
    decreases |steps|
  {
    if steps == [] then Ok(e)
    else Then(Configure(e, steps[..|steps| - 1]), steps[|steps| - 1])
  }

  /** Setters on different fields commute. */
  lemma SettersCommute(e: Endpoint, s1: Setting, s2: Setting)
    requires s1.Target() != s2.Target()
    ensures Then(Apply(e, s1), s2) == Then(Apply(e, s2), s1)
  {
    var t1, t2 := s1.Target(), s2.Target();
    var a1, a2 := Apply(e, s1), Apply(e, s2);
    if a1.Ok? && a2.Ok? {
      var left, right := Apply(a1.value, s2), Apply(a2.value, s1);
      assert left.Ok? && right.Ok?;
      forall g: Field ensures Get(left.value, g) == Get(right.value, g) {
        if g == t1 {
          assert Get(left.value, g) == Get(a1.value, g) == s1.Written();
        } else if g == t2 {
          assert Get(right.value, g) == Get(a2.value, g) == s2.Written();
        } else {
          assert Get(left.value, g) == Get(a1.value, g) == Get(e, g);
          assert Get(right.value, g) == Get(a2.value, g) == Get(e, g);
        }
      }
      FieldsDetermineEndpoint(left.value, right.value);
    }
  }

  /** A later setter of the same field overwrites an earlier one that succeeded. */
  lemma LastWriteWins(e: Endpoint, s1: Setting, s2: Setting)
    requires s1.Target() == s2.Target() && !s1.Fails()
    ensures Then(Apply(e, s1), s2) == Apply(e, s2)
  {
    var left, right := Then(Apply(e, s1), s2), Apply(e, s2);
    if left.Ok? && right.Ok? {
      forall g: Field ensures Get(left.value, g) == Get(right.value, g) {
      }
      FieldsDetermineEndpoint(left.value, right.value);
    }
  }

  /** A chain of setters fails exactly when one of them is given an invalid user agent. */
  lemma {:induction false} ConfigureFails(e: Endpoint, steps: seq<Setting>)
    ensures Configure(e, steps).Err? <==> exists i :: 0 <= i < |steps| && steps[i].Fails()
    ensures Configure(e, steps).Err? ==> Configure(e, steps).error == InvalidUserAgent
  {
    if steps != [] {
      var init, last := steps[..|steps| - 1], steps[|steps| - 1];
      ConfigureFails(e, init);
      if exists i :: 0 <= i < |steps| && steps[i].Fails() {
        var i :| 0 <= i < |steps| && steps[i].Fails();
        if i < |steps| - 1 {
          assert init[i] == steps[i];
        }
      }
      if exists i :: 0 <= i < |init| && init[i].Fails() {
        var i :| 0 <= i < |init| && init[i].Fails();
        assert steps[i] == init[i];
      }
    }
  }

  /** A field that no setter of the chain targets keeps its value. */
  lemma {:induction false} ConfigureFrame(e: Endpoint, steps: seq<Setting>, f: Field)
    requires forall i :: 0 <= i < |steps| ==> steps[i].Target() != f
    requires Configure(e, steps).Ok?
    ensures Get(Configure(e, steps).value, f) == Get(e, f)
  {
    if steps != [] {
      var init := steps[..|steps| - 1];
      assert forall i :: 0 <= i < |init| ==> init[i] == steps[i];
      ConfigureFrame(e, init, f);
    }
  }

  /**
   * `uri()` returns exactly the URI given at construction, however the
   * endpoint is configured afterwards; and since no setter writes
   * `buffer_size`, it stays unset.
   */
  lemma UriIsStable(uri: Uri, tls: NativeConnector, steps: seq<Setting>)
    requires Configure(New(uri, tls).value, steps).Ok?
    ensures Configure(New(uri, tls).value, steps).value.GetUri() == uri
    ensures Configure(New(uri, tls).value, steps).value.tls == tls
    ensures Configure(New(uri, tls).value, steps).value.bufferSize.None?
  {
    var e := New(uri, tls).value;
    forall i | 0 <= i < |steps| ensures steps[i].Target() != UriField {
    }
    ConfigureFrame(e, steps, UriField);
    forall i | 0 <= i < |steps| ensures steps[i].Target() != TlsField {
    }
    ConfigureFrame(e, steps, TlsField);
    forall i | 0 <= i < |steps| ensures steps[i].Target() != BufferSizeField {
    }
    ConfigureFrame(e, steps, BufferSizeField);
  }

  /**
   * The endpoint and `ClientTlsConfig` apply the same verification-domain
   * rule: an endpoint resolves its connector as a client TLS configuration
   * holding its domain and handshake context would for its URI.
   */
  lemma SameDomainRuleAsClientTlsConfig(e: Endpoint)
    ensures e.BuildTlsConnector() == Tls.ClientTlsConfig(e.tlsVerifyDomain, e.tls).BuildTlsConnector(e.uri)
  {
  }

  /** Setters other than `tls_verify_domain` never change which TLS connector is built. */
  lemma {:induction false} TlsConnectorIgnoresOtherSetters(e: Endpoint, steps: seq<Setting>)
    requires forall i :: 0 <= i < |steps| ==> !steps[i].SetTlsVerifyDomain?
    requires Configure(e, steps).Ok?
    ensures Configure(e, steps).value.BuildTlsConnector() == e.BuildTlsConnector()
  {
    var r := Configure(e, steps).value;
    forall f | f in {UriField, TlsField, TlsVerifyDomainField}
      ensures Get(r, f) == Get(e, f)
    {
      forall i | 0 <= i < |steps| ensures steps[i].Target() != f {
      }
      ConfigureFrame(e, steps, f);
    }
    assert Get(r, UriField) == Get(e, UriField);
    assert Get(r, TlsField) == Get(e, TlsField);
    assert Get(r, TlsVerifyDomainField) == Get(e, TlsVerifyDomainField);
  }

  // ---------------------------------------------------------------------
  // What `connect*` build (src/channel/mod.rs)

  const DEFAULT_BUFFER_SIZE: Usize := 1024

  /** The transport that dials the endpoint: hyper's HTTP connector or a caller's own. */
  datatype Dialer = Http(nodelay: bool, keepalive: Option<Duration>) | Custom(id: nat)

  /** The connector stack: a dialer, then TLS, optionally under a connect timeout. */
  datatype Connector = Connector(dialer: Dialer, tls: Tls.TlsConnector, connectTimeout: Option<Duration>)

  /** A `Channel` over one endpoint, with its mailbox capacity. */
  datatype Channel = Channel(connector: Connector, endpoint: Endpoint, bufferSize: Usize, lazy: bool)

  /** `Channel::new`: a lazily connecting channel; the buffer defaults to 1024. */
  function NewChannel(connector: Connector, endpoint: Endpoint): (r: Channel)
    ensures r.lazy && r.connector == connector && r.endpoint == endpoint
    ensures r.bufferSize == if endpoint.bufferSize.Some? then endpoint.bufferSize.value else 1024
  {
    Channel(connector, endpoint, endpoint.bufferSize.GetOr(DEFAULT_BUFFER_SIZE), true)
  }

  /** `Channel::connect`: a failed connection becomes `Error::Other` via `from_source`. */
  function ConnectChannel(connector: Connector, endpoint: Endpoint, established: Result<Unit, BoxError>): (r: Result<Channel, Error>)
    ensures r.Ok? <==> established.Ok?
    ensures r.Err? ==> r.error == FromSource(established.error)
    ensures r.Ok? ==> !r.value.lazy && r.value.connector == connector && r.value.endpoint == endpoint
    ensures r.Ok? ==> r.value.bufferSize == if endpoint.bufferSize.Some? then endpoint.bufferSize.value else 1024
  {
    match established
    case Err(e) => Err(FromSource(e))
    case Ok(_) => Ok(Channel(connector, endpoint, endpoint.bufferSize.GetOr(DEFAULT_BUFFER_SIZE), false))
  }
}
