/**
 * The client TLS policy (src/tls.rs): certificates, the connector that
 * insists on HTTP/2 being negotiated, the client TLS configuration with its
 * verification-domain rule, and the server-side acceptor.
 *
 * The native-tls handshake itself is library code; it is passed in as a
 * function from the domain to verify to the handshake's outcome.
 */
module Tls {
  import opened Wrappers
  import opened Externals
  import opened Errors

  /** An X509 certificate, PEM or DER encoded; identity is by bytes. */
  datatype Certificate = Pem(pem: seq<byte>) | Der(der: seq<byte>) {
    function Bytes(): seq<byte> {
      match this
      case Pem(b) => b
      case Der(b) => b
    }
  }

  /** `Certificate::from_pem`. */
  function FromPem(pem: seq<byte>): (c: Certificate)
    ensures c.Pem? && c.Bytes() == pem
  {
    Pem(pem)
  }

  /** `Certificate::from_der`. */
  function FromDer(der: seq<byte>): (c: Certificate)
    ensures c.Der? && c.Bytes() == der
  {
    Der(der)
  }

  /** Two certificates built the same way are equal exactly when their bytes are. */
  lemma CertificateIdentity(a: seq<byte>, b: seq<byte>)
    ensures FromPem(a) == FromPem(b) <==> a == b
    ensures FromDer(a) == FromDer(b) <==> a == b
    ensures FromPem(a) != FromDer(b)
  {
    if FromPem(a) == FromPem(b) {
      assert FromPem(a).Bytes() == a && FromPem(b).Bytes() == b;
    }
  }

  /**
   * The ALPN protocol identifier of HTTP/2 over TLS, "h2"
   * (section 3.1 of RFC 7540).
   */
  const H2_ALPN: seq<byte> := [0x68, 0x32]

  /**
   * A client `tokio_native_tls::TlsStream` after a completed handshake:
   * `alpn` is what `negotiated_alpn` returns, which may itself fail.
   */
  datatype ClientTlsStream = ClientTlsStream(session: nat, alpn: Result<Option<seq<byte>>, NativeTlsError>)

  /** The type-erased stream handed to the HTTP/2 layer. */
  datatype BoxedIo = BoxedIo(stream: ClientTlsStream)

  /** The native connector's client handshake, as a function of the domain to verify. */
  type Handshake = string -> Result<ClientTlsStream, NativeTlsError>

  /** The crate's `TlsConnector`: a shared handshake context and the domain to verify. */
  datatype TlsConnector = TlsConnector(connector: NativeConnector, domain: string) {

    /**
     * `TlsConnector::connect`: hand-shakes against `domain`, then accepts the
     * stream only when "h2" was negotiated.
     */
    function Connect(handshake: Handshake): (r: Result<BoxedIo, Error>)
      // a handshake failure is returned before ALPN is looked at
      ensures handshake(domain).Err? ==> r == Err(FromNativeTls(handshake(domain).error))
      // failing to read the negotiated protocol is an error, never a success
      ensures handshake(domain).Ok? && handshake(domain).value.alpn.Err? ==>
                r == Err(FromNativeTls(handshake(domain).value.alpn.error))
      // any negotiated protocol other than "h2", or none, is refused
      ensures (handshake(domain).Ok? && handshake(domain).value.alpn.Ok?
               && handshake(domain).value.alpn.value != Some(H2_ALPN)) ==> r == Err(H2NotNegotiated)
      ensures r.Ok? <==> handshake(domain).Ok? && handshake(domain).value.alpn == Ok(Some(H2_ALPN))
      ensures r.Ok? ==> r.value.stream == handshake(domain).value
    {
      match handshake(domain)
      case Err(e) => Err(FromNativeTls(e))
      case Ok(io) =>
        match io.alpn
        case Err(e) => Err(FromNativeTls(e))
        case Ok(Some(b)) =>
          if b == H2_ALPN then Ok(BoxedIo(io)) else Err(H2NotNegotiated)
        case Ok(None) => Err(H2NotNegotiated)
    }
  }

  /** `TlsConnector::new`. */
  function NewTlsConnector(connector: NativeConnector, domain: string): (r: TlsConnector)
    ensures r.domain == domain && r.connector == connector
  {
    TlsConnector(connector, domain)
  }

  /**
   * The verification-domain rule shared by `ClientTlsConfig::tls_connector`
   * and `Endpoint::tls_connector`: an explicit domain wins, else the URI's
   * host, else the URI is invalid.
   */
  function ResolveDomain(explicit: Option<string>, uri: Uri): (r: Result<string, Error>)
    ensures explicit.Some? ==> r == Ok(explicit.value)
    ensures explicit.None? && uri.host.Some? ==> r == Ok(uri.host.value)
    ensures explicit.None? && uri.host.None? ==> r == Err(NewInvalidUri(uri.text))
  {
    match explicit
    case None =>
      (match uri.host
       case None => Err(NewInvalidUri(uri.text))
       case Some(h) => Ok(h))
    case Some(d) => Ok(d)
  }

  /** `ClientTlsConfig`: an optional verification domain and a shared handshake context. */
  datatype ClientTlsConfig = ClientTlsConfig(domain: Option<string>, connector: NativeConnector) {

    /** `ClientTlsConfig::domain_name`. */
    function DomainName(domainName: string): (r: ClientTlsConfig)
      ensures r.domain == Some(domainName)
      ensures r.connector == connector
    {
      this.(domain := Some(domainName))
    }

    /** `ClientTlsConfig::tls_connector`. */
    function BuildTlsConnector(uri: Uri): (r: Result<TlsConnector, Error>)
      ensures r.Err? <==> domain.None? && uri.host.None?
      ensures r.Err? ==> r.error == InvalidUri(uri.text)
      ensures r.Ok? ==> r.value.connector == connector
      ensures r.Ok? && domain.Some? ==> r.value.domain == domain.value
      ensures r.Ok? && domain.None? ==> Some(r.value.domain) == uri.host
    {
      match ResolveDomain(domain, uri)
      case Err(e) => Err(e)
      case Ok(d) => Ok(NewTlsConnector(connector, d))
    }
  }

  /** `ClientTlsConfig::new`. */
  function NewClientTlsConfig(connector: NativeConnector): (r: ClientTlsConfig)
    ensures r.domain.None? && r.connector == connector
  {
    ClientTlsConfig(None, connector)
  }

  /** `TlsAcceptor`: a shared server handshake context. */
  datatype TlsAcceptor = TlsAcceptor(inner: NativeAcceptor) {

    /**
     * `TlsAcceptor::accept`: the server handshake's error is converted, and
     * the negotiated protocol is NOT checked (the server chose it).
     */
    function Accept<S>(handshake: Result<S, NativeTlsError>): (r: Result<S, Error>)
      ensures r.Ok? <==> handshake.Ok?
      ensures r.Ok? ==> r.value == handshake.value
      ensures r.Err? ==> r.error == FromNativeTls(handshake.error)
    {
      match handshake
      case Ok(s) => Ok(s)
      case Err(e) => Err(FromNativeTls(e))
    }
  }
}
