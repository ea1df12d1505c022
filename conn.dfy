/**
 * Connection metadata (src/server/conn.rs): what each kind of accepted
 * stream reports about itself through `Connected::connect_info`, and the
 * accessors of the records it builds.
 *
 * `Connected` is implemented for hyper's `AddrStream`, tokio's `TcpStream`
 * and `DuplexStream`, and for a TLS stream over any of them; a TLS stream
 * over a TLS stream is allowed by the types, so streams nest.
 */
module Conn {
  import opened Wrappers
  import opened Externals
  import opened Errors
  import Tls

  /** `TcpConnectInfo`. */
  datatype TcpConnectInfo = TcpConnectInfo(remoteAddr: Option<SocketAddr>) {
    /** `TcpConnectInfo::remote_addr`. */
    function RemoteAddr(): (r: Option<SocketAddr>)
      ensures r == remoteAddr
    {
      remoteAddr
    }
  }

  /** The peer's leaf `native_tls::Certificate`; `der` is what its `to_der` returns. */
  datatype PeerCertificate = PeerCertificate(der: Result<seq<byte>, NativeTlsError>)

  /**
   * An accepted stream, as far as its metadata goes: the remote address of
   * an `AddrStream`, what `peer_addr` returns for a `TcpStream`, nothing for
   * a `DuplexStream`, and for a TLS stream the stream inside and what
   * `peer_certificate` returns.
   */
  datatype Stream =
    | AddrStream(remote: SocketAddr)
    | TcpStream(peerAddr: Result<SocketAddr, IoError>)
    | DuplexStream
    | TlsStream(inner: Stream, peerCertificate: Result<Option<PeerCertificate>, NativeTlsError>)

  /** The `ConnectInfo` types: `TcpConnectInfo`, `()`, `TlsConnectInfo<T>`. */
  datatype ConnectInfo = Tcp(tcp: TcpConnectInfo) | UnitInfo | TlsInfo(tls: TlsConnectInfo)

  /** `TlsConnectInfo<T>`: the inner stream's info and the peer's certificate, if any. */
  datatype TlsConnectInfo = TlsConnectInfo(inner: ConnectInfo, cert: Option<Tls.Certificate>) {
    /** `TlsConnectInfo::get_ref`. */
    function GetRef(): (r: ConnectInfo)
      ensures r == inner
    {
      inner
    }

    /** `TlsConnectInfo::peer_cert`. */
    function PeerCert(): (r: Option<Tls.Certificate>)
      ensures r == cert
    {
      cert
    }
  }

  /** `connect_info` of an `AddrStream`: the remote address is always known. */
  function AddrStreamInfo(remote: SocketAddr): (r: Result<TcpConnectInfo, Error>)
    ensures r.Ok? && r.value.RemoteAddr() == Some(remote)
  {
    Ok(TcpConnectInfo(Some(remote)))
  }

  /** `connect_info` of a `TcpStream`: a failing `peer_addr` leaves the address unknown. */
  function TcpStreamInfo(peerAddr: Result<SocketAddr, IoError>): (r: Result<TcpConnectInfo, Error>)
    ensures r.Ok?
    ensures peerAddr.Ok? ==> r.value.RemoteAddr() == Some(peerAddr.value)
    ensures peerAddr.Err? ==> r.value.RemoteAddr().None?
  {
    Ok(TcpConnectInfo(peerAddr.ToOption()))
  }

  /** `connect_info` of a `DuplexStream`: the unit value, never an error. */
  function DuplexStreamInfo(): (r: Result<Unit, Error>)
    ensures r.Ok?
  {
    Ok(Unit)
  }

  /** A present certificate whose `to_der` fails. */
  predicate DerConversionFails(peer: Result<Option<PeerCertificate>, NativeTlsError>) {
    peer.Ok? && peer.value.Some? && peer.value.value.der.Err?
  }

  /**
   * `connect_info` of a TLS stream, given the inner stream's: the inner
   * error is propagated; a peer certificate is kept in DER form; a failed or
   * empty certificate lookup is swallowed, a failed `to_der` is not.
   */
  function TlsStreamInfo(inner: Result<ConnectInfo, Error>, peer: Result<Option<PeerCertificate>, NativeTlsError>)
    : (r: Result<TlsConnectInfo, Error>)
    ensures inner.Err? ==> r == Err(inner.error)
    ensures inner.Ok? && DerConversionFails(peer) ==> r == Err(FromNativeTls(peer.value.value.der.error))
    ensures r.Ok? <==> inner.Ok? && !DerConversionFails(peer)
    ensures r.Ok? ==> r.value.GetRef() == inner.value
    ensures r.Ok? && peer.Ok? && peer.value.Some? ==>
              r.value.PeerCert() == Some(Tls.FromDer(peer.value.value.der.value))
    ensures r.Ok? && (peer.Err? || peer.value.None?) ==> r.value.PeerCert().None?
  {
    match inner
    case Err(e) => Err(e)
    case Ok(info) =>
      if peer.Ok? && peer.value.Some? then
        match peer.value.value.der
        case Err(e) => Err(FromNativeTls(e))
        case Ok(der) => Ok(TlsConnectInfo(info, Some(Tls.FromDer(der))))
      else
        Ok(TlsConnectInfo(info, None))
  }

  /** Some TLS layer of the stream has a peer certificate that cannot be converted to DER. */
  predicate SomeDerConversionFails(s: Stream) {
    s.TlsStream? && (SomeDerConversionFails(s.inner) || DerConversionFails(s.peerCertificate))
  }

  /**
   * The `to_der` error of the innermost TLS layer whose certificate cannot
   * be converted, if there is one.
   */
  function InnermostDerError(s: Stream): Option<NativeTlsError> {
    match s
    case TlsStream(i, pc) =>
      if InnermostDerError(i).Some? then InnermostDerError(i)
      else if DerConversionFails(pc) then Some(pc.value.value.der.error)
      else None
    case _ => None
  }

  /**
   * `info` has the shape the stream's kind calls for, layer by layer: the
   * remote address where there is one, and at each TLS layer the peer's
   * certificate in DER form when the lookup found one, none otherwise.
   */
  predicate Describes(info: ConnectInfo, s: Stream) {
    match s
    case AddrStream(a) => info == Tcp(TcpConnectInfo(Some(a)))
    case TcpStream(p) => info.Tcp? && info.tcp.remoteAddr == p.ToOption()
    case DuplexStream => info.UnitInfo?
    case TlsStream(i, pc) =>
      && info.TlsInfo?
      && Describes(info.tls.inner, i)
      && (pc.Ok? && pc.value.Some? && pc.value.value.der.Ok? ==>
            info.tls.cert == Some(Tls.FromDer(pc.value.value.der.value)))
      && (pc.Err? || pc.value.None? ==> info.tls.cert.None?)
  }

  /**
   * `Connected::connect_info` of any stream: it fails only when a TLS
   * layer's certificate cannot be converted, with the `to_der` error of the
   * innermost such layer, and otherwise describes every layer of the stream.
   */
  function ConnectInfoOf(s: Stream): (r: Result<ConnectInfo, Error>)
    ensures r.Err? <==> SomeDerConversionFails(s)
    ensures r.Err? ==> r.error.Other? && r.error.source.NativeTls?
    ensures r.Err? <==> InnermostDerError(s).Some?
    ensures r.Err? ==> r.error == FromNativeTls(InnermostDerError(s).value)
    ensures r.Ok? ==> Describes(r.value, s)
  {
    match s
    case AddrStream(a) =>
      (match AddrStreamInfo(a)
       case Ok(info) => Ok(Tcp(info))
       case Err(e) => Err(e))
    case TcpStream(p) =>
      (match TcpStreamInfo(p)
       case Ok(info) => Ok(Tcp(info))
       case Err(e) => Err(e))
    case DuplexStream =>
      (match DuplexStreamInfo()
       case Ok(_) => Ok(UnitInfo)
       case Err(e) => Err(e))
    case TlsStream(inner, peer) =>
      (match TlsStreamInfo(ConnectInfoOf(inner), peer)
       case Ok(info) => Ok(TlsInfo(info))
       case Err(e) => Err(e))
  }
}
