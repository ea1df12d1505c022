/**
 * Values of the libraries the transport is built on (http, h2, native-tls,
 * std::net, axum).  Only what the transport's own decisions look at is kept:
 * a URI is its text and its host, a native-tls handle is an identity, a
 * library error is its description.
 */
module Externals {
  import opened Wrappers

  type byte = b: int | 0 <= b < 0x100
  type U16 = n: int | 0 <= n < 0x1_0000
  type U32 = n: int | 0 <= n < 0x1_0000_0000
  type U64 = n: int | 0 <= n < 0x1_0000_0000_0000_0000
  /** `usize` on a 64-bit target. */
  type Usize = U64

  /** `std::time::Duration`, as a number of nanoseconds. */
  type Duration = nat

  /** `http::Uri`: its `Display` text and what `Uri::host` returns. */
  datatype Uri = Uri(text: string, host: Option<string>)

  /**
   * A byte the http crate admits in a header value: visible ASCII, obs-text
   * or a horizontal tab; control characters and DEL are refused.
   */
  predicate IsHeaderValueByte(b: byte) {
    (b >= 32 && b != 127) || b == 9
  }

  predicate IsValidHeaderValue(s: seq<byte>) {
    forall i :: 0 <= i < |s| ==> IsHeaderValueByte(s[i])
  }

  /** `http::HeaderValue`: bytes that passed the header-value check. */
  datatype HeaderValue = HeaderValue(bytes: seq<byte>)

  /** `TryInto<HeaderValue>` for a byte string. */
  function ToHeaderValue(s: seq<byte>): (r: Result<HeaderValue, Unit>)
    ensures r.Ok? <==> IsValidHeaderValue(s)
    ensures r.Ok? ==> r.value.bytes == s
  {
    if IsValidHeaderValue(s) then Ok(HeaderValue(s)) else Err(Unit)
  }

  /** `std::net::SocketAddr`. */
  datatype SocketAddr = SocketAddr(ip: seq<byte>, port: U16)

  /** `std::io::Error`. */
  datatype IoError = IoError(description: string)

  /** A shared `tokio_native_tls::TlsConnector` (the client handshake context). */
  datatype NativeConnector = NativeConnector(id: nat)

  /** A shared `tokio_native_tls::TlsAcceptor` (the server handshake context). */
  datatype NativeAcceptor = NativeAcceptor(id: nat)

  /** `native_tls::Error`. */
  datatype NativeTlsError = NativeTlsError(description: string)

  /** `axum::Error`. */
  datatype AxumError = AxumError(description: string)

  /** HTTP/2 error codes, section 7 of RFC 7540 (`h2::Reason`). */
  const NO_ERROR: U32 := 0x0
  const PROTOCOL_ERROR: U32 := 0x1
  const INTERNAL_ERROR: U32 := 0x2
  const FLOW_CONTROL_ERROR: U32 := 0x3
  const SETTINGS_TIMEOUT: U32 := 0x4
  const STREAM_CLOSED: U32 := 0x5
  const FRAME_SIZE_ERROR: U32 := 0x6
  const REFUSED_STREAM: U32 := 0x7
  const CANCEL: U32 := 0x8
  const COMPRESSION_ERROR: U32 := 0x9
  const CONNECT_ERROR: U32 := 0xa
  const ENHANCE_YOUR_CALM: U32 := 0xb
  const INADEQUATE_SECURITY: U32 := 0xc
  const HTTP_1_1_REQUIRED: U32 := 0xd

  /**
   * `h2::Error`: `reason` is what `h2::Error::reason` returns (None for an
   * I/O or user error), `description` its `Display` text.
   */
  datatype H2Error = H2Error(reason: Option<U32>, description: string)
}
