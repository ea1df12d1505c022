# tonic-transport-native: the decision logic, in Dafny

This project models the decision logic of the HTTP/2 transport that sits under
a gRPC framework (a native-tls variant of tonic's transport). It covers five
parts:

- **Endpoint configuration** (`endpoint.dfy`, module `EndpointConfig`). The
  client `Endpoint` is an immutable record with documented defaults. Its
  functional-update setters each change one field. `user_agent` is the one
  setter that can fail. The TLS verification domain is the explicit domain,
  else the URI's host, else the URI is invalid. Every `connect*` fails with
  that error before any channel is built.
- **TLS client policy** (`tls.dfy`, module `Tls`). `TlsConnector::connect`
  accepts a stream only when the ALPN protocol (RFC 7301) negotiated is
  exactly "h2", the identifier of section 3.1 of RFC 7540.
  `ClientTlsConfig` applies the same domain rule as the endpoint.
  `Certificate` is a PEM or DER byte wrapper. The acceptor converts
  handshake errors and does no ALPN check.
- **Error-recovery middleware** (`recover_error.dfy`, module `Recover`, with
  tonic's status values in `grpc.dfy`, module `Grpc`). A fixed table maps
  HTTP/2 error codes (section 7 of RFC 7540) to gRPC status codes. A
  response future has three outcomes:
  - a success keeps its head, and its body is wrapped as "full";
  - a recoverable error becomes an HTTP 200 response with an empty body and
    status headers;
  - any other error is propagated.

  The `MaybeEmptyBody` wrapper delegates to the inner body when full. When
  empty, it is at its end.
- **Connection metadata** (`conn.dfy`, module `Conn`). This is what
  `Connected::connect_info` reports for `AddrStream`, `TcpStream`,
  `DuplexStream` and a TLS stream over any of them. Some lookup failures are
  swallowed and others are propagated.
- **Error taxonomy** (`errors.dfy`, modules `Errors` and `OptionPins`). This
  covers the `Error` enum, its constructors, conversions, display texts and
  `source`, and the two-variant `OptionPin`.

`externals.dfy` (module `Externals`) holds the library values these decisions
look at:
- a URI, reduced to its text and its host;
- the http crate's header-value byte rule;
- the HTTP/2 error codes of RFC 7540 section 7;
- native-tls handles and errors, kept as identities and descriptions.

`wrappers.dfy` holds `Option`, `Result` and `Poll`.

Library behaviour that the transport only calls is passed in as a parameter:
- the URI parser (`FromShared`, `FromStatic`);
- the native client handshake, as a function from the domain to verify to
  the handshake's outcome (`TlsConnector.Connect`);
- the outcome of an eager dial (`Connect`, `ConnectWithConnector`);
- `Status::try_from_error` (`TryStatusFromError`, `PollResponse`);
- the wrapped body's `http_body::Body` methods (`BodyOps`);
- one poll of the wrapped service (`RecoverError`).

Everything is pure: each source file builds values with struct updates and
matches, so the model uses datatypes, functions and lemmas. A method that
polls (`poll_data`, `poll_trailers`) takes the state and returns the result
with the state afterwards.

Three facts about the code shape the model:
- `connect_with_connector_lazy` applies no connect timeout
  (src/channel/endpoint.rs:369-371). The other three `connect*` methods
  apply it.
- `Endpoint` has no `buffer_size` setter. So every channel built from an
  endpoint uses the default mailbox of 1024 (`UriIsStable`, `NewChannel`).
- FRAME_SIZE_ERROR falls to `Unknown` (`UnnamedReasonsAreUnknown`). The
  gRPC-over-HTTP/2 document cited at src/server/recover_error.rs:87 lists it
  under INTERNAL.

## Model

| member | source | states |
|---|---|---|
| `Errors.Source` | src/lib.rs:23-34 | only `Other` has a source, because it is the `#[from]` variant |
| `Errors.Display` | src/lib.rs:26-33 | an error displays with the "Invalid URI: " prefix exactly when it is `InvalidUri`, followed by the detail; it displays with the "Unknown error " prefix exactly when it is `Other`, followed by the source's text; `InvalidUserAgent` displays as "Invalid user agent" and `H2NotNegotiated` as "HTTP/2 was not negotiated" |
| `Errors.NewInvalidUri` | src/lib.rs:37-39 | the error displays as "Invalid URI: " followed by the detail, and has no source |
| `Errors.FromSource` | src/lib.rs:41-43 | the resulting error's source is exactly the given boxed error; it displays as "Unknown error " and that error's text |
| `Errors.FromAxum` | src/lib.rs:46-50 | an axum error becomes `Other`, with the axum error as its source |
| `Errors.FromNativeTls` | src/lib.rs:52-56 | a native-tls error becomes `Other`, with the native-tls error as its source |
| `Errors.DisplayDeterminesKind` | src/lib.rs:26-33 | two errors with the same display text are the same variant; for `InvalidUri` the detail is the same too |
| `Tls.FromPem` | src/tls.rs:20-23 | a PEM certificate holding the input bytes unchanged |
| `Tls.FromDer` | src/tls.rs:25-28 | a DER certificate holding the input bytes unchanged |
| `Tls.CertificateIdentity` | src/tls.rs:10-14 | two certificates built the same way are equal exactly when their bytes are; a PEM never equals a DER |
| `Tls.NewTlsConnector` | src/tls.rs:38-43 | the connector keeps exactly the given domain and handshake context |
| `Tls.TlsConnector.Connect` | src/tls.rs:45-61 | success exactly when the handshake against the connector's domain succeeds and the negotiated ALPN reads as "h2"; a handshake error comes first; an error reading ALPN is propagated; no ALPN or other bytes give `H2NotNegotiated` |
| `Tls.ResolveDomain` | src/tls.rs:103-112 | an explicit domain always wins; else the URI host is used; a URI without a host gives `InvalidUri` with the URI text |
| `Tls.NewClientTlsConfig` | src/tls.rs:88-93 | starts with no domain and the given handshake context |
| `Tls.ClientTlsConfig.DomainName` | src/tls.rs:96-101 | sets the domain and keeps the handshake context |
| `Tls.ClientTlsConfig.BuildTlsConnector` | src/tls.rs:103-112 | fails exactly when there is no domain and the URI has no host, with `InvalidUri(uri text)`; otherwise the connector verifies the explicit domain, else the host |
| `Tls.TlsAcceptor.Accept` | src/tls.rs:125-131 | succeeds exactly when the server handshake does and returns its stream, with no protocol check; a handshake error becomes `Other` |
| `EndpointConfig.New` | src/channel/endpoint.rs:36-57 | never fails; keeps the given URI and handshake context; TCP_NODELAY is on and every other option is unset |
| `EndpointConfig.FromShared` | src/channel/endpoint.rs:80-84 | a URI parse failure becomes `InvalidUri` with the parser's message; otherwise the result is that of `new` |
| `EndpointConfig.FromStatic` | src/channel/endpoint.rs:69-72 | for a string that parses, exactly the endpoint `new` builds on the parsed URI, with all its defaults; the same as `from_shared` on that string |
| `EndpointConfig.Endpoint.WithUserAgent` | src/channel/endpoint.rs:101-112 | fails with `InvalidUserAgent` exactly when the value is not a valid header value; otherwise sets `user_agent` and changes no other field |
| `EndpointConfig.Endpoint.WithOrigin` | src/channel/endpoint.rs:126-131 | sets `origin`; every other field is unchanged |
| `EndpointConfig.Endpoint.WithTlsVerifyDomain` | src/channel/endpoint.rs:137-142 | sets `tls_verify_domain`; every other field is unchanged |
| `EndpointConfig.Endpoint.WithTimeout` | src/channel/endpoint.rs:160-165 | sets `timeout`; every other field is unchanged |
| `EndpointConfig.Endpoint.WithConnectTimeout` | src/channel/endpoint.rs:177-182 | sets `connect_timeout`; every other field is unchanged |
| `EndpointConfig.Endpoint.WithTcpKeepalive` | src/channel/endpoint.rs:192-197 | stores the option verbatim, so `None` unsets it; every other field is unchanged |
| `EndpointConfig.Endpoint.WithConcurrencyLimit` | src/channel/endpoint.rs:206-211 | sets `concurrency_limit`; every other field is unchanged |
| `EndpointConfig.Endpoint.WithRateLimit` | src/channel/endpoint.rs:221-226 | sets `rate_limit` to the (count, window) pair; every other field is unchanged |
| `EndpointConfig.Endpoint.WithInitialStreamWindowSize` | src/channel/endpoint.rs:234-239 | stores the option verbatim, so `None` unsets it; every other field is unchanged |
| `EndpointConfig.Endpoint.WithInitialConnectionWindowSize` | src/channel/endpoint.rs:244-249 | stores the option verbatim, so `None` unsets it; every other field is unchanged |
| `EndpointConfig.Endpoint.WithTcpNodelay` | src/channel/endpoint.rs:252-257 | sets `tcp_nodelay`; every other field is unchanged |
| `EndpointConfig.Endpoint.WithHttp2KeepAliveInterval` | src/channel/endpoint.rs:260-265 | sets the HTTP/2 keep-alive interval; every other field is unchanged |
| `EndpointConfig.Endpoint.WithKeepAliveTimeout` | src/channel/endpoint.rs:268-273 | sets the HTTP/2 keep-alive timeout; every other field is unchanged |
| `EndpointConfig.Endpoint.WithKeepAliveWhileIdle` | src/channel/endpoint.rs:276-281 | sets the HTTP/2 keep-alive-while-idle flag; every other field is unchanged |
| `EndpointConfig.Endpoint.WithHttp2AdaptiveWindow` | src/channel/endpoint.rs:284-289 | sets the adaptive-window flag; every other field is unchanged |
| `EndpointConfig.Endpoint.GetUri` | src/channel/endpoint.rs:395-397 | returns the endpoint's URI (stable under every setter, see `UriIsStable`) |
| `EndpointConfig.Endpoint.BuildTlsConnector` | src/channel/endpoint.rs:374-384 | fails exactly when no domain is set and the URI has no host, with `InvalidUri(uri text)`; otherwise it verifies the explicit domain, else the host, with the endpoint's handshake context |
| `EndpointConfig.Endpoint.Connect` | src/channel/endpoint.rs:292-307 | a TLS-connector error is returned first; then a failed connection becomes `Other`; a channel is eager, with the HTTP dialer and the connect timeout |
| `EndpointConfig.Endpoint.ConnectLazy` | src/channel/endpoint.rs:313-328 | fails exactly when the TLS connector cannot be built, with that error; otherwise a lazy channel with the HTTP dialer and the connect timeout |
| `EndpointConfig.Endpoint.ConnectWithConnector` | src/channel/endpoint.rs:337-353 | a TLS-connector error is returned first; then a failed connection becomes `Other`; a channel uses the caller's connector and the connect timeout |
| `EndpointConfig.Endpoint.ConnectWithConnectorLazy` | src/channel/endpoint.rs:362-372 | fails exactly when the TLS connector cannot be built; otherwise a lazy channel with the caller's connector and no connect timeout |
| `EndpointConfig.Apply` | src/channel/endpoint.rs:101-289 | each setter fails only for an invalid user agent; otherwise it writes its one field and leaves every other field as it was |
| `EndpointConfig.FieldsDetermineEndpoint` | src/channel/endpoint.rs:13-32 | two endpoints that agree on every field are equal |
| `EndpointConfig.SettersCommute` | src/channel/endpoint.rs:101-289 | two setters of different fields give the same endpoint, or the same error, in either order |
| `EndpointConfig.LastWriteWins` | src/channel/endpoint.rs:101-289 | a setter applied after a successful setter of the same field gives what it gives alone |
| `EndpointConfig.ConfigureFails` | src/channel/endpoint.rs:101-112 | a chain of setters fails exactly when one of them gets an invalid user agent, and the error is `InvalidUserAgent` |
| `EndpointConfig.ConfigureFrame` | src/channel/endpoint.rs:126-289 | a field that no setter in a chain targets keeps its value |
| `EndpointConfig.UriIsStable` | src/channel/endpoint.rs:395-397 | `uri()` returns the URI given to `new` however the endpoint is configured afterwards; the handshake context is kept and `buffer_size` stays unset |
| `EndpointConfig.SameDomainRuleAsClientTlsConfig` | src/channel/endpoint.rs:374-384 | the endpoint resolves its connector exactly as a `ClientTlsConfig` with the same domain and context would for its URI |
| `EndpointConfig.TlsConnectorIgnoresOtherSetters` | src/channel/endpoint.rs:374-384 | setters other than `tls_verify_domain` never change the TLS connector that is built, nor whether building it fails |
| `EndpointConfig.NewChannel` | src/channel/mod.rs:133-147 | a lazy channel over the given connector and endpoint; the mailbox holds the endpoint's buffer size, else 1024 |
| `EndpointConfig.ConnectChannel` | src/channel/mod.rs:149-165 | fails exactly when the connection fails, wrapped by `from_source`; otherwise an eager channel with the same mailbox rule |
| `Recover.CodeForReason` | src/server/recover_error.rs:88-102 | `Internal` exactly for NO_ERROR, PROTOCOL_ERROR, INTERNAL_ERROR, FLOW_CONTROL_ERROR, SETTINGS_TIMEOUT, COMPRESSION_ERROR and CONNECT_ERROR; REFUSED_STREAM gives `Unavailable`; CANCEL gives `Cancelled`; ENHANCE_YOUR_CALM gives `ResourceExhausted`; INADEQUATE_SECURITY gives `PermissionDenied`; any other reason, or none, gives `Unknown` |
| `Recover.UnnamedReasonsAreUnknown` | src/server/recover_error.rs:101 | STREAM_CLOSED, FRAME_SIZE_ERROR, HTTP_1_1_REQUIRED and a missing reason give `Unknown` |
| `Recover.TryStatusFromError` | src/server/recover_error.rs:82-113 | an h2 error always yields a status: the code from the table, the message "h2 protocol error: " followed by the h2 text, and the h2 error as source; any other error goes to `Status::try_from_error` |
| `Recover.MaybeEmptyBody.PollData` | src/server/recover_error.rs:142-150 | a full body gives the inner body's poll and state; an empty body gives the end of stream and stays empty |
| `Recover.MaybeEmptyBody.PollTrailers` | src/server/recover_error.rs:152-160 | a full body gives the inner body's trailers poll; an empty body gives `Ok(None)` |
| `Recover.MaybeEmptyBody.IsEndStream` | src/server/recover_error.rs:162-167 | a full body asks the inner body; an empty body is always at its end |
| `Recover.Full` | src/server/recover_error.rs:122-126 | a body that holds the given inner body |
| `Recover.Empty` | src/server/recover_error.rs:128-132 | a body that holds no inner body |
| `Recover.FullBodyPassesThrough` | src/server/recover_error.rs:122-126 | polled any number of times, a full body yields exactly the inner body's sequence of data polls |
| `Recover.EmptyBodyIsOver` | src/server/recover_error.rs:128-132 | every poll of an empty body is the end of stream |
| `Recover.StatusResponse` | src/server/recover_error.rs:71-74 | HTTP 200, an empty body, and the status headers added to an empty header map |
| `Recover.PollResponse` | src/server/recover_error.rs:61-79 | pending exactly when the inner future is; success keeps the head and wraps the body as full; a recovered status gives the status response; an unrecoverable error is propagated |
| `Recover.H2ErrorsBecomeStatusResponses` | src/server/recover_error.rs:70-107 | an h2 error always becomes HTTP 200 with an empty body, `grpc-status` from the table and `grpc-message` "h2 protocol error: " followed by the h2 text |
| `Recover.OnlyUnrecoverableErrorsEscape` | src/server/recover_error.rs:76 | if `try_from_error` gives back the error it could not read, the only errors that escape are the inner service's own non-h2 errors without a status |
| `Recover.RecoverError.PollReady` | src/server/recover_error.rs:37-39 | readiness is the wrapped service's readiness, errors unchanged |
| `Recover.RecoverError.Call` | src/server/recover_error.rs:41-46 | pending exactly when the wrapped call is; an error escapes only when the wrapped call failed with an error that is not an h2 error; a success keeps the wrapped response's head and wraps its body as full; an error with a status becomes that status response; an h2 error becomes HTTP 200 with an empty body, the table's `grpc-status` and the prefixed `grpc-message`; an error without a status is propagated unchanged, exactly as `try_from_error` hands it back |
| `Grpc.AddHeader` | src/server/recover_error.rs:73 | `grpc-status` holds the decimal code; `grpc-message` holds a non-empty message; other headers are kept |
| `Conn.AddrStreamInfo` | src/server/conn.rs:79-87 | always succeeds, and the remote address is always known |
| `Conn.TcpConnectInfo.RemoteAddr` | src/server/conn.rs:74-76 | returns the stored remote address, if any |
| `Conn.TlsConnectInfo.GetRef` | src/server/conn.rs:141-143 | returns the inner stream's connection info |
| `Conn.TlsConnectInfo.PeerCert` | src/server/conn.rs:151-153 | returns the stored peer certificate, if any |
| `Conn.TcpStreamInfo` | src/server/conn.rs:89-97 | always succeeds; the remote address is the peer address, or unknown when `peer_addr` fails |
| `Conn.DuplexStreamInfo` | src/server/conn.rs:99-105 | the unit value, never an error |
| `Conn.TlsStreamInfo` | src/server/conn.rs:107-124 | an inner error is propagated; a present certificate is stored as DER; a failed or empty lookup gives no certificate and no error; a failed `to_der` is propagated as `Other`; `get_ref` returns the inner info and `peer_cert` the stored certificate |
| `Conn.ConnectInfoOf` | src/server/conn.rs:56 | for any nesting of streams: fails exactly when some TLS layer's certificate cannot be converted to DER, and then with the `to_der` error of the innermost such layer, converted to `Other`; otherwise it describes every layer: the remote address, and at each TLS layer the DER certificate when the lookup found one, none otherwise |

## Left out

- The async plumbing is not modelled: futures, wakers, `Pin`, task
  spawning, and the buffer worker of src/channel/mod.rs. A poll is one
  value, and a future is one poll of it.
- `EndpointConfig.FromStatic`: `from_static` panics on a string that is not
  a valid URI (src/channel/endpoint.rs:61-63). The model requires the
  string to parse instead, so the panic is not modelled.
- `Endpoint::from_string`: it is `from_shared` on the string's UTF-8 bytes,
  and UTF-8 encoding is not modelled.
- The hyper/hyper-timeout connector wiring inside `connect*` is not
  modelled. The channel records only its dialer, its TLS connector and
  whether a connect timeout is applied.
- src/service/connector.rs (dial, then TLS), src/service/io.rs
  (`BoxedIo`), src/service/router.rs and src/server/incoming.rs (the
  accept loop) are not part of this model. They sequence library futures or
  run concurrent tasks. In the accept loop an `Err` is logged and never ends
  the loop, and only the end of the accept stream stops it.
- The load balancer and discovery (`balance_list`, `balance_channel`) are
  not part of this model. The selection logic is library code.
- `TlsConnectInfo::get_mut` is not modelled, because it is a mutable
  borrow.
- `Certificate` is kept as bytes. Parsing PEM or DER happens elsewhere.
- URI parsing, the native-tls handshake, `Status::try_from_error` and the
  wrapped body's methods are parameters, not definitions. Header-value
  validity is the http crate's byte rule, taken as given.
- `Grpc.AddHeader`: percent-encoding of `grpc-message`, status details and
  status metadata are not modelled. A header map holds one value per name.
  The `unwrap` on `add_header` at src/server/recover_error.rs:73 is assumed
  not to panic.
- `Duration` is a number of nanoseconds. `usize` is 64 bits wide.
