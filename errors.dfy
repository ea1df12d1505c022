/**
 * The crate's error taxonomy (src/lib.rs): the public `Error` enum, its
 * constructors and conversions, its `Display` texts and its `source`.
 */
module Errors {
  import opened Wrappers
  import opened Externals

  /**
   * `BoxError`, a boxed `dyn std::error::Error`.  The variants are the
   * concrete errors this crate boxes or looks for; `Opaque` is any other.
   */
  datatype BoxError =
    | H2(h2: H2Error)
    | NativeTls(tls: NativeTlsError)
    | Axum(axum: AxumError)
    | Io(io: IoError)
    | Opaque(description: string)

  /** The `Display` text of a boxed error. */
  function Describe(b: BoxError): string {
    match b
    case H2(e) => e.description
    case NativeTls(e) => e.description
    case Axum(e) => e.description
    case Io(e) => e.description
    case Opaque(d) => d
  }

  /** `Error` (non-exhaustive in the source). */
  datatype Error =
    | InvalidUri(detail: string)
    | InvalidUserAgent
    | H2NotNegotiated
    | Other(source: BoxError)

  const INVALID_URI_PREFIX: string := "Invalid URI: "
  const INVALID_USER_AGENT_TEXT: string := "Invalid user agent"
  const H2_NOT_NEGOTIATED_TEXT: string := "HTTP/2 was not negotiated"
  const OTHER_PREFIX: string := "Unknown error "

  /** The `#[error(...)]` texts. */
  function Display(e: Error): (r: string)
    ensures e.InvalidUri? <==> INVALID_URI_PREFIX <= r
    ensures e.Other? <==> OTHER_PREFIX <= r
    ensures e.InvalidUri? ==> r[|INVALID_URI_PREFIX|..] == e.detail
    ensures e.Other? ==> r[|OTHER_PREFIX|..] == Describe(e.source)
    ensures e.InvalidUserAgent? ==> r == INVALID_USER_AGENT_TEXT
    ensures e.H2NotNegotiated? ==> r == H2_NOT_NEGOTIATED_TEXT
  {
    match e
    case InvalidUri(d) =>
      assert (INVALID_URI_PREFIX + d)[0] != OTHER_PREFIX[0];
      INVALID_URI_PREFIX + d
    case InvalidUserAgent =>
      assert INVALID_USER_AGENT_TEXT[8] != INVALID_URI_PREFIX[8];
      assert INVALID_USER_AGENT_TEXT[0] != OTHER_PREFIX[0];
      INVALID_USER_AGENT_TEXT
    case H2NotNegotiated =>
      assert H2_NOT_NEGOTIATED_TEXT[0] != INVALID_URI_PREFIX[0];
      assert H2_NOT_NEGOTIATED_TEXT[0] != OTHER_PREFIX[0];
      H2_NOT_NEGOTIATED_TEXT
    case Other(b) =>
      assert (OTHER_PREFIX + Describe(b))[0] != INVALID_URI_PREFIX[0];
      OTHER_PREFIX + Describe(b)
  }

  /** `std::error::Error::source`: only `Other`, marked `#[from]`, has one. */
  function Source(e: Error): (r: Option<BoxError>)
    ensures r.Some? <==> e.Other?
  {
    match e
    case Other(b) => Some(b)
    case _ => None
  }

  /** `Error::new_invalid_uri`. */
  function NewInvalidUri(detail: string): (r: Error)
    ensures Display(r) == INVALID_URI_PREFIX + detail
    ensures Source(r) == None
  {
    InvalidUri(detail)
  }

  /** `Error::from_source`, also the `#[from] BoxError` conversion. */
  function FromSource(source: BoxError): (r: Error)
    ensures Source(r) == Some(source)
    ensures Display(r) == OTHER_PREFIX + Describe(source)
  {
    Other(source)
  }

  /** `impl From<axum::Error> for Error`. */
  function FromAxum(e: AxumError): (r: Error)
    ensures Source(r) == Some(Axum(e))
    ensures Display(r) == OTHER_PREFIX + e.description
  {
    Other(Axum(e))
  }

  /** `impl From<native_tls::Error> for Error`, used by every `?` on a native-tls call. */
  function FromNativeTls(e: NativeTlsError): (r: Error)
    ensures Source(r) == Some(NativeTls(e))
    ensures Display(r) == OTHER_PREFIX + e.description
  {
    Other(NativeTls(e))
  }

  /**
   * The `Display` text tells the four kinds apart, and for `InvalidUri` it
   * also gives back the detail.
   */
  lemma DisplayDeterminesKind(a: Error, b: Error)
    requires Display(a) == Display(b)
    ensures a.InvalidUri? <==> b.InvalidUri?
    ensures a.InvalidUserAgent? <==> b.InvalidUserAgent?
    ensures a.H2NotNegotiated? <==> b.H2NotNegotiated?
    ensures a.Other? <==> b.Other?
    ensures a.InvalidUri? ==> a.detail == b.detail
  {
    var s := Display(a);
    assert s[0] == 'I' ==> a.InvalidUri? || a.InvalidUserAgent?;
    assert s[0] == 'I' ==> b.InvalidUri? || b.InvalidUserAgent?;
    if a.InvalidUri? || a.InvalidUserAgent? {
      assert Display(b)[8] == s[8];
    }
    if a.InvalidUri? {
      assert b.InvalidUri? by {
        assert s[8] == 'U';
      }
      assert a.detail == s[|INVALID_URI_PREFIX|..] == b.detail;
    }
  }
}

/**
 * `OptionPin` (src/lib.rs), the pin-projectable `Option` behind
 * `MaybeEmptyBody`: exactly a `Some` holding a value or a `None`.  It has a
 * module of its own so that its constructors do not clash with `Option`'s.
 */
module OptionPins {
  datatype OptionPin<T> = Some(pinned: T) | None
}
