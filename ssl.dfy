/**
 * The pure mappings of the OpenSSL support: the classification of a result
 * code into `Ssl.Result`, equality of results, the classification of a
 * certificate verification result, and the encoding of key and certificate
 * files. The OpenSSL constants are those of OpenSSL 1.1.0, written out as
 * named integers.
 */
module Ssl {
  import opened Wrappers

  // ---------------------------------------------------------------------------
  // SSL_get_error codes and `Ssl.Result`
  // ---------------------------------------------------------------------------

  const SSL_ERROR_NONE: Int32 := 0
  const SSL_ERROR_SSL: Int32 := 1
  const SSL_ERROR_WANT_READ: Int32 := 2
  const SSL_ERROR_WANT_WRITE: Int32 := 3
  const SSL_ERROR_WANT_X509_LOOKUP: Int32 := 4
  const SSL_ERROR_SYSCALL: Int32 := 5
  const SSL_ERROR_ZERO_RETURN: Int32 := 6
  const SSL_ERROR_WANT_CONNECT: Int32 := 7
  const SSL_ERROR_WANT_ACCEPT: Int32 := 8
  const SSL_ERROR_WANT_ASYNC: Int32 := 9
  const SSL_ERROR_WANT_ASYNC_JOB: Int32 := 10

  /** `Ssl.Result`. */
  datatype SslResult =
    | Completed(count: Int32)
    | ZeroReturn
    | WantRead
    | WantWrite
    | WantConnect
    | WantAccept
    | WantX509Lookup
    | WantAsync
    | WantAsyncJob
    | Syscall
    | SslError
    | Unknown(code: Int32)

  /** The cases that carry no value. */
  predicate IsPayloadless(r: SslResult)
  {
    !r.Completed? && !r.Unknown?
  }

  /** The named branches of the switch in `Result.init(for:)`; `None` is its `default`. */
  function NamedResult(value: Int32): Option<SslResult>
  {
    if value == SSL_ERROR_ZERO_RETURN then Some(ZeroReturn)
    else if value == SSL_ERROR_WANT_READ then Some(WantRead)
    else if value == SSL_ERROR_WANT_WRITE then Some(WantWrite)
    else if value == SSL_ERROR_WANT_CONNECT then Some(WantConnect)
    else if value == SSL_ERROR_WANT_ACCEPT then Some(WantAccept)
    else if value == SSL_ERROR_WANT_X509_LOOKUP then Some(WantX509Lookup)
    else if value == SSL_ERROR_WANT_ASYNC then Some(WantAsync)
    else if value == SSL_ERROR_WANT_ASYNC_JOB then Some(WantAsyncJob)
    else if value == SSL_ERROR_SYSCALL then Some(Syscall)
    else if value == SSL_ERROR_SSL then Some(SslError)
    else None
  }

  /** The error code a payload-less result stands for. */
  function ErrorCode(r: SslResult): (c: Option<Int32>)
    ensures c.Some? <==> IsPayloadless(r)
  {
    match r
    case Completed(_) => None
    case ZeroReturn => Some(SSL_ERROR_ZERO_RETURN)
    case WantRead => Some(SSL_ERROR_WANT_READ)
    case WantWrite => Some(SSL_ERROR_WANT_WRITE)
    case WantConnect => Some(SSL_ERROR_WANT_CONNECT)
    case WantAccept => Some(SSL_ERROR_WANT_ACCEPT)
    case WantX509Lookup => Some(SSL_ERROR_WANT_X509_LOOKUP)
    case WantAsync => Some(SSL_ERROR_WANT_ASYNC)
    case WantAsyncJob => Some(SSL_ERROR_WANT_ASYNC_JOB)
    case Syscall => Some(SSL_ERROR_SYSCALL)
    case SslError => Some(SSL_ERROR_SSL)
    case Unknown(_) => None
  }

  /**
   * `Result.init(for:)` as written: a positive value is a completion before
   * the switch is consulted. Every named error code of OpenSSL is positive,
   * so the named branches are never taken.
   */
  function ResultForAsWritten(value: Int32): (r: SslResult)
    ensures value > 0 ==> r == Completed(value)
    ensures value <= 0 ==> r == Unknown(value)
  {
    if value > 0 then Completed(value)
    else NamedResult(value).UnwrapOr(Unknown(value))
  }

  /** As written, no code is ever classified as one of the named errors; `SSL_ERROR_WANT_READ` reads as a completion of 2 bytes. */
  lemma AsWrittenNeverNamesAnError(value: Int32)
    ensures !IsPayloadless(ResultForAsWritten(value))
    ensures ResultForAsWritten(SSL_ERROR_WANT_READ) == Completed(2)
  {
  }

  /**
   * `Result.init(for:)` as intended: the named error codes first, then a
   * positive value as a completion, anything else as unknown.
   */
  function ResultFor(value: Int32): (r: SslResult)
    ensures r.Completed? ==> value > 0 && r.count == value
    ensures r.Unknown? ==> value <= 0 && r.code == value
  {
    if NamedResult(value).Some? then NamedResult(value).value
    else if value > 0 then Completed(value)
    else Unknown(value)
  }

  /** Each named error code is classified as its own case, and only it is. */
  lemma ResultForRoundTrip(r: SslResult, value: Int32)
    ensures IsPayloadless(r) ==> ResultFor(ErrorCode(r).value) == r
    ensures IsPayloadless(ResultFor(value)) ==> ErrorCode(ResultFor(value)) == Some(value)
    ensures IsPayloadless(ResultFor(value)) <==> 1 <= value <= 10
  {
  }

  /** `SSL_ERROR_NONE` is not in the switch: it is unknown in both versions. */
  lemma NoneIsUnknown()
    ensures ResultFor(SSL_ERROR_NONE) == Unknown(0) == ResultForAsWritten(SSL_ERROR_NONE)
  {
  }

  // ---------------------------------------------------------------------------
  // Equality
  // ---------------------------------------------------------------------------

  /**
   * `==` as written, with a bound on the recursion depth (`None` when the
   * bound runs out). For a payload-less left operand it evaluates
   * `rhs == lhs`, that is, it calls itself with the operands swapped.
   */
  function EqAsWritten(lhs: SslResult, rhs: SslResult, fuel: nat): Option<bool>
    decreases fuel
  {
    if fuel == 0 then None
    else
      match lhs
      case Completed(l) => Some(rhs.Completed? && rhs.count == l)
      case Unknown(l) => Some(rhs.Unknown? && rhs.code == l)
      case _ => EqAsWritten(rhs, lhs, fuel - 1)
  }

  /** Two payload-less operands recurse for ever: even `.zeroReturn == .zeroReturn` never returns. */
  lemma {:induction false} AsWrittenDiverges(lhs: SslResult, rhs: SslResult, fuel: nat)
    requires IsPayloadless(lhs) && IsPayloadless(rhs)
    ensures EqAsWritten(lhs, rhs, fuel).None?
    decreases fuel
  {
    if fuel > 0 {
      AsWrittenDiverges(rhs, lhs, fuel - 1);
    }
  }

  /** `==` as intended: the same case, and the same value where the case carries one. */
  function Eq(lhs: SslResult, rhs: SslResult): (b: bool)
    ensures b <==> lhs == rhs
  {
    match lhs
    case Completed(l) => rhs.Completed? && rhs.count == l
    case Unknown(l) => rhs.Unknown? && rhs.code == l
    case _ => ErrorCode(lhs) == ErrorCode(rhs)
  }

  /** `!=`: the negation of `==`. */
  function NotEq(lhs: SslResult, rhs: SslResult): (b: bool)
    ensures b <==> lhs != rhs
  {
    !Eq(lhs, rhs)
  }

  /** Whenever the written `==` returns, it returns what the intended one does; it returns unless both operands are payload-less. */
  lemma AsWrittenAgreesWhenItReturns(lhs: SslResult, rhs: SslResult, fuel: nat)
    requires fuel >= 2
    ensures EqAsWritten(lhs, rhs, fuel).Some? <==> !(IsPayloadless(lhs) && IsPayloadless(rhs))
    ensures EqAsWritten(lhs, rhs, fuel).Some? ==> EqAsWritten(lhs, rhs, fuel).value == Eq(lhs, rhs)
  {
    if IsPayloadless(lhs) && IsPayloadless(rhs) {
      AsWrittenDiverges(lhs, rhs, fuel);
    }
  }

  // ---------------------------------------------------------------------------
  // Certificate verification results
  // ---------------------------------------------------------------------------

  const X509_V_OK: Int32 := 0
  const X509_V_ERR_UNSPECIFIED: Int32 := 1
  const X509_V_ERR_UNABLE_TO_GET_ISSUER_CERT: Int32 := 2
  const X509_V_ERR_UNABLE_TO_GET_CRL: Int32 := 3
  const X509_V_ERR_UNABLE_TO_DECRYPT_CERT_SIGNATURE: Int32 := 4
  const X509_V_ERR_UNABLE_TO_DECRYPT_CRL_SIGNATURE: Int32 := 5
  const X509_V_ERR_UNABLE_TO_DECODE_ISSUER_PUBLIC_KEY: Int32 := 6
  const X509_V_ERR_CERT_SIGNATURE_FAILURE: Int32 := 7
  const X509_V_ERR_CRL_SIGNATURE_FAILURE: Int32 := 8
  const X509_V_ERR_CERT_NOT_YET_VALID: Int32 := 9
  const X509_V_ERR_CERT_HAS_EXPIRED: Int32 := 10
  const X509_V_ERR_CRL_NOT_YET_VALID: Int32 := 11
  const X509_V_ERR_CRL_HAS_EXPIRED: Int32 := 12
  const X509_V_ERR_ERROR_IN_CERT_NOT_BEFORE_FIELD: Int32 := 13
  const X509_V_ERR_ERROR_IN_CERT_NOT_AFTER_FIELD: Int32 := 14
  const X509_V_ERR_ERROR_IN_CRL_LAST_UPDATE_FIELD: Int32 := 15
  const X509_V_ERR_ERROR_IN_CRL_NEXT_UPDATE_FIELD: Int32 := 16
  const X509_V_ERR_OUT_OF_MEM: Int32 := 17
  const X509_V_ERR_DEPTH_ZERO_SELF_SIGNED_CERT: Int32 := 18
  const X509_V_ERR_SELF_SIGNED_CERT_IN_CHAIN: Int32 := 19
  const X509_V_ERR_UNABLE_TO_GET_ISSUER_CERT_LOCALLY: Int32 := 20
  const X509_V_ERR_UNABLE_TO_VERIFY_LEAF_SIGNATURE: Int32 := 21
  const X509_V_ERR_CERT_CHAIN_TOO_LONG: Int32 := 22
  const X509_V_ERR_CERT_REVOKED: Int32 := 23
  const X509_V_ERR_INVALID_CA: Int32 := 24
  const X509_V_ERR_PATH_LENGTH_EXCEEDED: Int32 := 25
  const X509_V_ERR_INVALID_PURPOSE: Int32 := 26
  const X509_V_ERR_CERT_UNTRUSTED: Int32 := 27
  const X509_V_ERR_CERT_REJECTED: Int32 := 28
  const X509_V_ERR_SUBJECT_ISSUER_MISMATCH: Int32 := 29
  const X509_V_ERR_AKID_SKID_MISMATCH: Int32 := 30
  const X509_V_ERR_AKID_ISSUER_SERIAL_MISMATCH: Int32 := 31
  const X509_V_ERR_KEYUSAGE_NO_CERTSIGN: Int32 := 32
  const X509_V_ERR_UNABLE_TO_GET_CRL_ISSUER: Int32 := 33
  const X509_V_ERR_UNHANDLED_CRITICAL_EXTENSION: Int32 := 34
  const X509_V_ERR_KEYUSAGE_NO_CRL_SIGN: Int32 := 35
  const X509_V_ERR_UNHANDLED_CRITICAL_CRL_EXTENSION: Int32 := 36
  const X509_V_ERR_INVALID_NON_CA: Int32 := 37
  const X509_V_ERR_PROXY_PATH_LENGTH_EXCEEDED: Int32 := 38
  const X509_V_ERR_PROXY_SUBJECT_NAME_VIOLATION: Int32 := 72
  const X509_V_ERR_KEYUSAGE_NO_DIGITAL_SIGNATURE: Int32 := 39
  const X509_V_ERR_PROXY_CERTIFICATES_NOT_ALLOWED: Int32 := 40
  const X509_V_ERR_INVALID_EXTENSION: Int32 := 41
  const X509_V_ERR_INVALID_POLICY_EXTENSION: Int32 := 42
  const X509_V_ERR_NO_EXPLICIT_POLICY: Int32 := 43
  const X509_V_ERR_DIFFERENT_CRL_SCOPE: Int32 := 44
  const X509_V_ERR_UNSUPPORTED_EXTENSION_FEATURE: Int32 := 45
  const X509_V_ERR_UNNESTED_RESOURCE: Int32 := 46
  const X509_V_ERR_PERMITTED_VIOLATION: Int32 := 47
  const X509_V_ERR_EXCLUDED_VIOLATION: Int32 := 48
  const X509_V_ERR_SUBTREE_MINMAX: Int32 := 49
  const X509_V_ERR_APPLICATION_VERIFICATION: Int32 := 50
  const X509_V_ERR_UNSUPPORTED_CONSTRAINT_TYPE: Int32 := 51
  const X509_V_ERR_UNSUPPORTED_CONSTRAINT_SYNTAX: Int32 := 52
  const X509_V_ERR_UNSUPPORTED_NAME_SYNTAX: Int32 := 53
  const X509_V_ERR_CRL_PATH_VALIDATION_ERROR: Int32 := 54
  const X509_V_ERR_PATH_LOOP: Int32 := 55
  const X509_V_ERR_SUITE_B_INVALID_VERSION: Int32 := 56
  const X509_V_ERR_SUITE_B_INVALID_ALGORITHM: Int32 := 57
  const X509_V_ERR_SUITE_B_INVALID_CURVE: Int32 := 58
  const X509_V_ERR_SUITE_B_INVALID_SIGNATURE_ALGORITHM: Int32 := 59
  const X509_V_ERR_SUITE_B_LOS_NOT_ALLOWED: Int32 := 60
  const X509_V_ERR_SUITE_B_CANNOT_SIGN_P_384_WITH_P_256: Int32 := 61
  const X509_V_ERR_HOSTNAME_MISMATCH: Int32 := 62
  const X509_V_ERR_EMAIL_MISMATCH: Int32 := 63
  const X509_V_ERR_IP_ADDRESS_MISMATCH: Int32 := 64
  const X509_V_ERR_DANE_NO_MATCH: Int32 := 65

  /** `X509_VerificationResult`. */
  datatype X509VerificationResult
    = VerifyOk
    | Unspecified
    | UnableToGetIssuerCert
    | UnableToGetCRL
    | UnableToDecryptCertSignature
    | UnableToDecryptCRLSignature
    | UnableToDecodeIssuerPublicKey
    | CertSignatureFailure
    | CRLSignatureFailure
    | CertNotYetValid
    | CertHasExpired
    | CRLNotYetValid
    | CRLHasExpired
    | ErrorInCertNotBeforeField
    | ErrorInCertNotAfterField
    | ErrorInCRLLastUpdateField
    | ErrorInCRLNextUpdateField
    | OutOfMem
    | DepthZeroSelfSignedCert
    | SelfSignedCertInChain
    | UnableToGetIssuerCertLocally
    | UnableToVerifyLeafSignature
    | CertChainTooLong
    | CertRevoked
    | InvalidCA
    | PathLengthExceeded
    | InvalidPurpose
    | CertUntrusted
    | CertRejected
    | SubjectIssuerMismatch
    | AKIDSKIDMismatch
    | AKIDIssuerSerialMismatch
    | KeyusageNoCertsign
    | UnableToGetCRLIssuer
    | UnhandledCriticalExtension
    | KeyusageNoCRLSign
    | UnhandledCriticalCRLExtension
    | InvalidNonCA
    | ProxyPathLengthExceeded
    | ProxySubjectNameViolation
    | KeyusageNoDigitalSignature
    | ProxyCertificatesNotAllowed
    | InvalidExtension
    | InvalidPolicyExtension
    | NoExplicitPolicy
    | DifferentCRLScope
    | UnsupportedExtensionFeature
    | UnnestedResource
    | PermittedViolation
    | ExcludedViolation
    | SubtreeMinmax
    | ApplicationVerification
    | UnsupportedConstraintType
    | UnsupportedConstraintSyntax
    | UnsupportedNameSyntax
    | CRLPathValidationError
    | PathLoop
    | SuiteBInvalidVersion
    | SuiteBInvalidAlgorithm
    | SuiteBInvalidCurve
    | SuiteBInvalidSignatureAlgorithm
    | SuiteBLOSNotAllowed
    | SuiteBCannotSignP384WithP256
    | HostnameMismatch
    | EmailMismatch
    | IPAddressMismatch
    | DANENoMatch
    | UnknownVerification

  /** `X509_VerificationResult.init(for:)`: each `X509_V_*` constant to its case, anything else to `.unknown`. */
  function X509ResultFor(value: Int32): (r: X509VerificationResult)
    ensures value < 0 || value > 72 ==> r == UnknownVerification
  {
    if value == X509_V_OK then VerifyOk
    else if value == X509_V_ERR_UNSPECIFIED then Unspecified
    else if value == X509_V_ERR_UNABLE_TO_GET_ISSUER_CERT then UnableToGetIssuerCert
    else if value == X509_V_ERR_UNABLE_TO_GET_CRL then UnableToGetCRL
    else if value == X509_V_ERR_UNABLE_TO_DECRYPT_CERT_SIGNATURE then UnableToDecryptCertSignature
    else if value == X509_V_ERR_UNABLE_TO_DECRYPT_CRL_SIGNATURE then UnableToDecryptCRLSignature
    else if value == X509_V_ERR_UNABLE_TO_DECODE_ISSUER_PUBLIC_KEY then UnableToDecodeIssuerPublicKey
    else if value == X509_V_ERR_CERT_SIGNATURE_FAILURE then CertSignatureFailure
    else if value == X509_V_ERR_CRL_SIGNATURE_FAILURE then CRLSignatureFailure
    else if value == X509_V_ERR_CERT_NOT_YET_VALID then CertNotYetValid
    else if value == X509_V_ERR_CERT_HAS_EXPIRED then CertHasExpired
    else if value == X509_V_ERR_CRL_NOT_YET_VALID then CRLNotYetValid
    else if value == X509_V_ERR_CRL_HAS_EXPIRED then CRLHasExpired
    else if value == X509_V_ERR_ERROR_IN_CERT_NOT_BEFORE_FIELD then ErrorInCertNotBeforeField
    else if value == X509_V_ERR_ERROR_IN_CERT_NOT_AFTER_FIELD then ErrorInCertNotAfterField
    else if value == X509_V_ERR_ERROR_IN_CRL_LAST_UPDATE_FIELD then ErrorInCRLLastUpdateField
    else if value == X509_V_ERR_ERROR_IN_CRL_NEXT_UPDATE_FIELD then ErrorInCRLNextUpdateField
    else if value == X509_V_ERR_OUT_OF_MEM then OutOfMem
    else if value == X509_V_ERR_DEPTH_ZERO_SELF_SIGNED_CERT then DepthZeroSelfSignedCert
    else if value == X509_V_ERR_SELF_SIGNED_CERT_IN_CHAIN then SelfSignedCertInChain
    else if value == X509_V_ERR_UNABLE_TO_GET_ISSUER_CERT_LOCALLY then UnableToGetIssuerCertLocally
    else if value == X509_V_ERR_UNABLE_TO_VERIFY_LEAF_SIGNATURE then UnableToVerifyLeafSignature
    else if value == X509_V_ERR_CERT_CHAIN_TOO_LONG then CertChainTooLong
    else if value == X509_V_ERR_CERT_REVOKED then CertRevoked
    else if value == X509_V_ERR_INVALID_CA then InvalidCA
    else if value == X509_V_ERR_PATH_LENGTH_EXCEEDED then PathLengthExceeded
    else if value == X509_V_ERR_INVALID_PURPOSE then InvalidPurpose
    else if value == X509_V_ERR_CERT_UNTRUSTED then CertUntrusted
    else if value == X509_V_ERR_CERT_REJECTED then CertRejected
    else if value == X509_V_ERR_SUBJECT_ISSUER_MISMATCH then SubjectIssuerMismatch
    else if value == X509_V_ERR_AKID_SKID_MISMATCH then AKIDSKIDMismatch
    else if value == X509_V_ERR_AKID_ISSUER_SERIAL_MISMATCH then AKIDIssuerSerialMismatch
    else if value == X509_V_ERR_KEYUSAGE_NO_CERTSIGN then KeyusageNoCertsign
    else if value == X509_V_ERR_UNABLE_TO_GET_CRL_ISSUER then UnableToGetCRLIssuer
    else if value == X509_V_ERR_UNHANDLED_CRITICAL_EXTENSION then UnhandledCriticalExtension
    else if value == X509_V_ERR_KEYUSAGE_NO_CRL_SIGN then KeyusageNoCRLSign
    else if value == X509_V_ERR_UNHANDLED_CRITICAL_CRL_EXTENSION then UnhandledCriticalCRLExtension
    else if value == X509_V_ERR_INVALID_NON_CA then InvalidNonCA
    else if value == X509_V_ERR_PROXY_PATH_LENGTH_EXCEEDED then ProxyPathLengthExceeded
    else if value == X509_V_ERR_PROXY_SUBJECT_NAME_VIOLATION then ProxySubjectNameViolation
    else if value == X509_V_ERR_KEYUSAGE_NO_DIGITAL_SIGNATURE then KeyusageNoDigitalSignature
    else if value == X509_V_ERR_PROXY_CERTIFICATES_NOT_ALLOWED then ProxyCertificatesNotAllowed
    else if value == X509_V_ERR_INVALID_EXTENSION then InvalidExtension
    else if value == X509_V_ERR_INVALID_POLICY_EXTENSION then InvalidPolicyExtension
    else if value == X509_V_ERR_NO_EXPLICIT_POLICY then NoExplicitPolicy
    else if value == X509_V_ERR_DIFFERENT_CRL_SCOPE then DifferentCRLScope
    else if value == X509_V_ERR_UNSUPPORTED_EXTENSION_FEATURE then UnsupportedExtensionFeature
    else if value == X509_V_ERR_UNNESTED_RESOURCE then UnnestedResource
    else if value == X509_V_ERR_PERMITTED_VIOLATION then PermittedViolation
    else if value == X509_V_ERR_EXCLUDED_VIOLATION then ExcludedViolation
    else if value == X509_V_ERR_SUBTREE_MINMAX then SubtreeMinmax
    else if value == X509_V_ERR_APPLICATION_VERIFICATION then ApplicationVerification
    else if value == X509_V_ERR_UNSUPPORTED_CONSTRAINT_TYPE then UnsupportedConstraintType
    else if value == X509_V_ERR_UNSUPPORTED_CONSTRAINT_SYNTAX then UnsupportedConstraintSyntax
    else if value == X509_V_ERR_UNSUPPORTED_NAME_SYNTAX then UnsupportedNameSyntax
    else if value == X509_V_ERR_CRL_PATH_VALIDATION_ERROR then CRLPathValidationError
    else if value == X509_V_ERR_PATH_LOOP then PathLoop
    else if value == X509_V_ERR_SUITE_B_INVALID_VERSION then SuiteBInvalidVersion
    else if value == X509_V_ERR_SUITE_B_INVALID_ALGORITHM then SuiteBInvalidAlgorithm
    else if value == X509_V_ERR_SUITE_B_INVALID_CURVE then SuiteBInvalidCurve
    else if value == X509_V_ERR_SUITE_B_INVALID_SIGNATURE_ALGORITHM then SuiteBInvalidSignatureAlgorithm
    else if value == X509_V_ERR_SUITE_B_LOS_NOT_ALLOWED then SuiteBLOSNotAllowed
    else if value == X509_V_ERR_SUITE_B_CANNOT_SIGN_P_384_WITH_P_256 then SuiteBCannotSignP384WithP256
    else if value == X509_V_ERR_HOSTNAME_MISMATCH then HostnameMismatch
    else if value == X509_V_ERR_EMAIL_MISMATCH then EmailMismatch
    else if value == X509_V_ERR_IP_ADDRESS_MISMATCH then IPAddressMismatch
    else if value == X509_V_ERR_DANE_NO_MATCH then DANENoMatch
    else UnknownVerification
  }

  /** The constant a named verification result stands for. */
  function X509Code(r: X509VerificationResult): (c: Option<Int32>)
    ensures c.Some? <==> !r.UnknownVerification?
  {
    match r
    case VerifyOk => Some(X509_V_OK)
    case Unspecified => Some(X509_V_ERR_UNSPECIFIED)
    case UnableToGetIssuerCert => Some(X509_V_ERR_UNABLE_TO_GET_ISSUER_CERT)
    case UnableToGetCRL => Some(X509_V_ERR_UNABLE_TO_GET_CRL)
    case UnableToDecryptCertSignature => Some(X509_V_ERR_UNABLE_TO_DECRYPT_CERT_SIGNATURE)
    case UnableToDecryptCRLSignature => Some(X509_V_ERR_UNABLE_TO_DECRYPT_CRL_SIGNATURE)
    case UnableToDecodeIssuerPublicKey => Some(X509_V_ERR_UNABLE_TO_DECODE_ISSUER_PUBLIC_KEY)
    case CertSignatureFailure => Some(X509_V_ERR_CERT_SIGNATURE_FAILURE)
    case CRLSignatureFailure => Some(X509_V_ERR_CRL_SIGNATURE_FAILURE)
    case CertNotYetValid => Some(X509_V_ERR_CERT_NOT_YET_VALID)
    case CertHasExpired => Some(X509_V_ERR_CERT_HAS_EXPIRED)
    case CRLNotYetValid => Some(X509_V_ERR_CRL_NOT_YET_VALID)
    case CRLHasExpired => Some(X509_V_ERR_CRL_HAS_EXPIRED)
    case ErrorInCertNotBeforeField => Some(X509_V_ERR_ERROR_IN_CERT_NOT_BEFORE_FIELD)
    case ErrorInCertNotAfterField => Some(X509_V_ERR_ERROR_IN_CERT_NOT_AFTER_FIELD)
    case ErrorInCRLLastUpdateField => Some(X509_V_ERR_ERROR_IN_CRL_LAST_UPDATE_FIELD)
    case ErrorInCRLNextUpdateField => Some(X509_V_ERR_ERROR_IN_CRL_NEXT_UPDATE_FIELD)
    case OutOfMem => Some(X509_V_ERR_OUT_OF_MEM)
    case DepthZeroSelfSignedCert => Some(X509_V_ERR_DEPTH_ZERO_SELF_SIGNED_CERT)
    case SelfSignedCertInChain => Some(X509_V_ERR_SELF_SIGNED_CERT_IN_CHAIN)
    case UnableToGetIssuerCertLocally => Some(X509_V_ERR_UNABLE_TO_GET_ISSUER_CERT_LOCALLY)
    case UnableToVerifyLeafSignature => Some(X509_V_ERR_UNABLE_TO_VERIFY_LEAF_SIGNATURE)
    case CertChainTooLong => Some(X509_V_ERR_CERT_CHAIN_TOO_LONG)
    case CertRevoked => Some(X509_V_ERR_CERT_REVOKED)
    case InvalidCA => Some(X509_V_ERR_INVALID_CA)
    case PathLengthExceeded => Some(X509_V_ERR_PATH_LENGTH_EXCEEDED)
    case InvalidPurpose => Some(X509_V_ERR_INVALID_PURPOSE)
    case CertUntrusted => Some(X509_V_ERR_CERT_UNTRUSTED)
    case CertRejected => Some(X509_V_ERR_CERT_REJECTED)
    case SubjectIssuerMismatch => Some(X509_V_ERR_SUBJECT_ISSUER_MISMATCH)
    case AKIDSKIDMismatch => Some(X509_V_ERR_AKID_SKID_MISMATCH)
    case AKIDIssuerSerialMismatch => Some(X509_V_ERR_AKID_ISSUER_SERIAL_MISMATCH)
    case KeyusageNoCertsign => Some(X509_V_ERR_KEYUSAGE_NO_CERTSIGN)
    case UnableToGetCRLIssuer => Some(X509_V_ERR_UNABLE_TO_GET_CRL_ISSUER)
    case UnhandledCriticalExtension => Some(X509_V_ERR_UNHANDLED_CRITICAL_EXTENSION)
    case KeyusageNoCRLSign => Some(X509_V_ERR_KEYUSAGE_NO_CRL_SIGN)
    case UnhandledCriticalCRLExtension => Some(X509_V_ERR_UNHANDLED_CRITICAL_CRL_EXTENSION)
    case InvalidNonCA => Some(X509_V_ERR_INVALID_NON_CA)
    case ProxyPathLengthExceeded => Some(X509_V_ERR_PROXY_PATH_LENGTH_EXCEEDED)
    case ProxySubjectNameViolation => Some(X509_V_ERR_PROXY_SUBJECT_NAME_VIOLATION)
    case KeyusageNoDigitalSignature => Some(X509_V_ERR_KEYUSAGE_NO_DIGITAL_SIGNATURE)
    case ProxyCertificatesNotAllowed => Some(X509_V_ERR_PROXY_CERTIFICATES_NOT_ALLOWED)
    case InvalidExtension => Some(X509_V_ERR_INVALID_EXTENSION)
    case InvalidPolicyExtension => Some(X509_V_ERR_INVALID_POLICY_EXTENSION)
    case NoExplicitPolicy => Some(X509_V_ERR_NO_EXPLICIT_POLICY)
    case DifferentCRLScope => Some(X509_V_ERR_DIFFERENT_CRL_SCOPE)
    case UnsupportedExtensionFeature => Some(X509_V_ERR_UNSUPPORTED_EXTENSION_FEATURE)
    case UnnestedResource => Some(X509_V_ERR_UNNESTED_RESOURCE)
    case PermittedViolation => Some(X509_V_ERR_PERMITTED_VIOLATION)
    case ExcludedViolation => Some(X509_V_ERR_EXCLUDED_VIOLATION)
    case SubtreeMinmax => Some(X509_V_ERR_SUBTREE_MINMAX)
    case ApplicationVerification => Some(X509_V_ERR_APPLICATION_VERIFICATION)
    case UnsupportedConstraintType => Some(X509_V_ERR_UNSUPPORTED_CONSTRAINT_TYPE)
    case UnsupportedConstraintSyntax => Some(X509_V_ERR_UNSUPPORTED_CONSTRAINT_SYNTAX)
    case UnsupportedNameSyntax => Some(X509_V_ERR_UNSUPPORTED_NAME_SYNTAX)
    case CRLPathValidationError => Some(X509_V_ERR_CRL_PATH_VALIDATION_ERROR)
    case PathLoop => Some(X509_V_ERR_PATH_LOOP)
    case SuiteBInvalidVersion => Some(X509_V_ERR_SUITE_B_INVALID_VERSION)
    case SuiteBInvalidAlgorithm => Some(X509_V_ERR_SUITE_B_INVALID_ALGORITHM)
    case SuiteBInvalidCurve => Some(X509_V_ERR_SUITE_B_INVALID_CURVE)
    case SuiteBInvalidSignatureAlgorithm => Some(X509_V_ERR_SUITE_B_INVALID_SIGNATURE_ALGORITHM)
    case SuiteBLOSNotAllowed => Some(X509_V_ERR_SUITE_B_LOS_NOT_ALLOWED)
    case SuiteBCannotSignP384WithP256 => Some(X509_V_ERR_SUITE_B_CANNOT_SIGN_P_384_WITH_P_256)
    case HostnameMismatch => Some(X509_V_ERR_HOSTNAME_MISMATCH)
    case EmailMismatch => Some(X509_V_ERR_EMAIL_MISMATCH)
    case IPAddressMismatch => Some(X509_V_ERR_IP_ADDRESS_MISMATCH)
    case DANENoMatch => Some(X509_V_ERR_DANE_NO_MATCH)
    case UnknownVerification => None
  }

  /** The round trip for the cases `VerifyOk` to `CertRevoked`, in the order of the switch. */
  lemma X509RoundTripGroup1(r: X509VerificationResult)
    requires r.VerifyOk?
             || r.Unspecified?
             || r.UnableToGetIssuerCert?
             || r.UnableToGetCRL?
             || r.UnableToDecryptCertSignature?
             || r.UnableToDecryptCRLSignature?
             || r.UnableToDecodeIssuerPublicKey?
             || r.CertSignatureFailure?
             || r.CRLSignatureFailure?
             || r.CertNotYetValid?
             || r.CertHasExpired?
             || r.CRLNotYetValid?
             || r.CRLHasExpired?
             || r.ErrorInCertNotBeforeField?
             || r.ErrorInCertNotAfterField?
             || r.ErrorInCRLLastUpdateField?
             || r.ErrorInCRLNextUpdateField?
             || r.OutOfMem?
             || r.DepthZeroSelfSignedCert?
             || r.SelfSignedCertInChain?
             || r.UnableToGetIssuerCertLocally?
             || r.UnableToVerifyLeafSignature?
             || r.CertChainTooLong?
             || r.CertRevoked?
    ensures X509ResultFor(X509Code(r).value) == r
  {
  }

  /** The round trip for the cases `InvalidCA` to `UnhandledCriticalExtension`, in the order of the switch. */
  lemma X509RoundTripGroup2(r: X509VerificationResult)
    requires r.InvalidCA?
             || r.PathLengthExceeded?
             || r.InvalidPurpose?
             || r.CertUntrusted?
             || r.CertRejected?
             || r.SubjectIssuerMismatch?
             || r.AKIDSKIDMismatch?
             || r.AKIDIssuerSerialMismatch?
             || r.KeyusageNoCertsign?
             || r.UnableToGetCRLIssuer?
             || r.UnhandledCriticalExtension?
    ensures X509ResultFor(X509Code(r).value) == r
  {
  }

  /** The round trip for the cases `KeyusageNoCRLSign` to `InvalidExtension`, in the order of the switch. */
  lemma X509RoundTripGroup3(r: X509VerificationResult)
    requires r.KeyusageNoCRLSign?
             || r.UnhandledCriticalCRLExtension?
             || r.InvalidNonCA?
             || r.ProxyPathLengthExceeded?
             || r.ProxySubjectNameViolation?
             || r.KeyusageNoDigitalSignature?
             || r.ProxyCertificatesNotAllowed?
             || r.InvalidExtension?
    ensures X509ResultFor(X509Code(r).value) == r
  {
  }

  /** The round trip for the cases `InvalidPolicyExtension` to `ExcludedViolation`, in the order of the switch. */
  lemma X509RoundTripGroup4(r: X509VerificationResult)
    requires r.InvalidPolicyExtension?
             || r.NoExplicitPolicy?
             || r.DifferentCRLScope?
             || r.UnsupportedExtensionFeature?
             || r.UnnestedResource?
             || r.PermittedViolation?
             || r.ExcludedViolation?
    ensures X509ResultFor(X509Code(r).value) == r
  {
  }

  /** The round trip for the cases `SubtreeMinmax` to `UnsupportedConstraintType`, in the order of the switch. */
  lemma X509RoundTripGroup5(r: X509VerificationResult)
    requires r.SubtreeMinmax?
             || r.ApplicationVerification?
             || r.UnsupportedConstraintType?
    ensures X509ResultFor(X509Code(r).value) == r
  {
  }

  /** The round trip for the cases `UnsupportedConstraintSyntax` to `CRLPathValidationError`, in the order of the switch. */
  lemma X509RoundTripGroup6(r: X509VerificationResult)
    requires r.UnsupportedConstraintSyntax?
             || r.UnsupportedNameSyntax?
             || r.CRLPathValidationError?
    ensures X509ResultFor(X509Code(r).value) == r
  {
  }

  /** The round trip for the cases `PathLoop` to `SuiteBInvalidAlgorithm`, in the order of the switch. */
  lemma X509RoundTripGroup7(r: X509VerificationResult)
    requires r.PathLoop?
             || r.SuiteBInvalidVersion?
             || r.SuiteBInvalidAlgorithm?
    ensures X509ResultFor(X509Code(r).value) == r
  {
  }

  /** The round trip for the cases `SuiteBInvalidCurve` to `SuiteBInvalidSignatureAlgorithm`, in the order of the switch. */
  lemma X509RoundTripGroup8(r: X509VerificationResult)
    requires r.SuiteBInvalidCurve?
             || r.SuiteBInvalidSignatureAlgorithm?
    ensures X509ResultFor(X509Code(r).value) == r
  {
  }

  /** The round trip for the cases `SuiteBLOSNotAllowed` to `HostnameMismatch`, in the order of the switch. */
  lemma X509RoundTripGroup9(r: X509VerificationResult)
    requires r.SuiteBLOSNotAllowed?
             || r.SuiteBCannotSignP384WithP256?
             || r.HostnameMismatch?
    ensures X509ResultFor(X509Code(r).value) == r
  {
  }

  /** The round trip for the cases `EmailMismatch` to `DANENoMatch`, in the order of the switch. */
  lemma X509RoundTripGroup10(r: X509VerificationResult)
    requires r.EmailMismatch?
             || r.IPAddressMismatch?
             || r.DANENoMatch?
    ensures X509ResultFor(X509Code(r).value) == r
  {
  }

  /** Every named result is what its own constant maps to. */
  lemma X509RoundTrip(r: X509VerificationResult)
    requires !r.UnknownVerification?
    ensures X509ResultFor(X509Code(r).value) == r
  {
    if r.VerifyOk?
       || r.Unspecified?
       || r.UnableToGetIssuerCert?
       || r.UnableToGetCRL?
       || r.UnableToDecryptCertSignature?
       || r.UnableToDecryptCRLSignature?
       || r.UnableToDecodeIssuerPublicKey?
       || r.CertSignatureFailure?
       || r.CRLSignatureFailure?
       || r.CertNotYetValid?
       || r.CertHasExpired?
       || r.CRLNotYetValid?
       || r.CRLHasExpired?
       || r.ErrorInCertNotBeforeField?
       || r.ErrorInCertNotAfterField?
       || r.ErrorInCRLLastUpdateField?
       || r.ErrorInCRLNextUpdateField?
       || r.OutOfMem?
       || r.DepthZeroSelfSignedCert?
       || r.SelfSignedCertInChain?
       || r.UnableToGetIssuerCertLocally?
       || r.UnableToVerifyLeafSignature?
       || r.CertChainTooLong?
       || r.CertRevoked? {
      X509RoundTripGroup1(r);
    } else if r.InvalidCA?
       || r.PathLengthExceeded?
       || r.InvalidPurpose?
       || r.CertUntrusted?
       || r.CertRejected?
       || r.SubjectIssuerMismatch?
       || r.AKIDSKIDMismatch?
       || r.AKIDIssuerSerialMismatch?
       || r.KeyusageNoCertsign?
       || r.UnableToGetCRLIssuer?
       || r.UnhandledCriticalExtension? {
      X509RoundTripGroup2(r);
    } else if r.KeyusageNoCRLSign?
       || r.UnhandledCriticalCRLExtension?
       || r.InvalidNonCA?
       || r.ProxyPathLengthExceeded?
       || r.ProxySubjectNameViolation?
       || r.KeyusageNoDigitalSignature?
       || r.ProxyCertificatesNotAllowed?
       || r.InvalidExtension? {
      X509RoundTripGroup3(r);
    } else if r.InvalidPolicyExtension?
       || r.NoExplicitPolicy?
       || r.DifferentCRLScope?
       || r.UnsupportedExtensionFeature?
       || r.UnnestedResource?
       || r.PermittedViolation?
       || r.ExcludedViolation? {
      X509RoundTripGroup4(r);
    } else if r.SubtreeMinmax?
       || r.ApplicationVerification?
       || r.UnsupportedConstraintType? {
      X509RoundTripGroup5(r);
    } else if r.UnsupportedConstraintSyntax?
       || r.UnsupportedNameSyntax?
       || r.CRLPathValidationError? {
      X509RoundTripGroup6(r);
    } else if r.PathLoop?
       || r.SuiteBInvalidVersion?
       || r.SuiteBInvalidAlgorithm? {
      X509RoundTripGroup7(r);
    } else if r.SuiteBInvalidCurve?
       || r.SuiteBInvalidSignatureAlgorithm? {
      X509RoundTripGroup8(r);
    } else if r.SuiteBLOSNotAllowed?
       || r.SuiteBCannotSignP384WithP256?
       || r.HostnameMismatch? {
      X509RoundTripGroup9(r);
    } else {
      X509RoundTripGroup10(r);
    }
  }

  /** A value maps to `.unknown` exactly when it is none of the constants: negative, or above 65 and not 72. */
  lemma X509UnknownExactly(value: Int32)
    ensures X509ResultFor(value).UnknownVerification? <==> value < 0 || (65 < value && value != 72)
  {
  }

  // ---------------------------------------------------------------------------
  // Key and certificate files
  // ---------------------------------------------------------------------------

  const SSL_FILETYPE_PEM: Int32 := 1
  const SSL_FILETYPE_ASN1: Int32 := 2

  /** `FileEncoding`. */
  datatype FileEncoding = Asn1 | Pem
  {
    /** `asInt32`: the OpenSSL file type constant. */
    function AsInt32(): (v: Int32)
      ensures this == Asn1 ==> v == SSL_FILETYPE_ASN1
      ensures this == Pem ==> v == SSL_FILETYPE_PEM
    {
      match this
      case Asn1 => SSL_FILETYPE_ASN1
      case Pem => SSL_FILETYPE_PEM
    }
  }

  /** The encoding an OpenSSL file type constant stands for. */
  function EncodingOf(v: Int32): (e: Option<FileEncoding>)
    ensures e.Some? <==> v == SSL_FILETYPE_PEM || v == SSL_FILETYPE_ASN1
  {
    if v == SSL_FILETYPE_ASN1 then Some(Asn1)
    else if v == SSL_FILETYPE_PEM then Some(Pem)
    else None
  }

  /** `asInt32` is injective and `EncodingOf` inverts it. */
  lemma EncodingRoundTrip(e: FileEncoding, v: Int32)
    ensures EncodingOf(e.AsInt32()) == Some(e)
    ensures EncodingOf(v).Some? ==> EncodingOf(v).value.AsInt32() == v
  {
  }

  /** `KeyCertFile`. */
  datatype KeyCertFile = KeyCertFile(path: string, encoding: Int32)

  /** `KeyCertFile.init(path:encoding:)`: stores the path and the file type constant of the encoding. */
  function NewKeyCertFile(path: string, encoding: FileEncoding): (k: KeyCertFile)
    ensures k.path == path
    ensures EncodingOf(k.encoding) == Some(encoding)
  {
    EncodingRoundTrip(encoding, encoding.AsInt32());
    KeyCertFile(path, encoding.AsInt32())
  }
}
