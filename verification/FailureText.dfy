/**
 How tools/openai_oauth_reauth_worker.py names failures: the closed vocabulary of codes, the text printed for a failed
 login run, and safe_worker_failure, which reads that text back.
 */
module FailureText {
  import opened Wrappers
  import opened Text

  // The values of OPERATION_CODES.
  datatype Code =
    | PhoneVerificationRequired | AccountDeactivated | AccountDeleted | AccountRetired | RequiresRelogin
    | PasswordRejected
    | MfaRequired | SecurityCheck | AuthorizationDenied | RateLimited | Timeout | TransportError | ServiceError

  function Name(code: Code): string {
    match code
    case PhoneVerificationRequired => "phone_verification_required"
    case AccountDeactivated => "account_deactivated"
    case AccountDeleted => "account_deleted"
    case AccountRetired => "account_retired"
    case RequiresRelogin => "requires_relogin"
    case PasswordRejected => "password_rejected"
    case MfaRequired => "mfa_required"
    case SecurityCheck => "security_check"
    case AuthorizationDenied => "authorization_denied"
    case RateLimited => "rate_limited"
    case Timeout => "timeout"
    case TransportError => "transport_error"
    case ServiceError => "service_error"
  }

  // What safe_worker_failure answers.
  datatype Verdict = Reported(code: Code) | Unknown | WorkerFailed
  {
    function Text(): string {
      match this
      case Reported(code) => Name(code)
      case Unknown => "unknown"
      case WorkerFailed => "worker_failed"
    }
  }

  // The keys of OPERATION_CODES that are codes themselves.
  function CodeNamed(raw: string): Option<Code> {
    if raw == "phone_verification_required" then Some(PhoneVerificationRequired)
    else if raw == "account_deactivated" then Some(AccountDeactivated)
    else if raw == "account_deleted" then Some(AccountDeleted)
    else if raw == "account_retired" then Some(AccountRetired)
    else if raw == "requires_relogin" then Some(RequiresRelogin)
    else if raw == "password_rejected" then Some(PasswordRejected)
    else if raw == "mfa_required" then Some(MfaRequired)
    else if raw == "security_check" then Some(SecurityCheck)
    else if raw == "authorization_denied" then Some(AuthorizationDenied)
    else if raw == "rate_limited" then Some(RateLimited)
    else if raw == "timeout" then Some(Timeout)
    else if raw == "transport_error" then Some(TransportError)
    else if raw == "service_error" then Some(ServiceError)
    else None
  }

  // Its other keys, each an alias of a code.
  function AliasOf(raw: string): Option<Code> {
    if LoginAlias(raw).Some? then LoginAlias(raw)
    else if ChallengeAlias(raw).Some? then ChallengeAlias(raw)
    else ServiceAlias(raw)
  }

  function LoginAlias(raw: string): Option<Code> {
    if
      raw == "phone_number_required"
    then Some(PhoneVerificationRequired)
    else if
      raw == "account_disabled" || raw == "account_banned"
    then Some(AccountDeactivated)
    else if
      raw == "auth_failed" || raw == "invalid_token" || raw == "token_invalid" || raw == "invalid_grant"
      || raw == "revoked" || raw == "token_invalidated" || raw == "token_revoked"
      || raw == "refresh_token_reused" || raw == "refresh_token_invalidated" || raw == "invalid_refresh_token"
      || raw == "token_expired" || raw == "app_session_terminated" || raw == "session_unavailable"
    then Some(RequiresRelogin)
    else None
  }

  function ChallengeAlias(raw: string): Option<Code> {
    if
      raw == "invalid_password" || raw == "incorrect_password"
    then Some(PasswordRejected)
    else if
      raw == "totp_rejected" || raw == "otp_required" || raw == "email_verification_required"
      || raw == "interaction_required"
    then Some(MfaRequired)
    else if
      raw == "security_check_required" || raw == "challenge_required"
      || raw == "session_blocked_by_cyber_policy" || raw == "cyber_policy"
    then Some(SecurityCheck)
    else None
  }

  function ServiceAlias(raw: string): Option<Code> {
    if
      raw == "access_denied" || raw == "permission_denied"
    then Some(AuthorizationDenied)
    else if
      raw == "rate_limit_exceeded" || raw == "rate_limit_error" || raw == "too_many_requests"
    then Some(RateLimited)
    else if
      raw == "request_timeout" || raw == "worker_timeout" || raw == "idle_timeout"
    then Some(Timeout)
    else if
      raw == "connection_error" || raw == "proxy_unavailable"
    then Some(TransportError)
    else if
      raw == "server_error" || raw == "service_unavailable"
    then Some(ServiceError)
    else None
  }

  // OPERATION_CODES.get(raw).
  function OperationCode(raw: string): Option<Code> {
    if CodeNamed(raw).Some? then CodeNamed(raw) else AliasOf(raw)
  }

  // OPERATION_TEXTS.get(raw).
  function OperationText(raw: string): Option<Code> {
    if raw == "You must provide a phone number to continue." then Some(PhoneVerificationRequired)
    else if raw == "Phone verification required." then Some(PhoneVerificationRequired)
    else if raw == "Your account has been deactivated." then Some(AccountDeactivated)
    else if raw == "Your account has been deleted." then Some(AccountDeleted)
    else if raw == "Your account has been deleted or deactivated." then Some(AccountRetired)
    else if raw == "This account has been deleted or deactivated." then Some(AccountRetired)
    else None
  }

  // Every code is a key of the table, and stands for itself.
  lemma CodesAreStable(code: Code)
    ensures OperationCode(Name(code)) == Some(code)
  {
    if EarlyCode(code) {
      EarlyCodesAreStable(code);
    } else {
      LateCodesAreStable(code);
    }
  }

  predicate EarlyCode(code: Code) {
    code in {PhoneVerificationRequired, AccountDeactivated, AccountDeleted, AccountRetired, RequiresRelogin,
             PasswordRejected, MfaRequired}
  }

  lemma EarlyCodesAreStable(code: Code)
    requires EarlyCode(code)
    ensures CodeNamed(Name(code)) == Some(code)
  {
    match code { case _ => }
  }

  lemma LateCodesAreStable(code: Code)
    requires !EarlyCode(code)
    ensures CodeNamed(Name(code)) == Some(code)
  {
    match code { case _ => }
  }

  // Keys are short and begin with a small letter, so none looks like a sentence.
  predicate KeyShaped(raw: string) { 0 < |raw| <= 31 && 'a' <= raw[0] <= 'z' }

  lemma KeysAreShaped(raw: string)
    requires OperationCode(raw).Some?
    ensures KeyShaped(raw)
  {
    if CodeNamed(raw).Some? {
      NamesAreShaped(raw);
    } else if LoginAlias(raw).Some? {
      LoginAliasesAreShaped(raw);
    } else if ChallengeAlias(raw).Some? {
      ChallengeAliasesAreShaped(raw);
    } else {
      ServiceAliasesAreShaped(raw);
    }
  }

  lemma NamesAreShaped(raw: string)
    requires CodeNamed(raw).Some?
    ensures KeyShaped(raw)
  {}

  lemma LoginAliasesAreShaped(raw: string)
    requires LoginAlias(raw).Some?
    ensures KeyShaped(raw)
  {}

  lemma ChallengeAliasesAreShaped(raw: string)
    requires ChallengeAlias(raw).Some?
    ensures KeyShaped(raw)
  {}

  lemma ServiceAliasesAreShaped(raw: string)
    requires ServiceAlias(raw).Some?
    ensures KeyShaped(raw)
  {}
}
