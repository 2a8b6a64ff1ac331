/**
 * The Firebase Authentication error table (src/utils/firebaseAuthErrorCodes.js):
 * a total map from an error's `code` to the message and HTTP status that the
 * authentication handlers answer with. A code that no case names falls to the
 * default case, UNKNOWN_ERROR with status 500.
 *
 * The source is one `switch` of 85 cases. Here it is written as the same
 * cases taken in source order in four consecutive runs (CasesA .. CasesD):
 * the first run that names the code answers, exactly as the first matching
 * `case` of the switch does.
 */
module FirebaseAuthErrors {
  import opened Wrappers

  /** The `{ errorMessage, statusCode }` pair the table yields. */
  datatype AuthError = AuthError(errorMessage: string, statusCode: int)

  const UNKNOWN_ERROR := "UNKNOWN_ERROR"

  /** The answer of the `default` case. */
  const DEFAULT_ERROR := AuthError(UNKNOWN_ERROR, 500)

  /** The HTTP statuses that the table uses. */
  predicate IsListedStatus(status: int)
  {
    status in {400, 401, 403, 404, 409, 410, 429, 500, 501, 503}
  }

  /** Every code some case of the switch names. */
  const LISTED_CODES: set<string> := CODES_A + CODES_B + CODES_C + CODES_D

  /** The codes of the cases at lines 6-93. */
  const CODES_A: set<string> := {
    "auth/admin-restricted-operation",
    "auth/argument-error",
    "auth/app-not-authorized",
    "auth/app-not-installed",
    "auth/captcha-check-failed",
    "auth/code-expired",
    "auth/cordova-not-ready",
    "auth/cors-unsupported",
    "auth/credential-already-in-use",
    "auth/custom-token-mismatch",
    "auth/requires-recent-login",
    "auth/dependent-sdk-initialized-before-auth",
    "auth/dynamic-link-not-activated",
    "auth/email-change-needs-verification",
    "auth/email-already-in-use",
    "auth/emulator-config-failed",
    "auth/expired-action-code",
    "auth/cancelled-popup-request",
    "auth/internal-error",
    "auth/invalid-api-key",
    "auth/invalid-app-credential",
    "auth/invalid-app-id"
  }

  /** The cases at lines 6-93, in order; None when none of them matches. */
  function CasesA(code: string): Option<AuthError>
  {
    match code
    case "auth/admin-restricted-operation" => Some(AuthError("ADMIN_ONLY_OPERATION", 403))
    case "auth/argument-error" => Some(AuthError("ARGUMENT_ERROR", 400))
    case "auth/app-not-authorized" => Some(AuthError("APP_NOT_AUTHORIZED", 403))
    case "auth/app-not-installed" => Some(AuthError("APP_NOT_INSTALLED", 403))
    case "auth/captcha-check-failed" => Some(AuthError("CAPTCHA_CHECK_FAILED", 403))
    case "auth/code-expired" => Some(AuthError("CODE_EXPIRED", 400))
    case "auth/cordova-not-ready" => Some(AuthError("CORDOVA_NOT_READY", 500))
    case "auth/cors-unsupported" => Some(AuthError("CORS_UNSUPPORTED", 403))
    case "auth/credential-already-in-use" => Some(AuthError("CREDENTIAL_ALREADY_IN_USE", 409))
    case "auth/custom-token-mismatch" => Some(AuthError("CREDENTIAL_MISMATCH", 403))
    case "auth/requires-recent-login" => Some(AuthError("CREDENTIAL_TOO_OLD_LOGIN_AGAIN", 403))
    case "auth/dependent-sdk-initialized-before-auth" => Some(AuthError("DEPENDENT_SDK_INIT_BEFORE_AUTH", 500))
    case "auth/dynamic-link-not-activated" => Some(AuthError("DYNAMIC_LINK_NOT_ACTIVATED", 403))
    case "auth/email-change-needs-verification" => Some(AuthError("EMAIL_CHANGE_NEEDS_VERIFICATION", 403))
    case "auth/email-already-in-use" => Some(AuthError("EMAIL_EXISTS", 409))
    case "auth/emulator-config-failed" => Some(AuthError("EMULATOR_CONFIG_FAILED", 500))
    case "auth/expired-action-code" => Some(AuthError("EXPIRED_OOB_CODE", 400))
    case "auth/cancelled-popup-request" => Some(AuthError("EXPIRED_POPUP_REQUEST", 400))
    case "auth/internal-error" => Some(AuthError("INTERNAL_ERROR", 500))
    case "auth/invalid-api-key" => Some(AuthError("INVALID_API_KEY", 401))
    case "auth/invalid-app-credential" => Some(AuthError("INVALID_APP_CREDENTIAL", 401))
    case "auth/invalid-app-id" => Some(AuthError("INVALID_APP_ID", 401))
    case _ => None
  }

  /** The codes of the cases at lines 94-181. */
  const CODES_B: set<string> := {
    "auth/invalid-user-token",
    "auth/invalid-auth-event",
    "auth/invalid-cert-hash",
    "auth/invalid-verification-code",
    "auth/invalid-continue-uri",
    "auth/invalid-cordova-configuration",
    "auth/invalid-custom-token",
    "auth/invalid-dynamic-link-domain",
    "auth/invalid-email",
    "auth/invalid-emulator-scheme",
    "auth/invalid-credential",
    "auth/invalid-message-payload",
    "auth/invalid-multi-factor-session",
    "auth/invalid-oauth-client-id",
    "auth/invalid-oauth-provider",
    "auth/invalid-action-code",
    "auth/unauthorized-domain",
    "auth/wrong-password",
    "auth/invalid-persistence-type",
    "auth/invalid-phone-number",
    "auth/invalid-provider-id",
    "auth/invalid-recipient-email"
  }

  /** The cases at lines 94-181, in order; None when none of them matches. */
  function CasesB(code: string): Option<AuthError>
  {
    match code
    case "auth/invalid-user-token" => Some(AuthError("INVALID_AUTH", 401))
    case "auth/invalid-auth-event" => Some(AuthError("INVALID_AUTH_EVENT", 400))
    case "auth/invalid-cert-hash" => Some(AuthError("INVALID_CERT_HASH", 401))
    case "auth/invalid-verification-code" => Some(AuthError("INVALID_CODE", 400))
    case "auth/invalid-continue-uri" => Some(AuthError("INVALID_CONTINUE_URI", 400))
    case "auth/invalid-cordova-configuration" => Some(AuthError("INVALID_CORDOVA_CONFIGURATION", 500))
    case "auth/invalid-custom-token" => Some(AuthError("INVALID_CUSTOM_TOKEN", 400))
    case "auth/invalid-dynamic-link-domain" => Some(AuthError("INVALID_DYNAMIC_LINK_DOMAIN", 403))
    case "auth/invalid-email" => Some(AuthError("INVALID_EMAIL", 400))
    case "auth/invalid-emulator-scheme" => Some(AuthError("INVALID_EMULATOR_SCHEME", 500))
    case "auth/invalid-credential" => Some(AuthError("INVALID_IDP_RESPONSE", 403))
    case "auth/invalid-message-payload" => Some(AuthError("INVALID_MESSAGE_PAYLOAD", 400))
    case "auth/invalid-multi-factor-session" => Some(AuthError("INVALID_MFA_SESSION", 403))
    case "auth/invalid-oauth-client-id" => Some(AuthError("INVALID_OAUTH_CLIENT_ID", 401))
    case "auth/invalid-oauth-provider" => Some(AuthError("INVALID_OAUTH_PROVIDER", 400))
    case "auth/invalid-action-code" => Some(AuthError("INVALID_OOB_CODE", 400))
    case "auth/unauthorized-domain" => Some(AuthError("INVALID_ORIGIN", 403))
    case "auth/wrong-password" => Some(AuthError("INVALID_PASSWORD", 401))
    case "auth/invalid-persistence-type" => Some(AuthError("INVALID_PERSISTENCE", 500))
    case "auth/invalid-phone-number" => Some(AuthError("INVALID_PHONE_NUMBER", 400))
    case "auth/invalid-provider-id" => Some(AuthError("INVALID_PROVIDER_ID", 400))
    case "auth/invalid-recipient-email" => Some(AuthError("INVALID_RECIPIENT_EMAIL", 400))
    case _ => None
  }

  /** The codes of the cases at lines 182-269. */
  const CODES_C: set<string> := {
    "auth/invalid-sender",
    "auth/invalid-verification-id",
    "auth/invalid-tenant-id",
    "auth/multi-factor-info-not-found",
    "auth/multi-factor-auth-required",
    "auth/missing-android-pkg-name",
    "auth/missing-app-credential",
    "auth/auth-domain-config-required",
    "auth/missing-verification-code",
    "auth/missing-continue-uri",
    "auth/missing-iframe-start",
    "auth/missing-ios-bundle-id",
    "auth/missing-or-invalid-nonce",
    "auth/missing-multi-factor-info",
    "auth/missing-multi-factor-session",
    "auth/missing-phone-number",
    "auth/missing-verification-id",
    "auth/app-deleted",
    "auth/account-exists-with-different-credential",
    "auth/network-request-failed",
    "auth/null-user",
    "auth/no-auth-event"
  }

  /** The cases at lines 182-269, in order; None when none of them matches. */
  function CasesC(code: string): Option<AuthError>
  {
    match code
    case "auth/invalid-sender" => Some(AuthError("INVALID_SENDER", 400))
    case "auth/invalid-verification-id" => Some(AuthError("INVALID_SESSION_INFO", 400))
    case "auth/invalid-tenant-id" => Some(AuthError("INVALID_TENANT_ID", 400))
    case "auth/multi-factor-info-not-found" => Some(AuthError("MFA_INFO_NOT_FOUND", 404))
    case "auth/multi-factor-auth-required" => Some(AuthError("MFA_REQUIRED", 403))
    case "auth/missing-android-pkg-name" => Some(AuthError("MISSING_ANDROID_PACKAGE_NAME", 400))
    case "auth/missing-app-credential" => Some(AuthError("MISSING_APP_CREDENTIAL", 401))
    case "auth/auth-domain-config-required" => Some(AuthError("MISSING_AUTH_DOMAIN", 500))
    case "auth/missing-verification-code" => Some(AuthError("MISSING_CODE", 400))
    case "auth/missing-continue-uri" => Some(AuthError("MISSING_CONTINUE_URI", 400))
    case "auth/missing-iframe-start" => Some(AuthError("MISSING_IFRAME_START", 400))
    case "auth/missing-ios-bundle-id" => Some(AuthError("MISSING_IOS_BUNDLE_ID", 400))
    case "auth/missing-or-invalid-nonce" => Some(AuthError("MISSING_OR_INVALID_NONCE", 400))
    case "auth/missing-multi-factor-info" => Some(AuthError("MISSING_MFA_INFO", 400))
    case "auth/missing-multi-factor-session" => Some(AuthError("MISSING_MFA_SESSION", 400))
    case "auth/missing-phone-number" => Some(AuthError("MISSING_PHONE_NUMBER", 400))
    case "auth/missing-verification-id" => Some(AuthError("MISSING_SESSION_INFO", 400))
    case "auth/app-deleted" => Some(AuthError("MODULE_DESTROYED", 410))
    case "auth/account-exists-with-different-credential" => Some(AuthError("NEED_CONFIRMATION", 409))
    case "auth/network-request-failed" => Some(AuthError("NETWORK_REQUEST_FAILED", 503))
    case "auth/null-user" => Some(AuthError("NULL_USER", 500))
    case "auth/no-auth-event" => Some(AuthError("NO_AUTH_EVENT", 400))
    case _ => None
  }

  /** The codes of the cases at lines 270-345. */
  const CODES_D: set<string> := {
    "auth/no-such-provider",
    "auth/operation-not-allowed",
    "auth/operation-not-supported-in-this-environment",
    "auth/popup-blocked",
    "auth/popup-closed-by-user",
    "auth/provider-already-linked",
    "auth/quota-exceeded",
    "auth/redirect-cancelled-by-user",
    "auth/redirect-operation-pending",
    "auth/rejected-credential",
    "auth/second-factor-already-in-use",
    "auth/maximum-second-factor-count-exceeded",
    "auth/tenant-id-mismatch",
    "auth/unauthorized-continue-uri",
    "auth/user-cancelled",
    "auth/user-not-found",
    "auth/user-disabled",
    "auth/user-mismatch",
    "auth/weak-password"
  }

  /** The cases at lines 270-345, in order; None when none of them matches. */
  function CasesD(code: string): Option<AuthError>
  {
    match code
    case "auth/no-such-provider" => Some(AuthError("NO_SUCH_PROVIDER", 400))
    case "auth/operation-not-allowed" => Some(AuthError("OPERATION_NOT_ALLOWED", 403))
    case "auth/operation-not-supported-in-this-environment" => Some(AuthError("OPERATION_NOT_SUPPORTED", 501))
    case "auth/popup-blocked" => Some(AuthError("POPUP_BLOCKED", 403))
    case "auth/popup-closed-by-user" => Some(AuthError("POPUP_CLOSED_BY_USER", 400))
    case "auth/provider-already-linked" => Some(AuthError("PROVIDER_ALREADY_LINKED", 409))
    case "auth/quota-exceeded" => Some(AuthError("QUOTA_EXCEEDED", 429))
    case "auth/redirect-cancelled-by-user" => Some(AuthError("REDIRECT_CANCELLED_BY_USER", 400))
    case "auth/redirect-operation-pending" => Some(AuthError("REDIRECT_OPERATION_PENDING", 400))
    case "auth/rejected-credential" => Some(AuthError("REJECTED_CREDENTIAL", 403))
    case "auth/second-factor-already-in-use" => Some(AuthError("SECOND_FACTOR_ALREADY_ENROLLED", 409))
    case "auth/maximum-second-factor-count-exceeded" => Some(AuthError("SECOND_FACTOR_LIMIT_EXCEEDED", 409))
    case "auth/tenant-id-mismatch" => Some(AuthError("TENANT_ID_MISMATCH", 400))
    case "auth/unauthorized-continue-uri" => Some(AuthError("UNAUTHORIZED_CONTINUE_URI", 403))
    case "auth/user-cancelled" => Some(AuthError("USER_CANCELLED", 400))
    case "auth/user-not-found" => Some(AuthError("USER_NOT_FOUND", 404))
    case "auth/user-disabled" => Some(AuthError("USER_DISABLED", 403))
    case "auth/user-mismatch" => Some(AuthError("USER_MISMATCH", 403))
    case "auth/weak-password" => Some(AuthError("WEAK_PASSWORD", 400))
    case _ => None
  }

  /** The whole switch: the cases in source order, then the default. */
  function ErrorFor(code: string): AuthError
  {
    match CasesA(code)
    case Some(e) => e
    case None =>
      match CasesB(code)
      case Some(e) => e
      case None =>
        match CasesC(code)
        case Some(e) => e
        case None =>
          match CasesD(code)
          case Some(e) => e
          case None => DEFAULT_ERROR
  }

  /** The cases of run A answer exactly the codes they name, never with UNKNOWN_ERROR and always with a listed status. */
  lemma CasesAMeans(code: string)
    ensures CasesA(code).Some? <==> code in CODES_A
    ensures CasesA(code).Some? ==>
      IsListedStatus(CasesA(code).value.statusCode) && CasesA(code).value.errorMessage != UNKNOWN_ERROR
  {
  }

  /** The cases of run B answer exactly the codes they name, never with UNKNOWN_ERROR and always with a listed status. */
  lemma CasesBMeans(code: string)
    ensures CasesB(code).Some? <==> code in CODES_B
    ensures CasesB(code).Some? ==>
      IsListedStatus(CasesB(code).value.statusCode) && CasesB(code).value.errorMessage != UNKNOWN_ERROR
  {
  }

  /** The cases of run C answer exactly the codes they name, never with UNKNOWN_ERROR and always with a listed status. */
  lemma CasesCMeans(code: string)
    ensures CasesC(code).Some? <==> code in CODES_C
    ensures CasesC(code).Some? ==>
      IsListedStatus(CasesC(code).value.statusCode) && CasesC(code).value.errorMessage != UNKNOWN_ERROR
  {
  }

  /** The cases of run D answer exactly the codes they name, never with UNKNOWN_ERROR and always with a listed status. */
  lemma CasesDMeans(code: string)
    ensures CasesD(code).Some? <==> code in CODES_D
    ensures CasesD(code).Some? ==>
      IsListedStatus(CasesD(code).value.statusCode) && CasesD(code).value.errorMessage != UNKNOWN_ERROR
  {
  }

  /**
   * Whatever the code, the status is one of the listed statuses; a code that
   * no case names gets the default answer, and a code that some case names
   * never gets UNKNOWN_ERROR.
   */
  lemma ErrorForMeans(code: string)
    ensures IsListedStatus(ErrorFor(code).statusCode)
    ensures code !in LISTED_CODES ==> ErrorFor(code) == DEFAULT_ERROR
    ensures code in LISTED_CODES ==> ErrorFor(code).errorMessage != UNKNOWN_ERROR
  {
    CasesAMeans(code);
    CasesBMeans(code);
    CasesCMeans(code);
    CasesDMeans(code);
  }

  /** A code that run A is the first to name is answered by run A. */
  lemma ErrorForInA(code: string)
    requires code in CODES_A
    ensures CasesA(code).Some? && ErrorFor(code) == CasesA(code).value
  {
    CasesAMeans(code);
  }

  /** A code that run B is the first to name is answered by run B. */
  lemma ErrorForInB(code: string)
    requires code !in CODES_A && code in CODES_B
    ensures CasesB(code).Some? && ErrorFor(code) == CasesB(code).value
  {
    CasesAMeans(code); CasesBMeans(code);
  }

  /** A code that run C is the first to name is answered by run C. */
  lemma ErrorForInC(code: string)
    requires code !in CODES_A && code !in CODES_B && code in CODES_C
    ensures CasesC(code).Some? && ErrorFor(code) == CasesC(code).value
  {
    CasesAMeans(code); CasesBMeans(code); CasesCMeans(code);
  }

  /** A code that run D is the first to name is answered by run D. */
  lemma ErrorForInD(code: string)
    requires code !in CODES_A && code !in CODES_B && code !in CODES_C && code in CODES_D
    ensures CasesD(code).Some? && ErrorFor(code) == CasesD(code).value
  {
    CasesAMeans(code); CasesBMeans(code); CasesCMeans(code); CasesDMeans(code);
  }

  /** A sign-up with an address that is taken answers 409 EMAIL_EXISTS. */
  lemma EmailAlreadyInUse()
    ensures ErrorFor("auth/email-already-in-use") == AuthError("EMAIL_EXISTS", 409)
  {
    ErrorForInA("auth/email-already-in-use");
  }

  /** A wrong password answers 401 INVALID_PASSWORD. */
  lemma WrongPassword()
    ensures ErrorFor("auth/wrong-password") == AuthError("INVALID_PASSWORD", 401)
  {
    ErrorForInB("auth/wrong-password");
  }

  /** An unknown account answers 404 USER_NOT_FOUND. */
  lemma UserNotFound()
    ensures ErrorFor("auth/user-not-found") == AuthError("USER_NOT_FOUND", 404)
  {
    ErrorForInD("auth/user-not-found");
  }

  /** A deleted app answers 410 Gone. */
  lemma AppDeleted()
    ensures ErrorFor("auth/app-deleted") == AuthError("MODULE_DESTROYED", 410)
  {
    ErrorForInC("auth/app-deleted");
  }

  /** A failed network request answers 503 Service Unavailable. */
  lemma NetworkRequestFailed()
    ensures ErrorFor("auth/network-request-failed") == AuthError("NETWORK_REQUEST_FAILED", 503)
  {
    ErrorForInC("auth/network-request-failed");
  }

  /** An unsupported environment answers 501 Not Implemented. */
  lemma OperationNotSupported()
    ensures ErrorFor("auth/operation-not-supported-in-this-environment") == AuthError("OPERATION_NOT_SUPPORTED", 501)
  {
    ErrorForInD("auth/operation-not-supported-in-this-environment");
  }

  /** An exceeded quota answers 429 Too Many Requests. */
  lemma QuotaExceeded()
    ensures ErrorFor("auth/quota-exceeded") == AuthError("QUOTA_EXCEEDED", 429)
  {
    ErrorForInD("auth/quota-exceeded");
  }
}
