/**
 * Registry credentials as JavaScript sees them: a flat record with a
 * discriminator and three optional strings, checked and turned into the
 * native three-way credential type.
 */
module Auth {
  import opened Wrappers
  import Oci

  datatype RegistryAuthType = Anonymous | Basic | Bearer

  datatype RegistryAuth = RegistryAuth(
    authType: RegistryAuthType,
    username: Option<string>,
    password: Option<string>,
    token: Option<string>)

  const USERNAME_REQUIRED := "username required for Basic auth"
  const PASSWORD_REQUIRED := "password required for Basic auth"
  const TOKEN_REQUIRED := "token required for Bearer auth"

  /** Every field the chosen variant needs is present (empty strings are fine). */
  predicate HasRequiredFields(a: RegistryAuth) {
    match a.authType
    case Anonymous => true
    case Basic => a.username.Some? && a.password.Some?
    case Bearer => a.token.Some?
  }

  /** The discriminator that names a native credential's variant. */
  function KindOf(n: Oci.NativeRegistryAuth): RegistryAuthType {
    match n
    case Anonymous => Anonymous
    case Basic(_, _) => Basic
    case Bearer(_) => Bearer
  }

  /**
   * `RegistryAuth::to_native`. For Basic the username is checked before the
   * password, so a record missing both reports the username.
   */
  function ToNative(a: RegistryAuth): (r: Result<Oci.NativeRegistryAuth, string>)
    ensures r.Ok? <==> HasRequiredFields(a)
    ensures r.Ok? ==> KindOf(r.value) == a.authType
    ensures r.Ok? && r.value.Basic? ==> r.value.username == a.username.value && r.value.password == a.password.value
    ensures r.Ok? && r.value.Bearer? ==> r.value.token == a.token.value
    ensures a.authType == Basic && a.username.None? ==> r == Err(USERNAME_REQUIRED)
    ensures a.authType == Basic && a.username.Some? && a.password.None? ==> r == Err(PASSWORD_REQUIRED)
    ensures a.authType == Bearer && a.token.None? ==> r == Err(TOKEN_REQUIRED)
  {
    match a.authType
    case Anonymous => Ok(Oci.Anonymous)
    case Basic =>
      if a.username.None? then Err(USERNAME_REQUIRED)
      else if a.password.None? then Err(PASSWORD_REQUIRED)
      else Ok(Oci.Basic(a.username.value, a.password.value))
    case Bearer =>
      if a.token.None? then Err(TOKEN_REQUIRED)
      else Ok(Oci.Bearer(a.token.value))
  }

  /** `anonymous_auth()`. */
  function AnonymousAuth(): (a: RegistryAuth)
    ensures ToNative(a) == Ok(Oci.Anonymous)
    ensures a.username.None? && a.password.None? && a.token.None?
  {
    RegistryAuth(Anonymous, None, None, None)
  }

  /** `basic_auth(username, password)`. */
  function BasicAuth(username: string, password: string): (a: RegistryAuth)
    ensures ToNative(a) == Ok(Oci.Basic(username, password))
    ensures a.token.None?
  {
    RegistryAuth(Basic, Some(username), Some(password), None)
  }

  /** `bearer_auth(token)`. */
  function BearerAuth(token: string): (a: RegistryAuth)
    ensures ToNative(a) == Ok(Oci.Bearer(token))
    ensures a.username.None? && a.password.None?
  {
    RegistryAuth(Bearer, None, None, Some(token))
  }

  /** The record the matching helper constructor builds for a native credential. */
  function HelperRecord(n: Oci.NativeRegistryAuth): RegistryAuth {
    match n
    case Anonymous => AnonymousAuth()
    case Basic(u, p) => BasicAuth(u, p)
    case Bearer(t) => BearerAuth(t)
  }

  /** `a` with every field its variant does not read set to None. */
  function Relevant(a: RegistryAuth): RegistryAuth {
    match a.authType
    case Anonymous => RegistryAuth(Anonymous, None, None, None)
    case Basic => RegistryAuth(Basic, a.username, a.password, None)
    case Bearer => RegistryAuth(Bearer, None, None, a.token)
  }

  /** The conversion reads only the fields of the chosen variant. */
  lemma ToNativeIgnoresUnusedFields(a: RegistryAuth)
    ensures ToNative(a) == ToNative(Relevant(a))
  {
  }

  /** Every native credential is reached, by the record its helper builds. */
  lemma HelpersReachEveryCredential(n: Oci.NativeRegistryAuth)
    ensures ToNative(HelperRecord(n)) == Ok(n)
  {
  }

  /**
   * Up to the fields it ignores, a record that converts is exactly the one the
   * helper for its result builds.
   */
  lemma ConvertibleRecordsAreHelperRecords(a: RegistryAuth, n: Oci.NativeRegistryAuth)
    requires ToNative(a) == Ok(n)
    ensures Relevant(a) == HelperRecord(n)
  {
  }

  /**
   * Empty strings are not rejected: only an absent field is. This is an
   * instance of the contracts of `BasicAuth` and `BearerAuth`, which hold for
   * every string.
   */
  lemma EmptyCredentialsAccepted()
    ensures ToNative(BasicAuth("", "")) == Ok(Oci.Basic("", ""))
    ensures ToNative(BearerAuth("")) == Ok(Oci.Bearer(""))
  {
  }
}
