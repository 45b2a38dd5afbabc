/** `PlatformUtil.resolvePlatform`: the connection to a source or target
    tenant. For the microservice's own platform (`LOCAL_PLATFORM_URL`) the
    credentials come from the `C8Y.tenant`, `C8Y.user` and `C8Y.password`
    settings and a login string must not be given; any other host uses the
    login string it is given, "tenant/user:password". */
module PlatformUtil {
  import opened Wrappers
  import opened Records
  import opened JavaString

  const LOCAL_PLATFORM_URL: string := "http://cumulocity:8111"

  /** The messages of the two `IllegalArgumentException`s. */
  const LOGIN_STRING_GIVEN: string :=
    "When platfrom host is LOCAL_PLATFORM_URL, platformLoginString must be null; LOCAL_PLATFORM_URL: http://cumulocity:8111"
  const SETTINGS_MISSING: string :=
    "When platfrom host is LOCAL_PLATFORM_URL, all of these must be defined : C8Y_TENANT, C8Y_USER, C8Y_PASSWORD"

  /** The three settings read for the local platform (empty when unset). */
  datatype LocalSettings = LocalSettings(c8yTenant: Option<string>, c8yUser: Option<string>, c8yPassword: Option<string>)

  /** The login string composed for the local platform. */
  function LoginString(tenant: string, user: string, password: string): (s: string)
    ensures |s| == |tenant| + |user| + |password| + 2
    ensures s[|tenant|] == '/' && s[|tenant| + 1 + |user|] == ':'
  {
    tenant + "/" + user + ":" + password
  }

  /** Reading a login string back: the tenant up to the first '/', the user
      up to the next ':', the password the rest. */
  function ParseLogin(s: string): (string, string, string)
  {
    var t := IndexOf(s, '/');
    if t == |s| then ("", "", s)
    else
      var rest := s[t + 1..];
      var u := IndexOf(rest, ':');
      if u == |rest| then (s[..t], "", rest)
      else (s[..t], rest[..u], rest[u + 1..])
  }

  /** The composed login string carries the three settings, and they can be
      read back as long as the tenant has no '/' and the user no ':'. */
  lemma LoginStringRoundTrip(tenant: string, user: string, password: string)
    requires '/' !in tenant && ':' !in user
    ensures ParseLogin(LoginString(tenant, user, password)) == (tenant, user, password)
  {
    var s := LoginString(tenant, user, password);
    assert s == tenant + ['/'] + (user + ":" + password);
    IndexOfPrefix(tenant, '/', user + ":" + password);
    var rest := s[|tenant| + 1..];
    assert rest == user + [':'] + password;
    IndexOfPrefix(user, ':', password);
    assert s[..|tenant|] == tenant;
    assert rest[..|user|] == user;
    assert rest[|user| + 1..] == password;
  }

  /** `resolvePlatform(host, loginString)`. */
  function ResolvePlatform(settings: LocalSettings, platformHost: string, platformLoginString: Option<string>): (r: Result<Platform>)
    ensures r.Ok? ==> r.value.host == platformHost
    ensures platformHost != LOCAL_PLATFORM_URL ==> r == Ok(Platform(platformHost, platformLoginString))
    ensures platformHost == LOCAL_PLATFORM_URL ==>
      (r.Ok? <==> IsBlank(platformLoginString) && !IsBlank(settings.c8yTenant)
                   && !IsBlank(settings.c8yUser) && !IsBlank(settings.c8yPassword))
    ensures platformHost == LOCAL_PLATFORM_URL && !IsBlank(platformLoginString) ==> r == Err(LOGIN_STRING_GIVEN)
    ensures platformHost == LOCAL_PLATFORM_URL && r.Ok? ==>
      r.value.credentials == Some(LoginString(settings.c8yTenant.value, settings.c8yUser.value, settings.c8yPassword.value))
  {
    if platformHost == LOCAL_PLATFORM_URL then
      if !IsBlank(platformLoginString) then
        Err(LOGIN_STRING_GIVEN)
      else if IsBlank(settings.c8yTenant) || IsBlank(settings.c8yUser) || IsBlank(settings.c8yPassword) then
        Err(SETTINGS_MISSING)
      else
        Ok(Platform(platformHost, Some(LoginString(settings.c8yTenant.value, settings.c8yUser.value, settings.c8yPassword.value))))
    else
      Ok(Platform(platformHost, platformLoginString))
  }
}
