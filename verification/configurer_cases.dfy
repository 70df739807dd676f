/**
 * The configurer's test scenarios, each stated for an arbitrary interpreter
 * path `exe` (the value of `sys.executable`) and proved from the general
 * properties of the translation.
 */
module ConfigurerCases {
  import opened Wrappers
  import opened PyValue
  import opened IntText
  import opened MockConfigurer
  import opened Configurer

  /** The service list the translation should assign for the given cull command line. */
  function ExpectedServices(cmd: seq<string>): Value {
    VList([VMap(map["name" := VStr("cull-idle"), "admin" := VBool(true), "command" := VList(StrList(cmd))])])
  }

  /** Translating `o` on a fresh configurer succeeds, and `c.k.a` then reads `v`. */
  predicate Reads(o: Overrides, exe: string, k: string, a: string, v: Option<Value>) {
    ApplyMockConfig(o, exe).Ok? && Attr(ApplyMockConfig(o, exe).value, k, a) == v
  }

  /** Overrides with a single setting `a.b = v`. */
  function One(a: string, b: string, v: Value): Overrides {
    map[a := VMap(map[b := v])]
  }

  /** The overrides of the authenticator tests: a class name and that class's sub-mapping. */
  function AuthOverrides(cls: string, name: string, sub: map<string, Value>): Overrides {
    map["auth" := VMap(map["type" := VStr(cls), name := VMap(sub)])]
  }

  /** Overrides without cull options translate successfully on a fresh configurer. */
  lemma FreshTranslation(o: Overrides, exe: string)
    requires "services" !in o
    ensures ApplyMockConfig(o, exe).Ok?
    ensures ApplyConfig(o, Empty, exe) == ApplyMockConfig(o, exe)
    ensures CullUsed(o) == DefaultCull
  {
    assert Get(o, "services") == None;
  }

  /** With no overrides there is no memory limit. */
  lemma DefaultMemoryLimitCase(exe: string)
    ensures Reads(map[], exe, "Spawner", "mem_limit", Some(VNull))
  {
    var o: Overrides := map[];
    MemoryLimit(o, Empty, exe, ApplyMockConfig(o, exe).value);
  }

  /** A given memory limit is passed through unchanged. */
  lemma SetMemoryLimitCase(exe: string)
    ensures Reads(One("limits", "memory", VStr("42G")), exe, "Spawner", "mem_limit", Some(VStr("42G")))
  {
    var o := One("limits", "memory", VStr("42G"));
    MemoryLimit(o, Empty, exe, ApplyMockConfig(o, exe).value);
  }

  /** With no overrides `Spawner.default_url` is never set. */
  lemma AppDefaultCase(exe: string)
    ensures Reads(map[], exe, "Spawner", "default_url", None)
  {
    var o: Overrides := map[];
    DefaultUrlUnset(o, Empty, exe, ApplyMockConfig(o, exe).value);
  }

  /** JupyterLab as the default application lands users on `/lab`. */
  lemma AppJupyterlabCase(exe: string)
    ensures Reads(One("user_environment", "default_app", VStr("jupyterlab")), exe, "Spawner", "default_url", Some(VStr("/lab")))
  {
    var o := One("user_environment", "default_app", VStr("jupyterlab"));
    DefaultUrlKnownApp(o, Empty, exe, ApplyMockConfig(o, exe).value);
  }

  /** nteract as the default application lands users on `/nteract`. */
  lemma AppNteractCase(exe: string)
    ensures Reads(One("user_environment", "default_app", VStr("nteract")), exe, "Spawner", "default_url", Some(VStr("/nteract")))
  {
    var o := One("user_environment", "default_app", VStr("nteract"));
    DefaultUrlKnownApp(o, Empty, exe, ApplyMockConfig(o, exe).value);
  }

  /** With no overrides the first-use authenticator is used, and it does not create users. */
  lemma AuthDefaultCase(exe: string)
    ensures Reads(map[], exe, "JupyterHub", "authenticator_class", Some(VStr("firstuseauthenticator.FirstUseAuthenticator")))
    ensures Reads(map[], exe, "FirstUseAuthenticator", "create_users", Some(VBool(false)))
    ensures !Truthy(Attr(ApplyMockConfig(map[], exe).value, "FirstUseAuthenticator", "create_users").value)
  {
    var o: Overrides := map[];
    var ns := ApplyMockConfig(o, exe).value;
    AuthenticatorClass(o, Empty, exe, ns);
    FirstUseCreateUsersDefault(o, Empty, exe, ns);
  }

  /** Settings of a chosen authenticator class, and the class name itself. */
  lemma AuthCase(exe: string, cls: string, name: string, sub: map<string, Value>, key: string)
    requires name !in TranslatorSections && name != "type" && key in sub
    ensures Reads(AuthOverrides(cls, name, sub), exe, "JupyterHub", "authenticator_class", Some(VStr(cls)))
    ensures Reads(AuthOverrides(cls, name, sub), exe, name, key, Some(sub[key]))
  {
    var o := AuthOverrides(cls, name, sub);
    var a := map["type" := VStr(cls), name := VMap(sub)];
    assert Get(o, "auth") == Some(VMap(a));
    assert Lookup2(o, "auth", "type") == Some(VStr(cls));
    assert Lookup2(o, "auth", name) == Some(VMap(sub));
    FreshTranslation(o, exe);
    var ns := ApplyMockConfig(o, exe).value;
    AuthenticatorClass(o, Empty, exe, ns);
    AuthClassSettings(o, Empty, exe, ns, name, sub, key);
  }

  /** The dummy authenticator with a shared password. */
  lemma AuthDummyCase(exe: string)
    ensures var o := AuthOverrides("dummyauthenticator.DummyAuthenticator", "DummyAuthenticator", map["password" := VStr("test")]);
            && Reads(o, exe, "JupyterHub", "authenticator_class", Some(VStr("dummyauthenticator.DummyAuthenticator")))
            && Reads(o, exe, "DummyAuthenticator", "password", Some(VStr("test")))
  {
    AuthCase(exe, "dummyauthenticator.DummyAuthenticator", "DummyAuthenticator", map["password" := VStr("test")], "password");
  }

  /** The first-use authenticator told to create users: the given value overrides the built-in one. */
  lemma AuthFirstuseCase(exe: string)
    ensures var o := AuthOverrides(DefaultAuthenticatorClass, "FirstUseAuthenticator", map["create_users" := VBool(true)]);
            && Reads(o, exe, "JupyterHub", "authenticator_class", Some(VStr("firstuseauthenticator.FirstUseAuthenticator")))
            && Reads(o, exe, "FirstUseAuthenticator", "create_users", Some(VBool(true)))
  {
    AuthCase(exe, DefaultAuthenticatorClass, "FirstUseAuthenticator", map["create_users" := VBool(true)], "create_users");
  }

  /** The GitHub authenticator with its client id and secret. */
  lemma AuthGithubCase(exe: string)
    ensures var sub := map["client_id" := VStr("something"), "client_secret" := VStr("something-else")];
            var o := AuthOverrides("oauthenticator.github.GitHubOAuthenticator", "GitHubOAuthenticator", sub);
            && Reads(o, exe, "JupyterHub", "authenticator_class", Some(VStr("oauthenticator.github.GitHubOAuthenticator")))
            && Reads(o, exe, "GitHubOAuthenticator", "client_id", Some(VStr("something")))
            && Reads(o, exe, "GitHubOAuthenticator", "client_secret", Some(VStr("something-else")))
  {
    var sub := map["client_id" := VStr("something"), "client_secret" := VStr("something-else")];
    AuthCase(exe, "oauthenticator.github.GitHubOAuthenticator", "GitHubOAuthenticator", sub, "client_id");
    AuthCase(exe, "oauthenticator.github.GitHubOAuthenticator", "GitHubOAuthenticator", sub, "client_secret");
  }

  /** The native authenticator with open sign-up. */
  lemma AuthNativeCase(exe: string)
    ensures var o := AuthOverrides("nativeauthenticator.NativeAuthenticator", "NativeAuthenticator", map["open_signup" := VBool(true)]);
            && Reads(o, exe, "JupyterHub", "authenticator_class", Some(VStr("nativeauthenticator.NativeAuthenticator")))
            && Reads(o, exe, "NativeAuthenticator", "open_signup", Some(VBool(true)))
  {
    AuthCase(exe, "nativeauthenticator.NativeAuthenticator", "NativeAuthenticator", map["open_signup" := VBool(true)], "open_signup");
  }

  /** With no overrides the proxy API user is `api_admin` with an empty password. */
  lemma TraefikApiDefaultCase(exe: string)
    ensures Reads(map[], exe, "TraefikTomlProxy", "traefik_api_username", Some(VStr("api_admin")))
    ensures Reads(map[], exe, "TraefikTomlProxy", "traefik_api_password", Some(VStr("")))
  {
    var o: Overrides := map[];
    var ns := ApplyMockConfig(o, exe).value;
    TraefikApiUsername(o, Empty, exe, ns);
    TraefikApiPassword(o, Empty, exe, ns);
  }

  /** Given proxy API credentials are passed through. */
  lemma SetTraefikApiCase(exe: string)
    ensures var o := map["traefik_api" := VMap(map["username" := VStr("some_user"), "password" := VStr("1234")])];
            && Reads(o, exe, "TraefikTomlProxy", "traefik_api_username", Some(VStr("some_user")))
            && Reads(o, exe, "TraefikTomlProxy", "traefik_api_password", Some(VStr("1234")))
  {
    var t := map["username" := VStr("some_user"), "password" := VStr("1234")];
    var o := map["traefik_api" := VMap(t)];
    assert Get(o, "traefik_api") == Some(VMap(t));
    assert Setting(o, "traefik_api", "username", VStr(DefaultApiUsername)) == VStr("some_user");
    assert Setting(o, "traefik_api", "password", VStr(DefaultApiPassword)) == VStr("1234");
    FreshTranslation(o, exe);
    var ns := ApplyMockConfig(o, exe).value;
    TraefikApiUsername(o, Empty, exe, ns);
    TraefikApiPassword(o, Empty, exe, ns);
  }

  /** The decimal renderings the cull tests rely on. */
  lemma CullNumbers()
    ensures IntToString(0) == "0" && IntToString(5) == "5"
    ensures IntToString(10) == "10" && IntToString(60) == "60" && IntToString(600) == "600"
  {
    assert NatToString(6) == "6" && NatToString(1) == "1";
    assert NatToString(60) == "60";
  }

  /** The flags of the cull tests, written out. */
  lemma CullFlags()
    ensures Flag("timeout", 600) == "--timeout=600"
    ensures Flag("cull-every", 60) == "--cull-every=60" && Flag("cull-every", 10) == "--cull-every=10"
    ensures Flag("concurrency", 5) == "--concurrency=5"
    ensures Flag("max-age", 0) == "--max-age=0" && Flag("max-age", 60) == "--max-age=60"
  {
    CullNumbers();
  }

  /** With no overrides the cull service runs with the default options and does not cull users. */
  lemma CullServiceDefaultCase(exe: string)
    ensures Reads(map[], exe, "JupyterHub", "services", Some(ExpectedServices(
              [exe, "/srv/src/tljh/cull_idle_servers.py",
               "--timeout=600", "--cull-every=60", "--concurrency=5", "--max-age=0"])))
  {
    var o: Overrides := map[];
    CullFlags();
    FreshTranslation(o, exe);
    assert CullCommand(exe, DefaultCull)
           == [exe, "/srv/src/tljh/cull_idle_servers.py",
               "--timeout=600", "--cull-every=60", "--concurrency=5", "--max-age=0"];
    CullServiceAssigned(o, Empty, exe, ApplyMockConfig(o, exe).value);
  }

  /** Given cull options replace the defaults, and truthy `users` adds `--cull-users`. */
  lemma SetCullServiceCase(exe: string)
    ensures var o := map["services" := VMap(map["cull" := VMap(map["every" := VInt(10), "users" := VBool(true), "max_age" := VInt(60)])])];
            Reads(o, exe, "JupyterHub", "services", Some(ExpectedServices(
              [exe, "/srv/src/tljh/cull_idle_servers.py",
               "--timeout=600", "--cull-every=10", "--concurrency=5", "--max-age=60", "--cull-users"])))
  {
    var cull := map["every" := VInt(10), "users" := VBool(true), "max_age" := VInt(60)];
    var o := map["services" := VMap(map["cull" := VMap(cull)])];
    CullFlags();
    assert Lookup2(o, "services", "cull") == Some(VMap(cull));
    assert Lookup3(o, "services", "cull", "timeout") == None;
    assert Lookup3(o, "services", "cull", "concurrency") == None;
    assert Lookup3(o, "services", "cull", "every") == Some(VInt(10));
    assert Lookup3(o, "services", "cull", "max_age") == Some(VInt(60));
    assert Lookup3(o, "services", "cull", "users") == Some(VBool(true));
    assert CullUsed(o) == CullConfig(600, 10, 5, 60, true);
    assert CullCommand(exe, CullUsed(o))
           == [exe, "/srv/src/tljh/cull_idle_servers.py",
               "--timeout=600", "--cull-every=10", "--concurrency=5", "--max-age=60", "--cull-users"];
    CullServiceAssigned(o, Empty, exe, ApplyMockConfig(o, exe).value);
  }

  /** The scenario of the mock configurer's doctest: a two-level assignment and an absent attribute. */
  lemma MockConfigurerDoctest()
    ensures var c := SetAttr(Empty, "FirstLevel", "second_level", VStr("hi"));
            && c.Ok?
            && Attr(c.value, "FirstLevel", "second_level") == Some(VStr("hi"))
            && Attr(c.value, "FirstLevel", "does_not_exist") == None
  {
    SetThenRead(Empty, "FirstLevel", "second_level", VStr("hi"));
    assert "does_not_exist" != "second_level";
  }
}
