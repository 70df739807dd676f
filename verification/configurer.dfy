/**
 * A reference model of the configurer's translation `apply_config(overrides, c)`:
 * a nested mapping of user-facing overrides becomes two-level assignments on
 * the namespace `c`, with the documented defaults filled in for every absent
 * setting.
 *
 * The translation is split into a pure part, `ConfigPatch`, which decides every
 * assignment from the overrides alone (the translator never reads what `c`
 * already holds), and `ApplyPatch`, which performs the assignments.
 */
module Configurer {
  import opened Wrappers
  import opened PyValue
  import opened IntText
  import opened MockConfigurer

  /** The parsed settings file: recognised top-level keys mapped to nested values. */
  type Overrides = map<string, Value>

  const DefaultAuthenticatorClass: string := "firstuseauthenticator.FirstUseAuthenticator"
  const DefaultApiUsername: string := "api_admin"
  const DefaultApiPassword: string := ""
  const CullScript: string := "/srv/src/tljh/cull_idle_servers.py"
  const CullServiceName: string := "cull-idle"
  const CullUsersFlag: string := "--cull-users"

  /** Built-in authenticator settings: the first-use authenticator does not create users on its own. */
  const DefaultAuthSections: Patch := map["FirstUseAuthenticator" := map["create_users" := VBool(false)]]

  /** The objects the translator itself assigns attributes on. */
  const TranslatorSections: set<string> := {"Spawner", "JupyterHub", "TraefikTomlProxy"}

  /** The setting `section.key` of the overrides, or `default` when it is not given. */
  function Setting(o: Overrides, section: string, key: string, default: Value): Value {
    Lookup2(o, section, key).GetOr(default)
  }

  /** Options of the idle-culling service, after defaults are filled in. */
  datatype CullConfig = CullConfig(timeout: int, every: int, concurrency: int, maxAge: int, users: bool)

  const DefaultCull: CullConfig := CullConfig(600, 60, 5, 0, false)

  /** The integer option `services.cull.key`, or `default`; fails when the option is not an integer. */
  function CullOption(o: Overrides, key: string, default: int): (r: Result<int, Error>)
    ensures Lookup3(o, "services", "cull", key).None? ==> r == Ok(default)
    ensures Lookup3(o, "services", "cull", key).Some? ==>
              (r.Ok? <==> AsInt(Lookup3(o, "services", "cull", key).value).Some?)
    ensures r.Ok? && Lookup3(o, "services", "cull", key).Some? ==>
              Some(r.value) == AsInt(Lookup3(o, "services", "cull", key).value)
    ensures r.Err? ==> r.error == NotAnInteger(key)
  {
    match AsInt(Lookup3(o, "services", "cull", key).GetOr(VInt(default)))
    case Some(n) => Ok(n)
    case None => Err(NotAnInteger(key))
  }

  /** All cull options; `users` is on when the given value is truthy. */
  function CullSettings(o: Overrides): (r: Result<CullConfig, Error>)
    ensures Lookup2(o, "services", "cull").None? ==> r == Ok(DefaultCull)
    ensures r.Ok? <==> (CullOption(o, "timeout", 600).Ok? && CullOption(o, "every", 60).Ok?
                        && CullOption(o, "concurrency", 5).Ok? && CullOption(o, "max_age", 0).Ok?)
    ensures r.Ok? ==> (r.value.users <==> Lookup3(o, "services", "cull", "users").Some?
                                          && Truthy(Lookup3(o, "services", "cull", "users").value))
  {
    var timeout :- CullOption(o, "timeout", 600);
    var every :- CullOption(o, "every", 60);
    var concurrency :- CullOption(o, "concurrency", 5);
    var maxAge :- CullOption(o, "max_age", 0);
    var users := Truthy(Lookup3(o, "services", "cull", "users").GetOr(VBool(false)));
    Ok(CullConfig(timeout, every, concurrency, maxAge, users))
  }

  /** A command-line flag `--name=n`, with `n` rendered as `%d` renders it. */
  function Flag(name: string, n: int): string {
    "--" + name + "=" + IntToString(n)
  }

  /** The command line that starts the idle-culling script with the given options. */
  function CullCommand(exe: string, cfg: CullConfig): (cmd: seq<string>)
    ensures |cmd| == if cfg.users then 7 else 6
    ensures cmd[0] == exe && cmd[1] == CullScript
    ensures cfg.users ==> cmd[6] == CullUsersFlag
  {
    [exe, CullScript,
     Flag("timeout", cfg.timeout), Flag("cull-every", cfg.every),
     Flag("concurrency", cfg.concurrency), Flag("max-age", cfg.maxAge)]
    + (if cfg.users then [CullUsersFlag] else [])
  }

  /** Reads the value of a `--name=n` flag. */
  function ParseFlag(name: string, s: string): Option<int> {
    var prefix := "--" + name + "=";
    if |prefix| <= |s| && s[..|prefix|] == prefix then ParseInt(s[|prefix|..]) else None
  }

  /** Recovers the interpreter and the options from a cull command line. */
  function ParseCullCommand(cmd: seq<string>): Option<(string, CullConfig)> {
    if !(|cmd| == 6 || (|cmd| == 7 && cmd[6] == CullUsersFlag)) || cmd[1] != CullScript then
      None
    else
      var timeout :- ParseFlag("timeout", cmd[2]);
      var every :- ParseFlag("cull-every", cmd[3]);
      var concurrency :- ParseFlag("concurrency", cmd[4]);
      var maxAge :- ParseFlag("max-age", cmd[5]);
      Some((cmd[0], CullConfig(timeout, every, concurrency, maxAge, |cmd| == 7)))
  }

  lemma FlagRoundTrip(name: string, n: int)
    ensures ParseFlag(name, Flag(name, n)) == Some(n)
  {
    var prefix := "--" + name + "=";
    var s := Flag(name, n);
    assert s == prefix + IntToString(n);
    assert s[..|prefix|] == prefix;
    assert s[|prefix|..] == IntToString(n);
    IntToStringRoundTrip(n);
  }

  /** The cull command line determines the interpreter and every option it was built from. */
  lemma CullCommandRoundTrip(exe: string, cfg: CullConfig)
    ensures ParseCullCommand(CullCommand(exe, cfg)) == Some((exe, cfg))
  {
    FlagRoundTrip("timeout", cfg.timeout);
    FlagRoundTrip("cull-every", cfg.every);
    FlagRoundTrip("concurrency", cfg.concurrency);
    FlagRoundTrip("max-age", cfg.maxAge);
  }

  /** Different options (or interpreters) never produce the same command line. */
  lemma CullCommandInjective(exe: string, cfg: CullConfig, exe': string, cfg': CullConfig)
    requires CullCommand(exe, cfg) == CullCommand(exe', cfg')
    ensures exe == exe' && cfg == cfg'
  {
    CullCommandRoundTrip(exe, cfg);
    CullCommandRoundTrip(exe', cfg');
  }

  /** The value a cull option takes: the given integer, or the default when the option is absent. */
  function CullValue(o: Overrides, key: string, default: int): int {
    match Lookup3(o, "services", "cull", key)
    case None => default
    case Some(v) => AsInt(v).GetOr(default)
  }

  /**
   * Each flag of the cull command line carries the given option, or its default
   * when the option is absent; `--cull-users` is present exactly when `users` is truthy.
   */
  lemma CullFlagsFollowOptions(o: Overrides, exe: string)
    requires CullSettings(o).Ok?
    ensures var cmd := CullCommand(exe, CullUsed(o));
            && cmd[2] == Flag("timeout", CullValue(o, "timeout", 600))
            && cmd[3] == Flag("cull-every", CullValue(o, "every", 60))
            && cmd[4] == Flag("concurrency", CullValue(o, "concurrency", 5))
            && cmd[5] == Flag("max-age", CullValue(o, "max_age", 0))
            && (|cmd| == 7 <==> Lookup3(o, "services", "cull", "users").Some?
                                 && Truthy(Lookup3(o, "services", "cull", "users").value))
  {
  }

  /** A list of strings as a configuration value. */
  function StrList(ss: seq<string>): (r: seq<Value>)
    ensures |r| == |ss|
    ensures forall i :: 0 <= i < |ss| ==> r[i] == VStr(ss[i])
  {
    seq(|ss|, i requires 0 <= i < |ss| => VStr(ss[i]))
  }

  /** The service descriptor of the idle-culling service. */
  function CullService(cmd: seq<string>): Value {
    VMap(map["name" := VStr(CullServiceName), "admin" := VBool(true), "command" := VList(StrList(cmd))])
  }

  /** The URL a user lands on for the chosen default application; none for any other choice. */
  function AppUrl(app: Option<Value>): (r: Option<string>)
    ensures app == Some(VStr("jupyterlab")) ==> r == Some("/lab")
    ensures app == Some(VStr("nteract")) ==> r == Some("/nteract")
    ensures r.Some? <==> app in {Some(VStr("jupyterlab")), Some(VStr("nteract"))}
  {
    if app == Some(VStr("jupyterlab")) then Some("/lab")
    else if app == Some(VStr("nteract")) then Some("/nteract")
    else None
  }

  /** Every sub-mapping of `auth` given in the overrides, by class name, and nothing else. */
  function GivenAuthSections(o: Overrides): (g: Patch)
    ensures forall n :: n in g <==> Lookup2(o, "auth", n).Some? && Lookup2(o, "auth", n).value.VMap?
    ensures forall n :: n in g ==> g[n] == Lookup2(o, "auth", n).value.entries
  {
    match Get(o, "auth")
    case Some(VMap(a)) => map n | n in a && a[n].VMap? :: a[n].entries
    case _ => map[]
  }

  /** Authenticator class sections: the built-in defaults overlaid by the given sub-mappings. */
  function AuthSections(o: Overrides): Patch {
    PatchUnion(DefaultAuthSections, GivenAuthSections(o))
  }

  /** The assignments on `Spawner`: the memory limit always, the default URL only for a known application. */
  function SpawnerSection(o: Overrides): (s: Section)
    ensures s.Keys == {"mem_limit"} + (if AppUrl(Lookup2(o, "user_environment", "default_app")).Some? then {"default_url"} else {})
    ensures s["mem_limit"] == Setting(o, "limits", "memory", VNull)
    ensures "default_url" in s ==> s["default_url"] == VStr(AppUrl(Lookup2(o, "user_environment", "default_app")).value)
  {
    var app := AppUrl(Lookup2(o, "user_environment", "default_app"));
    var limit := map["mem_limit" := Setting(o, "limits", "memory", VNull)];
    if app.Some? then limit["default_url" := VStr(app.value)] else limit
  }

  /** The assignments of the translator's own objects. */
  function TranslatorPatch(o: Overrides, cmd: seq<string>): (p: Patch)
    ensures p.Keys == TranslatorSections
  {
    map[
      "Spawner" := SpawnerSection(o),
      "JupyterHub" := map[
        "authenticator_class" := Setting(o, "auth", "type", VStr(DefaultAuthenticatorClass)),
        "services" := VList([CullService(cmd)])],
      "TraefikTomlProxy" := map[
        "traefik_api_username" := Setting(o, "traefik_api", "username", VStr(DefaultApiUsername)),
        "traefik_api_password" := Setting(o, "traefik_api", "password", VStr(DefaultApiPassword))]
    ]
  }

  /** Every top-level name the translation assigns attributes on. */
  function Assigned(o: Overrides): set<string> {
    TranslatorSections + AuthSections(o).Keys
  }

  /** Every assignment the overrides call for; the translator's own objects win over class sections. */
  function ConfigPatch(o: Overrides, exe: string): (r: Result<Patch, Error>)
    ensures r.Ok? <==> CullSettings(o).Ok?
    ensures r.Ok? ==> r.value.Keys == Assigned(o)
  {
    match CullSettings(o)
    case Err(e) => Err(e)
    case Ok(cfg) =>
      var t := TranslatorPatch(o, CullCommand(exe, cfg));
      Ok(PatchUnion(AuthSections(o), t))
  }

  /**
   * `apply_config(overrides, c)`. Fails when a cull option is not an integer, or
   * when `c` holds a plain value under a name the translation assigns into;
   * otherwise every other top-level name of `c` is left as it was.
   */
  function ApplyConfig(o: Overrides, c: Namespace, exe: string): (r: Result<Namespace, Error>)
    ensures r.Ok? <==> CullSettings(o).Ok? && forall k :: k in Assigned(o) && k in c ==> c[k].Obj?
    ensures r.Ok? ==> r.value.Keys == c.Keys + Assigned(o)
    ensures r.Ok? ==> forall k :: k in c && k !in Assigned(o) ==> r.value[k] == c[k]
  {
    var p :- ConfigPatch(o, exe);
    ApplyPatch(c, p)
  }

  /** `apply_mock_config(overrides)`: the translation applied to a fresh configurer. */
  function ApplyMockConfig(o: Overrides, exe: string): (r: Result<Namespace, Error>)
    ensures r.Ok? <==> CullSettings(o).Ok?
  {
    ApplyConfig(o, Empty, exe)
  }

  /** The cull options a successful translation used. */
  function CullUsed(o: Overrides): CullConfig
    requires CullSettings(o).Ok?
  {
    CullSettings(o).value
  }

  /** The translator's own assignments, for overrides whose cull options are integers. */
  function OwnPatch(o: Overrides, exe: string): Patch
    requires CullSettings(o).Ok?
  {
    TranslatorPatch(o, CullCommand(exe, CullUsed(o)))
  }

  /** Each of the translator's own assignments is what the namespace holds afterwards. */
  lemma ReadsOwnPatch(o: Overrides, c: Namespace, exe: string, ns: Namespace, k: string, a: string)
    requires ApplyConfig(o, c, exe) == Ok(ns)
    requires k in OwnPatch(o, exe) && a in OwnPatch(o, exe)[k]
    ensures Attr(ns, k, a) == Some(OwnPatch(o, exe)[k][a])
  {
    var p := ConfigPatch(o, exe).value;
    assert p == PatchUnion(AuthSections(o), OwnPatch(o, exe));
    ApplyPatchReads(c, p, k, a);
  }

  /** Each class-section assignment no own assignment overrides is what the namespace holds afterwards. */
  lemma ReadsAuthSection(o: Overrides, c: Namespace, exe: string, ns: Namespace, k: string, a: string)
    requires ApplyConfig(o, c, exe) == Ok(ns)
    requires k in AuthSections(o) && a in AuthSections(o)[k] && k !in TranslatorSections
    ensures Attr(ns, k, a) == Some(AuthSections(o)[k][a])
  {
    var p := ConfigPatch(o, exe).value;
    assert p == PatchUnion(AuthSections(o), OwnPatch(o, exe));
    assert p[k] == AuthSections(o)[k] + map[];
    ApplyPatchReads(c, p, k, a);
  }

  /** An attribute the translation does not assign keeps the value it had in `c`. */
  lemma ReadsUnassigned(o: Overrides, c: Namespace, exe: string, ns: Namespace, k: string, a: string)
    requires ApplyConfig(o, c, exe) == Ok(ns)
    requires a !in SectionOf(AuthSections(o), k) && a !in SectionOf(OwnPatch(o, exe), k)
    ensures Attr(ns, k, a) == Attr(c, k, a)
  {
    var p := ConfigPatch(o, exe).value;
    assert p == PatchUnion(AuthSections(o), OwnPatch(o, exe));
    ApplyPatchReads(c, p, k, a);
  }

  /** A key of a given class section is a key path of the overrides. */
  lemma GivenAuthKey(o: Overrides, n: string, key: string)
    requires n in GivenAuthSections(o) && key in GivenAuthSections(o)[n]
    ensures Lookup3(o, "auth", n, key) == Some(GivenAuthSections(o)[n][key])
  {
  }

  /** The translator's own assignments, object by object. */
  lemma OwnPatchValues(o: Overrides, exe: string)
    requires CullSettings(o).Ok?
    ensures OwnPatch(o, exe).Keys == TranslatorSections
    ensures OwnPatch(o, exe)["Spawner"] == SpawnerSection(o)
    ensures OwnPatch(o, exe)["JupyterHub"] == map[
              "authenticator_class" := Setting(o, "auth", "type", VStr(DefaultAuthenticatorClass)),
              "services" := VList([CullService(CullCommand(exe, CullUsed(o)))])]
    ensures OwnPatch(o, exe)["TraefikTomlProxy"] == map[
              "traefik_api_username" := Setting(o, "traefik_api", "username", VStr(DefaultApiUsername)),
              "traefik_api_password" := Setting(o, "traefik_api", "password", VStr(DefaultApiPassword))]
  {
  }

  /** The translator's own settings that do not depend on the cull options, attribute by attribute. */
  lemma OwnPatchSettings(o: Overrides, exe: string)
    requires CullSettings(o).Ok?
    ensures "mem_limit" in OwnPatch(o, exe)["Spawner"]
    ensures OwnPatch(o, exe)["Spawner"]["mem_limit"] == Setting(o, "limits", "memory", VNull)
    ensures "authenticator_class" in OwnPatch(o, exe)["JupyterHub"]
    ensures OwnPatch(o, exe)["JupyterHub"]["authenticator_class"]
            == Setting(o, "auth", "type", VStr(DefaultAuthenticatorClass))
    ensures "traefik_api_username" in OwnPatch(o, exe)["TraefikTomlProxy"]
    ensures OwnPatch(o, exe)["TraefikTomlProxy"]["traefik_api_username"]
            == Setting(o, "traefik_api", "username", VStr(DefaultApiUsername))
    ensures "traefik_api_password" in OwnPatch(o, exe)["TraefikTomlProxy"]
    ensures OwnPatch(o, exe)["TraefikTomlProxy"]["traefik_api_password"]
            == Setting(o, "traefik_api", "password", VStr(DefaultApiPassword))
  {
  }

  /** The class sections: built-in defaults overlaid, key by key, by the given sub-mappings. */
  lemma AuthSectionsAt(o: Overrides, n: string)
    ensures n in AuthSections(o) <==> n == "FirstUseAuthenticator" || n in GivenAuthSections(o)
    ensures n in AuthSections(o) ==>
              AuthSections(o)[n] == SectionOf(DefaultAuthSections, n) + SectionOf(GivenAuthSections(o), n)
  {
  }

  /** `Spawner.mem_limit` is the given `limits.memory`, and null when none is given. */
  lemma MemoryLimit(o: Overrides, c: Namespace, exe: string, ns: Namespace)
    requires ApplyConfig(o, c, exe) == Ok(ns)
    ensures Attr(ns, "Spawner", "mem_limit") == Some(Setting(o, "limits", "memory", VNull))
  {
    OwnPatchSettings(o, exe);
    ReadsOwnPatch(o, c, exe, ns, "Spawner", "mem_limit");
  }

  /** A known default application sets `Spawner.default_url` to its URL. */
  lemma DefaultUrlKnownApp(o: Overrides, c: Namespace, exe: string, ns: Namespace)
    requires ApplyConfig(o, c, exe) == Ok(ns)
    ensures Lookup2(o, "user_environment", "default_app") == Some(VStr("jupyterlab")) ==>
              Attr(ns, "Spawner", "default_url") == Some(VStr("/lab"))
    ensures Lookup2(o, "user_environment", "default_app") == Some(VStr("nteract")) ==>
              Attr(ns, "Spawner", "default_url") == Some(VStr("/nteract"))
  {
    OwnPatchValues(o, exe);
    if AppUrl(Lookup2(o, "user_environment", "default_app")).Some? {
      ReadsOwnPatch(o, c, exe, ns, "Spawner", "default_url");
    }
  }

  /**
   * For any other or no default application the translation leaves
   * `Spawner.default_url` as it was, so on a fresh configurer it stays absent.
   */
  lemma DefaultUrlUnset(o: Overrides, c: Namespace, exe: string, ns: Namespace)
    requires ApplyConfig(o, c, exe) == Ok(ns)
    requires Lookup2(o, "user_environment", "default_app") !in {Some(VStr("jupyterlab")), Some(VStr("nteract"))}
    requires "Spawner" !in GivenAuthSections(o)
    ensures Attr(ns, "Spawner", "default_url") == Attr(c, "Spawner", "default_url")
  {
    OwnPatchValues(o, exe);
    AuthSectionsAt(o, "Spawner");
    ReadsUnassigned(o, c, exe, ns, "Spawner", "default_url");
  }

  /** `JupyterHub.authenticator_class` is the given `auth.type`, and the first-use authenticator otherwise. */
  lemma AuthenticatorClass(o: Overrides, c: Namespace, exe: string, ns: Namespace)
    requires ApplyConfig(o, c, exe) == Ok(ns)
    ensures Attr(ns, "JupyterHub", "authenticator_class")
            == Some(Setting(o, "auth", "type", VStr(DefaultAuthenticatorClass)))
  {
    OwnPatchSettings(o, exe);
    ReadsOwnPatch(o, c, exe, ns, "JupyterHub", "authenticator_class");
  }

  /**
   * Every key of a sub-mapping `auth.<Name>` becomes the attribute `<Name>.key`
   * with the same value (for class names other than the translator's own objects).
   */
  lemma AuthClassSettings(o: Overrides, c: Namespace, exe: string, ns: Namespace, name: string, sub: map<string, Value>, key: string)
    requires ApplyConfig(o, c, exe) == Ok(ns)
    requires Lookup2(o, "auth", name) == Some(VMap(sub)) && key in sub
    requires name !in TranslatorSections
    ensures Attr(ns, name, key) == Some(sub[key])
  {
    AuthSectionsAt(o, name);
    ReadsAuthSection(o, c, exe, ns, name, key);
  }

  /** Unless `auth.FirstUseAuthenticator.create_users` is given, its class section keeps the built-in `false`. */
  lemma FirstUseSectionDefault(o: Overrides)
    requires Lookup3(o, "auth", "FirstUseAuthenticator", "create_users").None?
    ensures "FirstUseAuthenticator" in AuthSections(o)
    ensures "create_users" in AuthSections(o)["FirstUseAuthenticator"]
    ensures AuthSections(o)["FirstUseAuthenticator"]["create_users"] == VBool(false)
  {
    var n := "FirstUseAuthenticator";
    var g := GivenAuthSections(o);
    AuthSectionsAt(o, n);
    if n in g && "create_users" in g[n] {
      GivenAuthKey(o, n, "create_users");
      assert false;
    }
  }

  /** Unless `auth.FirstUseAuthenticator.create_users` is given, the first-use authenticator creates no users. */
  lemma FirstUseCreateUsersDefault(o: Overrides, c: Namespace, exe: string, ns: Namespace)
    requires ApplyConfig(o, c, exe) == Ok(ns)
    requires Lookup3(o, "auth", "FirstUseAuthenticator", "create_users").None?
    ensures Attr(ns, "FirstUseAuthenticator", "create_users") == Some(VBool(false))
  {
    FirstUseSectionDefault(o);
    ReadsAuthSection(o, c, exe, ns, "FirstUseAuthenticator", "create_users");
  }

  /** The proxy API user name is the given one, and `api_admin` otherwise. */
  lemma TraefikApiUsername(o: Overrides, c: Namespace, exe: string, ns: Namespace)
    requires ApplyConfig(o, c, exe) == Ok(ns)
    ensures Attr(ns, "TraefikTomlProxy", "traefik_api_username")
            == Some(Setting(o, "traefik_api", "username", VStr(DefaultApiUsername)))
  {
    OwnPatchSettings(o, exe);
    ReadsOwnPatch(o, c, exe, ns, "TraefikTomlProxy", "traefik_api_username");
  }

  /** The proxy API password is the given one, and empty otherwise. */
  lemma TraefikApiPassword(o: Overrides, c: Namespace, exe: string, ns: Namespace)
    requires ApplyConfig(o, c, exe) == Ok(ns)
    ensures Attr(ns, "TraefikTomlProxy", "traefik_api_password")
            == Some(Setting(o, "traefik_api", "password", VStr(DefaultApiPassword)))
  {
    OwnPatchSettings(o, exe);
    ReadsOwnPatch(o, c, exe, ns, "TraefikTomlProxy", "traefik_api_password");
  }

  /**
   * `JupyterHub.services` is a one-element list: the admin service `cull-idle`
   * whose command line carries exactly the cull options in effect.
   */
  lemma CullServiceAssigned(o: Overrides, c: Namespace, exe: string, ns: Namespace)
    requires ApplyConfig(o, c, exe) == Ok(ns)
    ensures Attr(ns, "JupyterHub", "services")
            == Some(VList([CullService(CullCommand(exe, CullUsed(o)))]))
    ensures ParseCullCommand(CullCommand(exe, CullUsed(o))) == Some((exe, CullUsed(o)))
  {
    OwnPatchValues(o, exe);
    ReadsOwnPatch(o, c, exe, ns, "JupyterHub", "services");
    CullCommandRoundTrip(exe, CullUsed(o));
  }

  /** Translating the same overrides a second time changes nothing. */
  lemma ApplyConfigIdempotent(o: Overrides, c: Namespace, exe: string)
    requires ApplyConfig(o, c, exe).Ok?
    ensures ApplyConfig(o, ApplyConfig(o, c, exe).value, exe) == ApplyConfig(o, c, exe)
  {
    ApplyPatchIdempotent(c, ConfigPatch(o, exe).value);
  }

  /** Replacing one top-level key of the overrides does not change what paths under other keys find. */
  lemma GetOtherKey(o: Overrides, k: string, v: Value, a: string)
    requires a != k
    ensures Get(o[k := v], a) == Get(o, a)
  {
  }

  /** The cull options do not depend on `limits`. */
  lemma CullSettingsIgnoreLimits(o: Overrides, m: Value)
    ensures CullSettings(o["limits" := m]) == CullSettings(o)
  {
    GetOtherKey(o, "limits", m, "services");
  }

  /** The class sections do not depend on `limits`. */
  lemma AuthSectionsIgnoreLimits(o: Overrides, m: Value)
    ensures AuthSections(o["limits" := m]) == AuthSections(o)
  {
    GetOtherKey(o, "limits", m, "auth");
  }

  /** With `limits.memory = m` added to overrides without `limits`, only `mem_limit` of `Spawner` changes. */
  lemma SpawnerSectionWithMemory(o: Overrides, m: Value)
    requires "limits" !in o
    ensures SpawnerSection(o["limits" := VMap(map["memory" := m])]) == SpawnerSection(o)["mem_limit" := m]
  {
    var lim := VMap(map["memory" := m]);
    var o' := o["limits" := lim];
    GetOtherKey(o, "limits", lim, "user_environment");
  }

  /** With `limits.memory = m` added, the own assignments differ only in `Spawner.mem_limit`. */
  lemma OwnPatchWithMemory(o: Overrides, exe: string, m: Value)
    requires "limits" !in o
    requires CullSettings(o).Ok?
    ensures CullSettings(o["limits" := VMap(map["memory" := m])]).Ok?
    ensures OwnPatch(o["limits" := VMap(map["memory" := m])], exe)
            == OwnPatch(o, exe)["Spawner" := OwnPatch(o, exe)["Spawner"]["mem_limit" := m]]
  {
    var lim := VMap(map["memory" := m]);
    var o' := o["limits" := lim];
    CullSettingsIgnoreLimits(o, lim);
    SpawnerSectionWithMemory(o, m);
    GetOtherKey(o, "limits", lim, "auth");
    GetOtherKey(o, "limits", lim, "traefik_api");
    OwnPatchValues(o, exe);
    OwnPatchValues(o', exe);
    var before := OwnPatch(o, exe);
    var after := OwnPatch(o', exe);
    var expected := before["Spawner" := before["Spawner"]["mem_limit" := m]];
    assert after.Keys == expected.Keys;
    assert after["Spawner"] == expected["Spawner"];
    assert after["JupyterHub"] == expected["JupyterHub"];
    assert after["TraefikTomlProxy"] == expected["TraefikTomlProxy"];
  }

  /** The translation's patch: class sections overlaid by the translator's own assignments. */
  lemma ConfigPatchIs(o: Overrides, exe: string)
    requires CullSettings(o).Ok?
    ensures ConfigPatch(o, exe) == Ok(PatchUnion(AuthSections(o), OwnPatch(o, exe)))
  {
  }

  /** With `limits.memory = m` added, the translation's patch gains the single assignment `Spawner.mem_limit = m`. */
  lemma ConfigPatchWithMemory(o: Overrides, exe: string, m: Value)
    requires "limits" !in o
    requires CullSettings(o).Ok?
    ensures ConfigPatch(o["limits" := VMap(map["memory" := m])], exe)
            == Ok(PatchUnion(ConfigPatch(o, exe).value, map["Spawner" := map["mem_limit" := m]]))
  {
    var lim := VMap(map["memory" := m]);
    var o' := o["limits" := lim];
    AuthSectionsIgnoreLimits(o, lim);
    OwnPatchWithMemory(o, exe, m);
    ConfigPatchIs(o, exe);
    ConfigPatchIs(o', exe);
    OwnPatchValues(o, exe);
    PatchUnionOverride(AuthSections(o), OwnPatch(o, exe), "Spawner", "mem_limit", m);
  }

  /**
   * Adding `limits.memory = m` to overrides that had no `limits` performs
   * exactly one more assignment, `Spawner.mem_limit = m`; nothing else changes.
   */
  lemma MemoryOverrideOnlyChangesMemLimit(o: Overrides, c: Namespace, exe: string, m: Value)
    requires "limits" !in o
    requires ApplyConfig(o, c, exe).Ok?
    ensures ApplyConfig(o["limits" := VMap(map["memory" := m])], c, exe)
            == SetAttr(ApplyConfig(o, c, exe).value, "Spawner", "mem_limit", m)
  {
    var o' := o["limits" := VMap(map["memory" := m])];
    var p := ConfigPatch(o, exe).value;
    var q: Patch := map["Spawner" := map["mem_limit" := m]];
    var ns := ApplyConfig(o, c, exe).value;
    assert ApplyPatch(c, p) == Ok(ns);
    ConfigPatchWithMemory(o, exe, m);
    assert ApplyConfig(o', c, exe) == ApplyPatch(c, PatchUnion(p, q));
    assert "Spawner" in p;
    assert ns == Patched(c, p);
    PatchedAt(c, p, "Spawner");
    ApplyPatchSingle(ns, "Spawner", "mem_limit", m);
    assert ApplyPatch(ns, q).Ok?;
    ApplyPatchSequential(c, p, q);
  }

  /** The authentication settings: the class sections and `JupyterHub.authenticator_class`. */
  function AuthUpdate(o: Overrides): (p: Patch)
    ensures p.Keys == AuthSections(o).Keys + {"JupyterHub"}
  {
    PatchUnion(AuthSections(o),
               map["JupyterHub" := map["authenticator_class" := Setting(o, "auth", "type", VStr(DefaultAuthenticatorClass))]])
  }

  /** The resource limits: `Spawner.mem_limit`. */
  function LimitsUpdate(o: Overrides): (p: Patch)
    ensures p.Keys == {"Spawner"}
  {
    map["Spawner" := map["mem_limit" := Setting(o, "limits", "memory", VNull)]]
  }

  /** The user environment: `Spawner.default_url`, only for a known default application. */
  function UserEnvironmentUpdate(o: Overrides): (p: Patch)
    ensures p.Keys <= {"Spawner"}
  {
    match AppUrl(Lookup2(o, "user_environment", "default_app"))
    case Some(url) => map["Spawner" := map["default_url" := VStr(url)]]
    case None => map[]
  }

  /** The proxy API credentials. */
  function TraefikApiUpdate(o: Overrides): (p: Patch)
    ensures p.Keys == {"TraefikTomlProxy"}
  {
    map["TraefikTomlProxy" := map[
      "traefik_api_username" := Setting(o, "traefik_api", "username", VStr(DefaultApiUsername)),
      "traefik_api_password" := Setting(o, "traefik_api", "password", VStr(DefaultApiPassword))]]
  }

  /** The services: `JupyterHub.services` holding the cull service alone. */
  function ServicesUpdate(exe: string, cfg: CullConfig): (p: Patch)
    ensures p.Keys == {"JupyterHub"}
  {
    map["JupyterHub" := map["services" := VList([CullService(CullCommand(exe, cfg))])]]
  }

  /** The translation as a sequence of independent updates, one per group of settings. */
  function Updates(o: Overrides, exe: string): seq<Patch>
    requires CullSettings(o).Ok?
  {
    [AuthUpdate(o), LimitsUpdate(o), UserEnvironmentUpdate(o), TraefikApiUpdate(o), ServicesUpdate(exe, CullUsed(o))]
  }

  /** What the five updates together assign on one object, before the union is taken. */
  function UpdatesAt(o: Overrides, exe: string, k: string): Section
    requires CullSettings(o).Ok?
  {
    map[] + SectionOf(AuthUpdate(o), k) + SectionOf(LimitsUpdate(o), k) + SectionOf(UserEnvironmentUpdate(o), k)
    + SectionOf(TraefikApiUpdate(o), k) + SectionOf(ServicesUpdate(exe, CullUsed(o)), k)
  }

  /** The authentication update on one object: its class section, plus the class name on `JupyterHub`. */
  lemma AuthUpdateAt(o: Overrides, k: string)
    ensures SectionOf(AuthUpdate(o), k)
            == SectionOf(AuthSections(o), k)
               + (if k == "JupyterHub"
                  then map["authenticator_class" := Setting(o, "auth", "type", VStr(DefaultAuthenticatorClass))]
                  else map[])
  {
    EmptySectionUnion(SectionOf(AuthSections(o), k));
  }

  /** The limits update on one object. */
  lemma LimitsUpdateAt(o: Overrides, k: string)
    ensures SectionOf(LimitsUpdate(o), k)
            == if k == "Spawner" then map["mem_limit" := Setting(o, "limits", "memory", VNull)] else map[]
  {
  }

  /** The user-environment update on one object. */
  lemma UserEnvironmentUpdateAt(o: Overrides, k: string)
    ensures k != "Spawner" ==> SectionOf(UserEnvironmentUpdate(o), k) == map[]
  {
  }

  /** Together, the limits and user-environment updates make the `Spawner` section. */
  lemma SpawnerFromUpdates(o: Overrides)
    ensures SectionOf(LimitsUpdate(o), "Spawner") + SectionOf(UserEnvironmentUpdate(o), "Spawner") == SpawnerSection(o)
  {
    var l := SectionOf(LimitsUpdate(o), "Spawner");
    var u := SectionOf(UserEnvironmentUpdate(o), "Spawner");
    assert l == map["mem_limit" := Setting(o, "limits", "memory", VNull)];
    match AppUrl(Lookup2(o, "user_environment", "default_app"))
    case Some(url) =>
      assert u == map["default_url" := VStr(url)];
      assert l + u == l["default_url" := VStr(url)];
    case None =>
      assert u == map[];
      EmptySectionUnion(l);
  }

  /** The proxy update on one object. */
  lemma TraefikApiUpdateAt(o: Overrides, exe: string, k: string)
    requires CullSettings(o).Ok?
    ensures SectionOf(TraefikApiUpdate(o), k)
            == if k == "TraefikTomlProxy" then OwnPatch(o, exe)["TraefikTomlProxy"] else map[]
  {
    OwnPatchValues(o, exe);
  }

  /** The services update on one object. */
  lemma ServicesUpdateAt(o: Overrides, exe: string, k: string)
    requires CullSettings(o).Ok?
    ensures SectionOf(ServicesUpdate(exe, CullUsed(o)), k)
            == if k == "JupyterHub" then map["services" := OwnPatch(o, exe)["JupyterHub"]["services"]] else map[]
  {
    OwnPatchValues(o, exe);
  }

  /** Unions of sections where all but the first two are empty. */
  lemma UnionOfTwo(x: Section, y: Section, l: Section, u: Section, t: Section, sv: Section)
    requires l == map[] && u == map[] && t == map[] && sv == map[]
    ensures map[] + (x + y) + l + u + t + sv == x + y
  {
    EmptySectionUnion(x + y);
  }

  /** On every object, the five updates assign the class section given under `auth` plus the translation's own settings. */
  lemma UpdatesAtSection(o: Overrides, exe: string, k: string)
    requires CullSettings(o).Ok?
    ensures UpdatesAt(o, exe, k) == SectionOf(AuthSections(o), k) + SectionOf(OwnPatch(o, exe), k)
  {
    if k == "Spawner" {
      UpdatesAtSpawnerSection(o, exe);
    } else if k == "JupyterHub" {
      UpdatesAtJupyterHubSection(o, exe);
    } else if k == "TraefikTomlProxy" {
      UpdatesAtTraefikSection(o, exe);
    } else {
      UpdatesAtClassSection(o, exe, k);
    }
  }

  /** `UpdatesAtSection` on `Spawner`: limits and user environment, after any `auth` sub-mapping of that name. */
  lemma UpdatesAtSpawnerSection(o: Overrides, exe: string)
    requires CullSettings(o).Ok?
    ensures UpdatesAt(o, exe, "Spawner") == SectionOf(AuthSections(o), "Spawner") + SectionOf(OwnPatch(o, exe), "Spawner")
  {
    var k := "Spawner";
    OwnPatchValues(o, exe);
    AuthUpdateAt(o, k);
    LimitsUpdateAt(o, k);
    UserEnvironmentUpdateAt(o, k);
    SpawnerFromUpdates(o);
    TraefikApiUpdateAt(o, exe, k);
    ServicesUpdateAt(o, exe, k);
    UpdatesAtSpawner(SectionOf(AuthSections(o), k), SectionOf(LimitsUpdate(o), k), SectionOf(UserEnvironmentUpdate(o), k),
                     SectionOf(TraefikApiUpdate(o), k), SectionOf(ServicesUpdate(exe, CullUsed(o)), k));
  }

  /** `UpdatesAtSection` on `JupyterHub`: the authenticator class and the services, after any `auth` sub-mapping. */
  lemma UpdatesAtJupyterHubSection(o: Overrides, exe: string)
    requires CullSettings(o).Ok?
    ensures UpdatesAt(o, exe, "JupyterHub")
            == SectionOf(AuthSections(o), "JupyterHub") + SectionOf(OwnPatch(o, exe), "JupyterHub")
  {
    var k := "JupyterHub";
    OwnPatchValues(o, exe);
    AuthUpdateAt(o, k);
    LimitsUpdateAt(o, k);
    UserEnvironmentUpdateAt(o, k);
    SpawnerFromUpdates(o);
    TraefikApiUpdateAt(o, exe, k);
    ServicesUpdateAt(o, exe, k);
    var cls := Setting(o, "auth", "type", VStr(DefaultAuthenticatorClass));
    var svc := VList([CullService(CullCommand(exe, CullUsed(o)))]);
    TwoAttributes("authenticator_class", cls, "services", svc);
    UpdatesAtJupyterHub(SectionOf(AuthSections(o), k), map["authenticator_class" := cls],
                        SectionOf(LimitsUpdate(o), k), SectionOf(UserEnvironmentUpdate(o), k),
                        SectionOf(TraefikApiUpdate(o), k), map["services" := svc],
                        map["authenticator_class" := cls, "services" := svc]);
  }

  /** A two-attribute section is the union of its two one-attribute sections. */
  lemma TwoAttributes(a: string, va: Value, b: string, vb: Value)
    requires a != b
    ensures map[a := va, b := vb] == map[a := va] + map[b := vb]
  {
  }

  /** `UpdatesAtSection` on `TraefikTomlProxy`: the proxy API settings, after any `auth` sub-mapping. */
  lemma UpdatesAtTraefikSection(o: Overrides, exe: string)
    requires CullSettings(o).Ok?
    ensures UpdatesAt(o, exe, "TraefikTomlProxy")
            == SectionOf(AuthSections(o), "TraefikTomlProxy") + SectionOf(OwnPatch(o, exe), "TraefikTomlProxy")
  {
    var k := "TraefikTomlProxy";
    OwnPatchValues(o, exe);
    AuthUpdateAt(o, k);
    LimitsUpdateAt(o, k);
    UserEnvironmentUpdateAt(o, k);
    SpawnerFromUpdates(o);
    TraefikApiUpdateAt(o, exe, k);
    ServicesUpdateAt(o, exe, k);
    var x := SectionOf(AuthSections(o), k);
    UpdatesAtTraefik(x, SectionOf(LimitsUpdate(o), k), SectionOf(UserEnvironmentUpdate(o), k),
                     SectionOf(TraefikApiUpdate(o), k), SectionOf(ServicesUpdate(exe, CullUsed(o)), k));
  }

  /** `UpdatesAtSection` on every other object: only the `auth` sub-mapping of that name. */
  lemma UpdatesAtClassSection(o: Overrides, exe: string, k: string)
    requires CullSettings(o).Ok?
    requires k !in TranslatorSections
    ensures UpdatesAt(o, exe, k) == SectionOf(AuthSections(o), k) + SectionOf(OwnPatch(o, exe), k)
  {
    OwnPatchValues(o, exe);
    AuthUpdateAt(o, k);
    LimitsUpdateAt(o, k);
    UserEnvironmentUpdateAt(o, k);
    SpawnerFromUpdates(o);
    TraefikApiUpdateAt(o, exe, k);
    ServicesUpdateAt(o, exe, k);
    var x := SectionOf(AuthSections(o), k);
    EmptySectionUnion(x);
    UnionOfTwo(x, map[], SectionOf(LimitsUpdate(o), k), SectionOf(UserEnvironmentUpdate(o), k),
               SectionOf(TraefikApiUpdate(o), k), SectionOf(ServicesUpdate(exe, CullUsed(o)), k));
  }

  /** Section arithmetic for `TraefikTomlProxy`: only the proxy update is non-empty besides `auth`. */
  lemma UpdatesAtTraefik(x: Section, l: Section, u: Section, t: Section, sv: Section)
    requires l == map[] && u == map[] && sv == map[]
    ensures map[] + (x + map[]) + l + u + t + sv == x + t
  {
    EmptySectionUnion(x);
    EmptySectionUnion(x + t);
  }

  /** Section arithmetic for `Spawner`: only the limits and user-environment updates are non-empty besides `auth`. */
  lemma UpdatesAtSpawner(x: Section, l: Section, u: Section, t: Section, sv: Section)
    requires t == map[] && sv == map[]
    ensures map[] + (x + map[]) + l + u + t + sv == x + (l + u)
  {
    EmptySectionUnion(x);
    SectionUnionAssoc(x, l, u);
    EmptySectionUnion(x + l + u);
  }

  /** Section arithmetic for `JupyterHub`: only the authenticator class and the services are non-empty besides `auth`. */
  lemma UpdatesAtJupyterHub(x: Section, ac: Section, l: Section, u: Section, t: Section, sv: Section, own: Section)
    requires l == map[] && u == map[] && t == map[]
    requires own == ac + sv
    ensures map[] + (x + ac) + l + u + t + sv == x + own
  {
    EmptySectionUnion(x + ac);
    SectionUnionAssoc(x, ac, sv);
  }

  /** On every object, the union of the five updates agrees with the translation's patch. */
  lemma UpdatesSectionAt(o: Overrides, exe: string, k: string)
    requires CullSettings(o).Ok?
    ensures SectionOf(UnionAll(Updates(o, exe)), k) == SectionOf(PatchUnion(AuthSections(o), OwnPatch(o, exe)), k)
  {
    UnionOfFive(AuthUpdate(o), LimitsUpdate(o), UserEnvironmentUpdate(o), TraefikApiUpdate(o),
                ServicesUpdate(exe, CullUsed(o)), k);
    UpdatesAtSection(o, exe, k);
  }

  /** The five updates together touch exactly the objects the translation's patch touches. */
  lemma UpdatesKeys(o: Overrides, exe: string)
    requires CullSettings(o).Ok?
    ensures UnionAll(Updates(o, exe)).Keys == PatchUnion(AuthSections(o), OwnPatch(o, exe)).Keys
  {
    var a := AuthSections(o).Keys;
    UnionOfFive(AuthUpdate(o), LimitsUpdate(o), UserEnvironmentUpdate(o), TraefikApiUpdate(o),
                ServicesUpdate(exe, CullUsed(o)), "");
    OwnPatchValues(o, exe);
    FiveKeySets(a, UserEnvironmentUpdate(o).Keys);
  }

  /** Set arithmetic for `UpdatesKeys`: the objects named by the five updates. */
  lemma FiveKeySets(a: set<string>, u: set<string>)
    requires u <= {"Spawner"}
    ensures a + {"JupyterHub"} + {"Spawner"} + u + {"TraefikTomlProxy"} + {"JupyterHub"} == a + TranslatorSections
  {
  }

  /** Taken together, the five updates assign exactly what the translation's patch assigns. */
  lemma UpdatesMakeConfigPatch(o: Overrides, exe: string)
    requires CullSettings(o).Ok?
    ensures ConfigPatch(o, exe) == Ok(UnionAll(Updates(o, exe)))
  {
    var p := PatchUnion(AuthSections(o), OwnPatch(o, exe));
    ConfigPatchIs(o, exe);
    forall k ensures SectionOf(UnionAll(Updates(o, exe)), k) == SectionOf(p, k) {
      UpdatesSectionAt(o, exe, k);
    }
    UpdatesKeys(o, exe);
    PatchExtensional(UnionAll(Updates(o, exe)), p);
  }

  /**
   * Applying the five updates one after another, in the order auth, limits,
   * user environment, proxy, services, agrees with applying the whole
   * translation at once.
   */
  lemma ApplyConfigStepwise(o: Overrides, c: Namespace, exe: string)
    requires CullSettings(o).Ok?
    ensures Agree(ApplyAll(c, Updates(o, exe)), ApplyConfig(o, c, exe))
  {
    UpdatesMakeConfigPatch(o, exe);
    ApplyAllIsUnion(c, Updates(o, exe));
  }

  /** The limits, user-environment, proxy and services updates assign pairwise different attributes. */
  lemma OwnUpdatesDisjoint(o: Overrides, exe: string)
    requires CullSettings(o).Ok?
    ensures Disjoint(LimitsUpdate(o), UserEnvironmentUpdate(o))
    ensures Disjoint(LimitsUpdate(o), TraefikApiUpdate(o))
    ensures Disjoint(LimitsUpdate(o), ServicesUpdate(exe, CullUsed(o)))
    ensures Disjoint(UserEnvironmentUpdate(o), TraefikApiUpdate(o))
    ensures Disjoint(UserEnvironmentUpdate(o), ServicesUpdate(exe, CullUsed(o)))
    ensures Disjoint(TraefikApiUpdate(o), ServicesUpdate(exe, CullUsed(o)))
  {
  }
}
