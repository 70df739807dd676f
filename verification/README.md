# The Littlest JupyterHub configurer, modelled in Dafny

This project models two pieces of The Littlest JupyterHub's configuration layer.

The first is the test double `MockConfigurer`: a namespace of configuration
objects two levels deep. Reading `c.Name` for a name never seen before creates
a fresh empty object there, so `c.Name.attr = v` always works.

The second is the translator `configurer.apply_config(overrides, c)`. It turns
the user-facing settings file into assignments on that namespace:

- `limits.memory` becomes `Spawner.mem_limit`.
- `user_environment.default_app` becomes `Spawner.default_url`.
- `auth.type` becomes `JupyterHub.authenticator_class`.
- Each `auth.<Class>` sub-mapping becomes attributes of `<Class>`.
- `traefik_api.username` and `traefik_api.password` become the proxy's API credentials.
- `services.cull.*` becomes the command line of the `cull-idle` service in `JupyterHub.services`.

Absent settings take their documented defaults.

The module `tljh/configurer.py` is not part of this model. Only its tests are.
So `Configurer.ApplyConfig` is a reference definition. Its contracts and lemmas
are the facts those tests assert, generalised over every interpreter path and
every override value.

Layout:

- `wrappers.dfy`: `Option` and `Result`.
- `value.dfy`: parsed settings values and lookups into them.
- `int_text.dfy`: `%d` rendering of integers, and a parser proved to invert it.
- `mock_configurer.dfy`: the vivifying namespace. It also defines the *patch*, a batch of two-level assignments, and the algebra of applying patches.
- `configurer.dfy`:
  - the translation, as one pure patch computed from the overrides alone;
  - its decomposition into five updates, one per settings group;
  - the per-setting properties.
- `configurer_cases.dfy`: the `apply_mock_config` test scenarios, each as a lemma about `ApplyMockConfig` on a fresh configurer for an arbitrary `sys.executable`, plus the mock's doctest (`MockConfigurerDoctest`). The `test_mock_configurer` scenario is `MockConfigurer.MockConfigurerScenario` in `mock_configurer.dfy`. Of `test_load_secrets`, only the translation of the loaded password is modelled, as `Configurer.TraefikApiPassword`.

## Model

| member | source | states |
|---|---|---|
| MockConfigurer.GetAttr | tests/test_configurer.py:34-37 | Reading `c.k` adds exactly `k` to the namespace. For a missing `k` it stores and returns a fresh empty object. For a present `k` it returns the stored entry. Every other entry is unchanged. |
| MockConfigurer.GetAttrIdempotent | tests/test_configurer.py:34-37 | A second read of `c.k` returns the same entry and namespace as the first. The namespace grows by one entry exactly when `k` was missing. |
| MockConfigurer.SetTop | tests/test_configurer.py:45-48 | `c.k = v` stores the plain value `v`, and reading `c.k` then yields it. Other names are unchanged. |
| MockConfigurer.SetAttr | tests/test_configurer.py:21-22 | `c.k.a = v` fails exactly when `c.k` holds a plain value. On success, only `k` changes. |
| MockConfigurer.ReadAttr | tests/test_configurer.py:24-25 | `c.k.a` is present exactly when `k` is an object carrying attribute `a`, and then it is that attribute's value. Reading vivifies `c.k` like `GetAttr`. |
| MockConfigurer.SetThenRead | tests/test_configurer.py:21-23 | An attribute that was just assigned reads back as the assigned value. |
| MockConfigurer.SetAttrFrame | tests/test_configurer.py:44-50 | Assigning `c.k.a` leaves every other two-level attribute readable as before. |
| MockConfigurer.VivifiedHasNoAttr | tests/test_configurer.py:24-25 | An object created by vivification has no attributes, so `hasattr` is false. |
| MockConfigurer.MockConfigurerScenario | tests/test_configurer.py:40-51 | The test's sequence of steps succeeds and reads back `'hi'` and `'boo'`. `non_existent` is absent. |
| ConfigurerCases.MockConfigurerDoctest | tests/test_configurer.py:20-25 | The doctest's steps: the assigned attribute reads back and `does_not_exist` is absent. |
| MockConfigurer.ApplyPatch | tests/test_configurer.py:54-62 | Applying a batch of assignments fails, naming the offenders, exactly when it writes into a plain value. On success the names are the old ones plus the patched ones, and unpatched entries are unchanged. |
| MockConfigurer.ApplyPatchReads | tests/test_configurer.py:54-62 | After a patch, each patched attribute reads as its patched value and every other attribute reads as before. |
| MockConfigurer.ApplyPatchSingle | tests/test_configurer.py:21-22 | A one-assignment patch is exactly the statement `c.k.a = v`. |
| MockConfigurer.ApplyPatchSequential | tests/test_configurer.py:54-62 | Applying two patches in turn succeeds exactly when applying their union does, and then gives the same namespace. |
| MockConfigurer.ApplyPatchIdempotent | tests/test_configurer.py:54-62 | Applying a successful patch a second time changes nothing. |
| MockConfigurer.ApplyPatchCommutes | tests/test_configurer.py:54-62 | Two patches that assign disjoint attributes can be applied in either order with the same outcome. |
| MockConfigurer.ApplyAllIsUnion | tests/test_configurer.py:54-62 | Applying any sequence of patches one by one agrees with applying their union at once. This is proved by induction on the sequence. |
| IntText.NatToStringRoundTrip | tests/test_configurer.py:197-201 | The decimal digits of `n` read back as `n`. This is proved by induction on the digits. |
| IntText.IntToStringRoundTrip | tests/test_configurer.py:197-201 | `%d` rendering of any integer, negative ones included, parses back to that integer. |
| IntText.IntToStringInjective | tests/test_configurer.py:197-201 | Different integers render to different text. |
| IntText.NatToString | tests/test_configurer.py:197-201 | The decimal rendering of a natural number is a non-empty run of digits, with a leading `0` only for zero itself. |
| IntText.IntToString | tests/test_configurer.py:222-226 | `%d` rendering: non-empty, with a leading `-` exactly for negative integers. `IntToStringRoundTrip` shows it parses back. |
| PyValue.AsInt | tests/test_configurer.py:214-218 | Defines the integer `%d` formats: an integer is itself, a boolean is 0 or 1, and every other value has none. |
| PyValue.Truthy | tests/test_configurer.py:217 | Defines Python truthiness: empty strings, lists and mappings, zero, `False` and `None` are false, and everything else is true. It decides `--cull-users`. |
| Configurer.CullOption | tests/test_configurer.py:209-226 | A cull option is its default when absent and the given integer when present. It fails with `NotAnInteger` exactly when the given value is neither an integer nor a boolean, which counts as 0 or 1. |
| Configurer.CullSettings | tests/test_configurer.py:209-226 | With no `services.cull` every option takes its default. Success requires each integer option to succeed. `users` is on exactly when a truthy value is given. |
| Configurer.CullCommand | tests/test_configurer.py:197-201 | The command line starts with the interpreter and the cull script. It has six elements, or seven with `--cull-users` last when `users` is on. |
| Configurer.CullFlagsFollowOptions | tests/test_configurer.py:220-226 | Each flag carries the given option, or its default when absent. `--cull-users` is present exactly when `users` is truthy. |
| Configurer.CullCommandRoundTrip | tests/test_configurer.py:221-226 | The command line parses back to the interpreter and every option it was built from. |
| Configurer.CullCommandInjective | tests/test_configurer.py:221-226 | Different options or interpreters never give the same command line. |
| Configurer.CullService | tests/test_configurer.py:202-206 | Defines the descriptor of the idle-culling service: the name `cull-idle`, `admin` true, and the command as a list of strings. |
| Configurer.AppUrl | tests/test_configurer.py:90-103 | `jupyterlab` maps to `/lab` and `nteract` to `/nteract`. Every other choice, and no choice, gives no URL. |
| Configurer.GivenAuthSections | tests/test_configurer.py:117-130 | A class section `<Name>` exists if and only if `auth.<Name>` is given as a mapping, and it holds exactly that mapping. |
| Configurer.AuthSections | tests/test_configurer.py:113-114 | Defines the class sections: the built-in `FirstUseAuthenticator.create_users = False`, overlaid key by key by the given sections. |
| Configurer.SpawnerSection | tests/test_configurer.py:65-103 | `Spawner` receives `mem_limit` always and `default_url` exactly for a known application, with the values the settings give. |
| Configurer.ConfigPatch | tests/test_configurer.py:54-62 | The translation's assignments exist exactly when the cull options are integers. They cover exactly the translator's three objects and the class sections. |
| Configurer.ApplyConfig | tests/test_configurer.py:54-62 | The translation succeeds exactly when the cull options are integers and no assigned name holds a plain value. It adds exactly the assigned names and leaves every other name as it was. |
| Configurer.ApplyMockConfig | tests/test_configurer.py:54-62 | On a fresh configurer the translation fails only on a non-integer cull option. |
| Configurer.MemoryLimit | tests/test_configurer.py:65-78 | `Spawner.mem_limit` is the given `limits.memory`, or null when it is not given. |
| Configurer.MemoryOverrideOnlyChangesMemLimit | tests/test_configurer.py:73-78 | Adding `limits.memory = m` to overrides without `limits` gives the same result as the original translation followed by the single statement `c.Spawner.mem_limit = m`. |
| Configurer.DefaultUrlKnownApp | tests/test_configurer.py:90-103 | `jupyterlab` sets `Spawner.default_url` to `/lab`, and `nteract` sets it to `/nteract`. |
| Configurer.DefaultUrlUnset | tests/test_configurer.py:81-87 | For any other or no application, `Spawner.default_url` is left as it was. On a fresh configurer it stays absent rather than null. |
| Configurer.AuthenticatorClass | tests/test_configurer.py:106-112 | `JupyterHub.authenticator_class` is the given `auth.type`, or the first-use authenticator when none is given. |
| Configurer.FirstUseCreateUsersDefault | tests/test_configurer.py:106-114 | Unless `create_users` is given, `FirstUseAuthenticator.create_users` is false. |
| Configurer.AuthClassSettings | tests/test_configurer.py:117-164 | Each key of a given `auth.<Name>` mapping becomes `<Name>.key` with the same value. |
| Configurer.TraefikApiUsername | tests/test_configurer.py:167-188 | The proxy API user name is the given one, or `api_admin` when none is given. |
| Configurer.TraefikApiPassword | tests/test_configurer.py:243-244 | The proxy API password is the given one, or empty when none is given. |
| Configurer.CullServiceAssigned | tests/test_configurer.py:191-231 | `JupyterHub.services` is a single admin service `cull-idle` whose command line parses back to exactly the options in effect. |
| Configurer.ApplyConfigIdempotent | tests/test_configurer.py:54-62 | Translating the same overrides twice gives the same namespace as translating them once. |
| Configurer.UpdatesMakeConfigPatch | tests/test_configurer.py:54-62 | The five per-group updates together make exactly the translation's assignments: auth, limits, user environment, proxy and services. |
| Configurer.ApplyConfigStepwise | tests/test_configurer.py:54-62 | Applying the five updates one after another agrees with the whole translation. |
| Configurer.OwnUpdatesDisjoint | tests/test_configurer.py:54-62 | The limits, user-environment, proxy and services updates assign pairwise different attributes, so their relative order does not matter. |
| ConfigurerCases.DefaultMemoryLimitCase | tests/test_configurer.py:65-70 | With no overrides, `Spawner.mem_limit` is null. |
| ConfigurerCases.SetMemoryLimitCase | tests/test_configurer.py:73-78 | With `limits.memory = '42G'`, `Spawner.mem_limit` is `'42G'`. |
| ConfigurerCases.AppDefaultCase | tests/test_configurer.py:81-87 | With no overrides, `Spawner.default_url` is absent. |
| ConfigurerCases.AppJupyterlabCase | tests/test_configurer.py:90-95 | With the `jupyterlab` application, `Spawner.default_url` is `/lab`. |
| ConfigurerCases.AppNteractCase | tests/test_configurer.py:98-103 | With the `nteract` application, `Spawner.default_url` is `/nteract`. |
| ConfigurerCases.AuthDefaultCase | tests/test_configurer.py:106-114 | With no overrides the class is the first-use authenticator, and `create_users` is false and falsy. |
| ConfigurerCases.AuthCase | tests/test_configurer.py:117-164 | For any class name and sub-mapping, the class name and every sub-setting are assigned. |
| ConfigurerCases.AuthDummyCase | tests/test_configurer.py:117-130 | The dummy authenticator's class name and password are assigned. |
| ConfigurerCases.AuthFirstuseCase | tests/test_configurer.py:133-146 | A given `create_users = True` overrides the first-use default. |
| ConfigurerCases.AuthGithubCase | tests/test_configurer.py:149-164 | The GitHub authenticator's class name, client id and client secret are assigned. |
| ConfigurerCases.AuthNativeCase | tests/test_configurer.py:247-260 | The native authenticator's class name and `open_signup` are assigned. |
| ConfigurerCases.TraefikApiDefaultCase | tests/test_configurer.py:167-174 | With no overrides the proxy user is `api_admin` and the password is empty. |
| ConfigurerCases.SetTraefikApiCase | tests/test_configurer.py:177-188 | Given proxy credentials are assigned verbatim. |
| ConfigurerCases.CullFlags | tests/test_configurer.py:197-201 | The flag texts the tests expect are the renderings of the option values. |
| ConfigurerCases.CullServiceDefaultCase | tests/test_configurer.py:191-206 | With no overrides the service list is the test's literal list with the default flags. |
| ConfigurerCases.SetCullServiceCase | tests/test_configurer.py:209-231 | With `every = 10`, `users = True` and `max_age = 60`, the service list is the test's literal list ending in `--cull-users`. |

## Left out

- `configurer.load_config()` and the first half of `test_load_secrets` (tests/test_configurer.py:234-242) are left out. They read a secret file from disk, which is file I/O. The second half, the translation of the loaded password, is `Configurer.TraefikApiPassword`.
- Parsing the YAML settings file is left out. The overrides enter the model already parsed, as a `map<string, Value>`.
- The real traitlets configuration object is left out, as is the rest of Python's dynamic attribute machinery, including built-in attributes such as `__class__`. Only the two-level behaviour of the mock is modelled.
- `sys.executable` is the parameter `exe`, with no assumption on its value.
- Floating-point values are not modelled: the value type has no float case. Python's `%d` would truncate a float cull option such as 2.5 to 2.
- `tljh/configurer.py` itself is not part of this model. Where the tests say nothing, the reference definition makes these choices:
  - Unknown top-level keys are ignored.
  - `timeout` and `concurrency` can be overridden like `every` and `max_age`.
  - A cull option that is not an integer or a boolean fails with `NotAnInteger`, as Python's `%d` raises `TypeError` for strings, `None`, lists and mappings. A boolean counts as 0 or 1.
  - `users` follows Python truthiness.
  - A default application other than `jupyterlab` or `nteract`, including a non-string one, sets no URL.
  - Every `auth.<Name>` whose value is a mapping is a class section.
  - Where a class section and the translator's own objects assign the same attribute, the translator's value wins.
  - Assigning below a name that holds a plain value fails with `NotAnObject`, like Python's `AttributeError`.
  - `JupyterHub.services` is assigned the one-element list rather than extended by it. The tests at tests/test_configurer.py:202 and tests/test_configurer.py:227 compare `c.JupyterHub.services` on a fresh mock. There `c.JupyterHub` is a vivified object with no `services` attribute, so reading `c.JupyterHub.services` in order to extend it would raise `AttributeError`. The tests therefore show assignment.
- Configurer.DefaultUrlUnset: requires that the overrides give no `auth.Spawner` section, since such a section could itself assign `default_url`.
- Configurer.AuthClassSettings: requires that the class name is not `Spawner`, `JupyterHub` or `TraefikTomlProxy`. For those names the translator's own attributes take precedence over the class section.
- ConfigurerCases.AuthCase: also requires that the class name is not `type`, the key that names the class.
- MockConfigurer.GetAttr: vivifies every missing name. In Python, `__getattr__` runs only when ordinary lookup fails, so names such as `_EmptyObject`, `__getattr__` and dunder names like `__doc__` resolve to the class's own attributes and are not vivified. The model has no class attributes.
- Configurer.ApplyConfig: failure is all-or-nothing, and no namespace is returned with the error. Python would leave in `c` the assignments made before the exception. Also, `NotAnObject` names every offending plain-value name, while Python's `AttributeError` stops at the first.
- MockConfigurer.ReadAttr: an attribute of a plain value is always absent, though in Python a string has its methods as attributes (`hasattr('hi', 'upper')` is true). Dunder attributes of objects, such as `__class__` on a vivified object, are absent too, though Python finds them on the class.
