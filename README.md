# Tableau dispatcher: configuration and entrypoint model

This project models the two pieces of the Tableau command-line dispatcher
that carry their own logic:

- **Configuration loading** (`wrapper/config.py`). `ConfigWrapper.__init__`
  reads four required credentials (`TAB_PAT_NAME`, `TAB_PAT_SECRET`,
  `TAB_SITE_ID`, `TAB_SITE_URL`) with `""` as the default and the optional
  `TAB_API_VERSION` with `None` as the default. It builds the frozen record
  `TabCredentials` and runs `_validate`. `_validate` lists, in declaration
  order, every field other than `api_version` whose value is falsy, and
  raises `ValueError("Missing Tableau config vars: [...]")` when that list
  is non-empty. The `Singleton` metaclass caches one `ConfigWrapper` per
  process: the first successful call stores it, later calls return it
  without running `__init__`.
- **Entrypoint** (`src/main.py`). `build_parser` advertises three selectors.
  The registry wires only `hyper_api_create_extract`. `main` loads the
  configuration first, then looks up the selector. An unregistered selector
  prints `No script found: <selector>` to stderr and returns 2 before any
  session exists. A registered one runs its script once inside a
  `with TableauClient()` block and returns 0 when the script completes.

Files:

- `wrappers.dfy`: `Option`, `Result`, `Outcome`.
- `config.dfy` (module `Config`): the environment is a `map<string, string>`.
  `TabCredentials` is a datatype, so it cannot be changed after
  construction; changing a field produces a different value. `Field` and
  `Fields` give the declaration order and `vars()` view. `MissingFrom` is
  the filtering comprehension, `Validate` is `_validate`, and
  `NewConfigWrapper` is `__init__`. `Singleton` is a class whose `instance`
  field is the `_instances` entry. A ghost counter records how often
  `__init__` ran.
- `entrypoint.dfy` (module `Entrypoint`): `MainSpec` is the behaviour of
  `main` as a function of the configuration it receives. `RunMain` is the
  imperative `main`, and it returns the exit code plus a trace of events
  (`ConfigLoad`, `Print`, `EnterSession`, `RunScript`, `ExitSession`).
  It is proved equal to `MainSpec` applied to what the singleton yields.

The lookup happens before the session is opened (`src/main.py:47-53`).
An unregistered selector therefore never opens a session, so there is no
session to close on that path.

## Model

| member | source | states |
|---|---|---|
| `Config.FieldsInDeclarationOrder` | wrapper/config.py:19-23 | the field list follows declaration order and covers every field of the record |
| `Config.ApiVersionByName` | wrapper/config.py:46 | the name test `name != "api_version"` excludes exactly the optional field |
| `Config.MissingFrom` | wrapper/config.py:43-47 | the filter keeps a field iff it is listed, is not named "api_version" and has a falsy value, and keeps declaration order |
| `Config.MissingFields` | wrapper/config.py:43-47 | the missing list holds exactly the required fields whose value is "", never `api_version`, in declaration order and without duplicates |
| `Config.JoinQuotedContainsEach` | wrapper/config.py:49 | the rendered list contains every element, quoted |
| `Config.ListRepr` | wrapper/config.py:49 | the rendering of the list is bracketed, and it is `[]` exactly for the empty list |
| `Config.MessageNamesField` | wrapper/config.py:49 | the message rendered for a list contains the quoted name at any given index |
| `Config.MessageNamesEveryField` | wrapper/config.py:49 | the message rendered for a list names every element, not only the first |
| `Config.Message` | wrapper/config.py:49 | the error text starts with `Missing Tableau config vars: ` and contains every missing name, quoted |
| `Config.Validate` | wrapper/config.py:42-49 | raises iff some required field is empty; the error lists exactly the missing names and its message names each one |
| `Config.LoadCredentials` | wrapper/config.py:33-39 | `api_version` is `None` exactly when `TAB_API_VERSION` is absent |
| `Config.LoadConfig` | wrapper/config.py:32-49 | on success the result is the environment's record; on failure the error lists exactly the missing field names, and never an empty list |
| `Config.LoadConfigIffAllSet` | wrapper/config.py:32-49 | loading succeeds iff validation passes, iff every required variable is present and non-empty |
| `Config.CredentialsFromEnv` | wrapper/config.py:32-39 | each required field holds its variable's value or "" when absent; `api_version` holds the value or `None` |
| `Config.AbsentEqualsEmpty` | wrapper/config.py:34-37 | an absent required variable and one set to "" give the same record |
| `Config.MissingFromEnv` | wrapper/config.py:34-47 | a field is missing iff it is required and its variable is absent or empty |
| `Config.ApiVersionNeverRequired` | wrapper/config.py:38-47 | `api_version` is `None` when absent, and no value of it, `None` or "", changes the validation outcome |
| `Config.MissingFromRequiredOnly` | wrapper/config.py:43-47 | the missing list depends only on the four required fields |
| `Config.ConfigWrapper.constructor` | wrapper/config.py:33 | the wrapper holds the credential record it was built with |
| `Config.NewConfigWrapper` | wrapper/config.py:32-40 | construction succeeds iff validation passes, and then yields a fresh wrapper over the environment's credentials; otherwise it raises the validation error |
| `Config.Singleton.constructor` | wrapper/config.py:9 | the cache starts empty |
| `Config.Singleton.Call` | wrapper/config.py:11-14 | a stored instance is returned unchanged without running `__init__` or reading the environment; otherwise one construction runs and its instance is stored only if it succeeds |
| `Config.RepeatedCallsShareInstance` | wrapper/config.py:11-14 | after a successful first call, a second call returns the identical object whatever the environment holds |
| `Config.FailedConstructionIsRetried` | wrapper/config.py:12-13 | a failed construction stores nothing, so the next call constructs again and can succeed |
| `Entrypoint.BuildParser` | src/main.py:20-33 | the parser has a required `--script` flag over three distinct choices |
| `Entrypoint.RegistryWithinChoices` | src/main.py:25-45 | every registry key is an advertised choice, and some choice is not registered |
| `Entrypoint.Lookup` | src/main.py:43-47 | the lookup finds a script exactly for `hyper_api_create_extract`, and that script is `run_hyper_api_create_extract` |
| `Entrypoint.MainSpec` | src/main.py:36-56 | every run starts by loading the config; `main` returns only after the config loaded, with 0 or 2; it returns 0 only when the selector is registered and the session and script both complete |
| `Entrypoint.RunMain` | src/main.py:36-56 | `main`'s completion and event trace equal `MainSpec` of what the singleton yields. An existing instance stays in the cache. From an empty cache, exactly one construction runs, and a fresh instance over the environment's credentials is stored iff loading succeeds |
| `Entrypoint.SessionScoped` | src/main.py:53-54 | every script call lies between entering and exiting the session, and an entered session is exited last |
| `Entrypoint.ConfigErrorFailsEverySelector` | src/main.py:41-47 | a configuration error raises the same `ValueError` for every selector, before any session, and exits with status 1 |
| `Entrypoint.UnregisteredSelector` | src/main.py:47-50 | an advertised but unregistered selector prints `No script found: <selector>` to stderr, returns 2, and opens no session |
| `Entrypoint.RegisteredSelectorRunsOnce` | src/main.py:53-56 | a registered selector, once the session opens, runs its mapped script exactly once with the loaded credentials and args, in one session entered and exited once; 0 is returned iff the script completes, otherwise its error propagates |
| `Entrypoint.ConnectionFaultRunsNothing` | src/main.py:53-54 | a registered selector whose session cannot be entered raises the connection error; no session is entered, no script runs and no session exit happens |
| `Entrypoint.ExitStatus` | src/main.py:59-60 | a returned code becomes the exit status; an uncaught exception gives a status that is neither 0 nor 2 |
| `Entrypoint.ExitStatuses` | src/main.py:47-60 | exit status 0 iff config, session and script all succeed; 2 iff config loads and the selector is unregistered |
| `Entrypoint.MissingSiteIdScenario` | wrapper/config.py:34-49 | with only `TAB_SITE_ID` absent, the run raises naming `site_id` alone and opens no session |
| `Entrypoint.RegisteredHappyPathScenario` | src/main.py:41-56 | with all required variables set and the registered selector, the run exits 0 after one session-scoped script call |

## Left out

- argparse parsing and its exit on an unknown choice: `RunMain` requires the selector to be one of the advertised choices, and `Args` holds only `script`.
- `os.getenv` and the real process environment: the environment is an explicit map parameter.
- `TableauClient` internals (authentication, REST calls): the session is only the `EnterSession`/`ExitSession` events. Whether entering it fails is a parameter. `__exit__` is assumed not to swallow exceptions.
- The script bodies (`generate_hyper.py`, the stub `hyper_api_create_extract.py`): a script call is one `RunScript` event, and whether it raises is a parameter. Pandas I/O and the Hyper process and connection are outside the model.
- Logging and `log_duration`.
- A `Print` event carries the argument of `print`, not the bytes written: the trailing newline `print` adds is not part of its text.
- The `Singleton` dictionary is keyed by class. Only `ConfigWrapper` uses it in `wrapper/config.py` and `src/main.py`, so the model keeps a single optional entry.
- `ConfigWrapper.tab_cred` is a plain attribute in Python. Nothing in `wrapper/config.py` or `src/main.py` rebinds it, so the model makes it a constant field.
- `NewConfigWrapper` allocates the object after validation passes. Python allocates it first and discards it when `_validate` raises, and that difference cannot be observed.
- `Quote` renders a name as `'name'`, which is Python's `repr` for strings with no quotes or backslashes. Every field name is such a string.
