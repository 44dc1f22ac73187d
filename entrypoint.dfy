/**
 * The project entrypoint: the command-line parser's closed set of
 * selectors, the script registry, and `main`, which loads the configuration,
 * looks the selector up, and runs the registered script once inside a
 * scoped Tableau session.
 */
module Entrypoint {
  import opened Wrappers
  import opened Config

  /** The one argument `build_parser` declares. */
  datatype Parser = Parser(flag: string, required: bool, choices: seq<string>, help: string)

  /** `build_parser`: a required `--script` flag over three advertised selectors. */
  function BuildParser(): (p: Parser)
    ensures p.flag == "--script" && p.required
    ensures |p.choices| == 3
    ensures forall i, j :: 0 <= i < j < |p.choices| ==> p.choices[i] != p.choices[j]
  {
    Parser(
      "--script",
      true,
      ["hyper_api_create_extract", "hyper_api_create_hyper", "hyper_api_publish_hyper"],
      "Which script to run")
  }

  /** The parsed `argparse.Namespace`. */
  datatype Args = Args(script: string)

  /** The script functions that can be registered; only `run_hyper_api_create_extract` is imported by `src/main.py`. */
  datatype ScriptFn = RunHyperApiCreateExtract

  /** The registry `main` builds: one of the three selectors is wired. */
  const Scripts: map<string, ScriptFn> := map["hyper_api_create_extract" := RunHyperApiCreateExtract]

  /** `scripts.get(selector)`. */
  function Lookup(selector: string): (r: Option<ScriptFn>)
    ensures r.Some? <==> selector == "hyper_api_create_extract"
    ensures r.Some? ==> r.value == RunHyperApiCreateExtract
  {
    if selector in Scripts then Some(Scripts[selector]) else None
  }

  /** The registry's keys are a strict subset of the advertised choices. */
  lemma RegistryWithinChoices()
    ensures forall k :: k in Scripts ==> k in BuildParser().choices
    ensures exists c :: c in BuildParser().choices && c !in Scripts
  {
    assert BuildParser().choices[1] !in Scripts;
  }

  datatype Stream = Stderr

  /** The observable steps of one run, in the order they happen. */
  datatype Event =
    | ConfigLoad
    | Print(stream: Stream, text: string)
    | EnterSession
    | RunScript(script: ScriptFn, cred: TabCredentials, args: Args)
    | ExitSession

  /** Exceptions that can leave `main`. */
  datatype Exception =
    | ValueError(message: string)
    | ConnectionError(detail: string)
    | ScriptError(detail: string)

  /** How `main` ends: it returns an exit code or lets an exception out. */
  datatype Completion = Returned(code: int) | Raised(exception: Exception)

  /**
   * The behaviour of the collaborators this model does not see: whether
   * entering the `TableauClient` session fails, and whether the script raises.
   */
  datatype Collaborators = Collaborators(connectFault: Option<string>, scriptFault: Option<string>)

  /** A whole run: how it ended and what it did. */
  datatype Run = Run(completion: Completion, trace: seq<Event>)

  /** The diagnostic printed for an advertised selector with no script. */
  function NotFound(selector: string): string {
    "No script found: " + selector
  }

  /**
   * What `main` does, given the configuration that `ConfigWrapper()` yields:
   * the config is loaded first, the lookup comes before any session, and the
   * script runs inside the session scope.
   */
  function MainSpec(args: Args, config: Result<TabCredentials, ConfigError>, world: Collaborators): (r: Run)
    ensures |r.trace| >= 1 && r.trace[0] == ConfigLoad
    ensures r.completion.Returned? ==> config.Success? && r.completion.code in {0, 2}
    ensures r.completion == Returned(0) ==>
              Lookup(args.script).Some? && world.connectFault.None? && world.scriptFault.None?
  {
    match config
    case Failure(e) => Run(Raised(ValueError(Message(e))), [ConfigLoad])
    case Success(cred) =>
      match Lookup(args.script)
      case None => Run(Returned(2), [ConfigLoad, Print(Stderr, NotFound(args.script))])
      case Some(fn) =>
        match world.connectFault
        case Some(d) => Run(Raised(ConnectionError(d)), [ConfigLoad])
        case None =>
          var trace := [ConfigLoad, EnterSession, RunScript(fn, cred, args), ExitSession];
          match world.scriptFault
          case None => Run(Returned(0), trace)
          case Some(d) => Run(Raised(ScriptError(d)), trace)
  }

  /**
   * `main`: parse the selector, load the configuration through the
   * singleton cache, look the selector up, and either report it missing
   * with exit code 2 or run its script once in a session that is exited on
   * every path out of the block.
   */
  method RunMain(selector: string, env: Env, configs: Singleton, world: Collaborators)
    returns (completion: Completion, trace: seq<Event>)
    requires selector in BuildParser().choices
    requires configs.Valid()
    modifies configs
    ensures configs.Valid()
    ensures Run(completion, trace) == MainSpec(Args(selector), Expected(old(configs.instance), env), world)
    ensures old(configs.instance).Some? ==> configs.instance == old(configs.instance)
    ensures old(configs.instance).None? ==> (configs.instance.Some? <==> LoadConfig(env).Success?)
    ensures old(configs.instance).None? && configs.instance.Some? ==>
              fresh(configs.instance.value) && configs.instance.value.tabCred == LoadCredentials(env)
    ensures configs.constructions == old(configs.constructions) + (if old(configs.instance).None? then 1 else 0)
  {
    var args := Args(selector);

    trace := [ConfigLoad];
    var cfg := configs.Call(env);
    if cfg.Failure? {
      return Raised(ValueError(Message(cfg.error))), trace;
    }

    var scriptFn := Lookup(args.script);
    if scriptFn.None? {
      trace := trace + [Print(Stderr, NotFound(args.script))];
      return Returned(2), trace;
    }

    if world.connectFault.Some? {
      return Raised(ConnectionError(world.connectFault.value)), trace;
    }
    trace := trace + [EnterSession];
    trace := trace + [RunScript(scriptFn.value, cfg.value.tabCred, args)];
    var fault := world.scriptFault;
    trace := trace + [ExitSession];
    if fault.Some? {
      return Raised(ScriptError(fault.value)), trace;
    }
    return Returned(0), trace;
  }

  /** The process exit status: `SystemExit(main())`, or 1 for an uncaught exception. */
  function ExitStatus(c: Completion): (s: int)
    ensures c.Raised? ==> s != 0 && s != 2
    ensures c.Returned? ==> s == c.code
  {
    match c
    case Returned(code) => code
    case Raised(_) => 1
  }

  /** A trace in which no session is entered and no script runs. */
  predicate NoSession(trace: seq<Event>) {
    forall i :: 0 <= i < |trace| ==> !trace[i].EnterSession? && !trace[i].RunScript?
  }

  /**
   * Every script call happens strictly inside the session scope, and a
   * trace that enters the session ends by exiting it.
   */
  predicate Scoped(trace: seq<Event>) {
    && (forall i :: 0 <= i < |trace| && trace[i].RunScript? ==>
          exists j, k :: 0 <= j < i < k < |trace| && trace[j].EnterSession? && trace[k].ExitSession?)
    && (EnterSession in trace ==> trace[|trace| - 1] == ExitSession)
  }

  /** Every run keeps the script call inside the session scope. */
  lemma SessionScoped(args: Args, config: Result<TabCredentials, ConfigError>, world: Collaborators)
    ensures Scoped(MainSpec(args, config, world).trace)
  {
    var t := MainSpec(args, config, world).trace;
    if |t| == 4 {
      assert t[2].RunScript? ==> t[1].EnterSession? && t[3].ExitSession?;
    }
  }

  /** A configuration error fails the run before the lookup, for every selector. */
  lemma ConfigErrorFailsEverySelector(args: Args, other: Args, e: ConfigError, world: Collaborators)
    ensures MainSpec(args, Failure(e), world).completion == Raised(ValueError(Message(e)))
    ensures MainSpec(args, Failure(e), world) == MainSpec(other, Failure(e), world)
    ensures NoSession(MainSpec(args, Failure(e), world).trace)
    ensures ExitStatus(MainSpec(args, Failure(e), world).completion) == 1
  {
  }

  /** An advertised selector without a script prints a diagnostic and returns 2, opening nothing. */
  lemma UnregisteredSelector(args: Args, cred: TabCredentials, world: Collaborators)
    requires args.script in BuildParser().choices && args.script !in Scripts
    ensures MainSpec(args, Success(cred), world).completion == Returned(2)
    ensures Print(Stderr, "No script found: " + args.script) in MainSpec(args, Success(cred), world).trace
    ensures NoSession(MainSpec(args, Success(cred), world).trace)
  {
  }

  /**
   * A registered selector, once the session is entered, runs the mapped
   * script exactly once with the loaded credentials and the parsed args, and
   * `main` returns 0 exactly when the script completes normally.
   */
  lemma RegisteredSelectorRunsOnce(args: Args, cred: TabCredentials, world: Collaborators)
    requires args.script in Scripts && world.connectFault.None?
    ensures multiset(MainSpec(args, Success(cred), world).trace)[RunScript(Scripts[args.script], cred, args)] == 1
    ensures forall e :: e in MainSpec(args, Success(cred), world).trace && e.RunScript? ==>
              e == RunScript(Scripts[args.script], cred, args)
    ensures multiset(MainSpec(args, Success(cred), world).trace)[EnterSession] == 1
    ensures multiset(MainSpec(args, Success(cred), world).trace)[ExitSession] == 1
    ensures MainSpec(args, Success(cred), world).completion == Returned(0) <==> world.scriptFault.None?
    ensures world.scriptFault.Some? ==>
              MainSpec(args, Success(cred), world).completion == Raised(ScriptError(world.scriptFault.value))
  {
  }

  /**
   * A registered selector whose session cannot be entered raises the
   * connection error before any script runs, and there is no session to exit.
   */
  lemma ConnectionFaultRunsNothing(args: Args, cred: TabCredentials, world: Collaborators)
    requires args.script in Scripts && world.connectFault.Some?
    ensures MainSpec(args, Success(cred), world).completion == Raised(ConnectionError(world.connectFault.value))
    ensures NoSession(MainSpec(args, Success(cred), world).trace)
    ensures ExitSession !in MainSpec(args, Success(cred), world).trace
  {
  }

  /** The three kinds of ending are told apart by the process exit status. */
  lemma ExitStatuses(args: Args, config: Result<TabCredentials, ConfigError>, world: Collaborators)
    ensures ExitStatus(MainSpec(args, config, world).completion) == 0 <==>
              config.Success? && args.script in Scripts && world.connectFault.None? && world.scriptFault.None?
    ensures ExitStatus(MainSpec(args, config, world).completion) == 2 <==>
              config.Success? && args.script !in Scripts
    ensures MainSpec(args, config, world).completion.Returned? ==>
              ExitStatus(MainSpec(args, config, world).completion) in {0, 2}
  {
  }

  /** The environment of the scenario below: every required variable but `TAB_SITE_ID`. */
  const NoSiteIdEnv: Env := map[PatNameVar := "n", PatSecretVar := "s", SiteUrlVar := "https://example.test"]

  lemma NoSiteIdCredentials()
    ensures LoadCredentials(NoSiteIdEnv) == TabCredentials("n", "s", "", "https://example.test", None)
  {
  }

  lemma NoSiteIdMissing()
    ensures MissingFields(TabCredentials("n", "s", "", "https://example.test", None)) == [SiteId]
  {
  }

  lemma SiteIdMessage()
    ensures Message(MissingVars(["site_id"])) == "Missing Tableau config vars: ['site_id']"
  {
  }

  /** With only `TAB_SITE_ID` absent, the run raises naming `site_id` alone and opens no session. */
  lemma MissingSiteIdScenario(selector: string)
    ensures var r := MainSpec(Args(selector), LoadConfig(NoSiteIdEnv), Collaborators(None, None));
            && r.completion == Raised(ValueError("Missing Tableau config vars: ['site_id']"))
            && r.trace == [ConfigLoad]
  {
    NoSiteIdCredentials();
    NoSiteIdMissing();
    assert Names([SiteId]) == ["site_id"];
    SiteIdMessage();
  }

  /** With everything set and the registered selector, the run returns 0 and runs the script once. */
  lemma RegisteredHappyPathScenario(env: Env)
    requires PatNameVar in env && PatSecretVar in env && SiteIdVar in env && SiteUrlVar in env
    requires env[PatNameVar] != "" && env[PatSecretVar] != "" && env[SiteIdVar] != "" && env[SiteUrlVar] != ""
    ensures var r := MainSpec(Args("hyper_api_create_extract"), LoadConfig(env), Collaborators(None, None));
            && ExitStatus(r.completion) == 0
            && r.trace == [ConfigLoad, EnterSession,
                           RunScript(RunHyperApiCreateExtract, LoadCredentials(env), Args("hyper_api_create_extract")),
                           ExitSession]
  {
  }
}
