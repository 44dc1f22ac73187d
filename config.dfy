/**
 * Configuration loading: the frozen credential record, the environment
 * defaults applied by `ConfigWrapper.__init__`, the missing-field check of
 * `ConfigWrapper._validate`, and the per-class instance cache kept by the
 * `Singleton` metaclass.
 */
module Config {
  import opened Wrappers

  /** The process environment as `os.getenv` sees it. */
  type Env = map<string, string>

  const PatNameVar: string := "TAB_PAT_NAME"
  const PatSecretVar: string := "TAB_PAT_SECRET"
  const SiteIdVar: string := "TAB_SITE_ID"
  const SiteUrlVar: string := "TAB_SITE_URL"
  const ApiVersionVar: string := "TAB_API_VERSION"

  /** `os.getenv(key, default)`. */
  function GetEnv(env: Env, key: string, default: string): string {
    if key in env then env[key] else default
  }

  /** `os.getenv(key)`: `None` when the variable is absent. */
  function GetEnvOpt(env: Env, key: string): Option<string> {
    if key in env then Some(env[key]) else None
  }

  /**
   * The frozen dataclass `TabCredentials`. A datatype value has no update
   * in place: changing a field builds a different value.
   */
  datatype TabCredentials = TabCredentials(
    patName: string,
    patSecret: string,
    siteId: string,
    siteUrl: string,
    apiVersion: Option<string>)

  /** The fields of `TabCredentials`. */
  datatype Field = PatName | PatSecret | SiteId | SiteUrl | ApiVersion

  /** The fields in declaration order, the order `vars()` lists them in. */
  const Fields: seq<Field> := [PatName, PatSecret, SiteId, SiteUrl, ApiVersion]

  /** Position of a field in the declaration. */
  function Ordinal(f: Field): nat {
    match f
    case PatName => 0
    case PatSecret => 1
    case SiteId => 2
    case SiteUrl => 3
    case ApiVersion => 4
  }

  /** The attribute name of a field, the key `vars()` reports it under. */
  function FieldName(f: Field): string {
    match f
    case PatName => "pat_name"
    case PatSecret => "pat_secret"
    case SiteId => "site_id"
    case SiteUrl => "site_url"
    case ApiVersion => "api_version"
  }

  /** The environment variable a field is read from. */
  function VarName(f: Field): string {
    match f
    case PatName => PatNameVar
    case PatSecret => PatSecretVar
    case SiteId => SiteIdVar
    case SiteUrl => SiteUrlVar
    case ApiVersion => ApiVersionVar
  }

  /** The value `vars(c)` holds for a field; `None` is Python's `None`. */
  function Value(c: TabCredentials, f: Field): Option<string> {
    match f
    case PatName => Some(c.patName)
    case PatSecret => Some(c.patSecret)
    case SiteId => Some(c.siteId)
    case SiteUrl => Some(c.siteUrl)
    case ApiVersion => c.apiVersion
  }

  /** Python's `not value` for a `str` or `None`. */
  predicate Falsy(v: Option<string>) {
    v.None? || v.value == ""
  }

  /** The fields of a sequence listed in strictly increasing declaration order. */
  predicate InDeclarationOrder(fs: seq<Field>) {
    forall i, j :: 0 <= i < j < |fs| ==> Ordinal(fs[i]) < Ordinal(fs[j])
  }

  lemma FieldsInDeclarationOrder()
    ensures InDeclarationOrder(Fields)
    ensures forall f: Field :: f in Fields
  {
    forall f: Field ensures f in Fields {
      assert Fields[Ordinal(f)] == f;
    }
  }

  /** Only the optional field is called "api_version". */
  lemma ApiVersionByName(f: Field)
    ensures FieldName(f) == "api_version" <==> f == ApiVersion
  {
  }

  /** The test of the comprehension in `_validate`: `name != "api_version" and not value`. */
  predicate Kept(c: TabCredentials, f: Field) {
    FieldName(f) != "api_version" && Falsy(Value(c, f))
  }

  /**
   * The comprehension of `_validate` over the given fields: keep every field
   * whose name is not "api_version" and whose value is falsy, in order.
   */
  function MissingFrom(c: TabCredentials, fs: seq<Field>): (r: seq<Field>)
    requires InDeclarationOrder(fs)
    ensures forall f :: f in r <==> f in fs && Kept(c, f)
    ensures InDeclarationOrder(r)
    decreases |fs|
  {
    if fs == [] then []
    else
      var rest := MissingFrom(c, fs[1..]);
      assert forall f :: f in fs <==> f == fs[0] || f in fs[1..];
      if Kept(c, fs[0]) then
        assert forall f :: f in rest ==> Ordinal(fs[0]) < Ordinal(f);
        [fs[0]] + rest
      else
        rest
  }

  /**
   * The `missing` list of `_validate`, as fields: exactly the four required
   * fields whose value is the empty string, in declaration order, each once.
   */
  function MissingFields(c: TabCredentials): (r: seq<Field>)
    ensures forall f :: f in r <==> f != ApiVersion && Value(c, f) == Some("")
    ensures ApiVersion !in r
    ensures InDeclarationOrder(r)
    ensures forall i, j :: 0 <= i < j < |r| ==> r[i] != r[j]
  {
    FieldsInDeclarationOrder();
    forall f ensures FieldName(f) == "api_version" <==> f == ApiVersion {
      ApiVersionByName(f);
    }
    MissingFrom(c, Fields)
  }

  /** The attribute names of a sequence of fields. */
  function Names(fs: seq<Field>): seq<string> {
    seq(|fs|, i requires 0 <= i < |fs| => FieldName(fs[i]))
  }

  /** The `ValueError` raised by `_validate`, carrying the missing names. */
  datatype ConfigError = MissingVars(missing: seq<string>)

  /** `repr` of a Python `str` whose text holds no quote or backslash. */
  function Quote(s: string): string {
    "'" + s + "'"
  }

  /** The items of a Python list `repr`, separated by ", ". */
  function JoinQuoted(xs: seq<string>): string
    decreases |xs|
  {
    if xs == [] then ""
    else if |xs| == 1 then Quote(xs[0])
    else Quote(xs[0]) + ", " + JoinQuoted(xs[1..])
  }

  /** `repr` of a Python list of strings, as an f-string renders it. */
  function ListRepr(xs: seq<string>): (r: string)
    ensures |r| >= 2 && r[0] == '[' && r[|r| - 1] == ']'
    ensures r == "[]" <==> xs == []
  {
    "[" + JoinQuoted(xs) + "]"
  }

  /** The text of the error: `f"Missing Tableau config vars: {missing}"`. */
  function Message(e: ConfigError): (m: string)
    ensures MessagePrefix <= m
    ensures forall k :: 0 <= k < |e.missing| ==> Contains(m, Quote(e.missing[k]))
  {
    MessageNamesEveryField(e.missing);
    MessagePrefix + ListRepr(e.missing)
  }

  const MessagePrefix: string := "Missing Tableau config vars: "

  /** `t` occurs in `s` as a contiguous substring. */
  ghost predicate Contains(s: string, t: string) {
    exists i :: 0 <= i && i + |t| <= |s| && Slice(s, i, |t|) == t
  }

  /** The `n` characters of `s` starting at `i`. */
  function Slice(s: string, i: nat, n: nat): string
    requires i + n <= |s|
  {
    s[i..i + n]
  }

  lemma ContainsWithin(a: string, s: string, b: string, t: string)
    requires Contains(s, t)
    ensures Contains(a + s + b, t)
  {
    var i :| 0 <= i && i + |t| <= |s| && Slice(s, i, |t|) == t;
    var w := a + s + b;
    assert Slice(w, |a| + i, |t|) == Slice(s, i, |t|);
  }

  lemma ContainsItself(t: string)
    ensures Contains(t, t)
  {
    assert Slice(t, 0, |t|) == t;
  }

  lemma {:induction false} JoinQuotedContainsEach(xs: seq<string>, k: nat)
    requires k < |xs|
    ensures Contains(JoinQuoted(xs), Quote(xs[k]))
    decreases |xs|
  {
    if |xs| == 1 {
      ContainsItself(Quote(xs[0]));
    } else if k == 0 {
      ContainsItself(Quote(xs[0]));
      ContainsWithin("", Quote(xs[0]), ", " + JoinQuoted(xs[1..]), Quote(xs[0]));
      assert "" + Quote(xs[0]) + (", " + JoinQuoted(xs[1..])) == JoinQuoted(xs);
    } else {
      JoinQuotedContainsEach(xs[1..], k - 1);
      ContainsWithin(Quote(xs[0]) + ", ", JoinQuoted(xs[1..]), "", Quote(xs[k]));
      assert Quote(xs[0]) + ", " + JoinQuoted(xs[1..]) + "" == JoinQuoted(xs);
    }
  }

  /** The message rendered for a list contains the quoted name at a given index. */
  lemma MessageNamesField(xs: seq<string>, k: nat)
    requires k < |xs|
    ensures Contains(MessagePrefix + ListRepr(xs), Quote(xs[k]))
  {
    var body := JoinQuoted(xs);
    JoinQuotedContainsEach(xs, k);
    ContainsWithin(MessagePrefix + "[", body, "]", Quote(xs[k]));
    assert MessagePrefix + "[" + body + "]" == MessagePrefix + ListRepr(xs);
  }

  /** The message rendered for a list names every element, quoted, not just the first. */
  lemma MessageNamesEveryField(xs: seq<string>)
    ensures forall k :: 0 <= k < |xs| ==> Contains(MessagePrefix + ListRepr(xs), Quote(xs[k]))
  {
    forall k | 0 <= k < |xs|
      ensures Contains(MessagePrefix + ListRepr(xs), Quote(xs[k]))
    {
      MessageNamesField(xs, k);
    }
  }

  /**
   * `_validate`: raise exactly when the missing list is non-empty, with an
   * error that lists every missing field and names each one in its message.
   */
  function Validate(c: TabCredentials): (r: Outcome<ConfigError>)
    ensures r.Fail? <==> exists f :: f != ApiVersion && Value(c, f) == Some("")
    ensures r.Fail? ==> r.error.missing == Names(MissingFields(c))
    ensures r.Fail? ==> forall k :: 0 <= k < |r.error.missing| ==>
                          Contains(Message(r.error), Quote(r.error.missing[k]))
  {
    var missing := MissingFields(c);
    if missing != [] then
      Fail(MissingVars(Names(missing)))
    else
      Pass
  }

  /** The credential record `ConfigWrapper.__init__` builds from the environment. */
  function LoadCredentials(env: Env): (c: TabCredentials)
    ensures c.apiVersion == None <==> ApiVersionVar !in env
  {
    TabCredentials(
      patName := GetEnv(env, PatNameVar, ""),
      patSecret := GetEnv(env, PatSecretVar, ""),
      siteId := GetEnv(env, SiteIdVar, ""),
      siteUrl := GetEnv(env, SiteUrlVar, ""),
      apiVersion := GetEnvOpt(env, ApiVersionVar))
  }

  /** Construction plus validation, as values: the credentials or the error raised. */
  function LoadConfig(env: Env): (r: Result<TabCredentials, ConfigError>)
    ensures r.Success? ==> r.value == LoadCredentials(env)
    ensures r.Failure? ==> r.error.missing != [] && r.error.missing == Names(MissingFields(LoadCredentials(env)))
  {
    var c := LoadCredentials(env);
    match Validate(c)
    case Pass => Success(c)
    case Fail(e) => Failure(e)
  }

  /** Loading succeeds exactly when every required variable is present and non-empty. */
  lemma LoadConfigIffAllSet(env: Env)
    ensures LoadConfig(env).Success? <==> Validate(LoadCredentials(env)).Pass?
    ensures Validate(LoadCredentials(env)).Pass? <==>
              forall f :: f != ApiVersion ==> VarName(f) in env && env[VarName(f)] != ""
  {
    forall f | f != ApiVersion
      ensures Value(LoadCredentials(env), f) == Some("") <==> !(VarName(f) in env && env[VarName(f)] != "")
    {
      CredentialsFromEnv(env, f);
    }
  }

  /** Each field holds its variable's value; an absent required variable reads as "". */
  lemma CredentialsFromEnv(env: Env, f: Field)
    ensures f != ApiVersion ==> Value(LoadCredentials(env), f) == Some(if VarName(f) in env then env[VarName(f)] else "")
    ensures f == ApiVersion ==> Value(LoadCredentials(env), f) == (if ApiVersionVar in env then Some(env[ApiVersionVar]) else None)
  {
  }

  /** An absent required variable and one set to "" give the same record. */
  lemma AbsentEqualsEmpty(env: Env, f: Field)
    requires f != ApiVersion
    ensures LoadCredentials(env - {VarName(f)}) == LoadCredentials(env[VarName(f) := ""])
  {
  }

  /** A required field is missing exactly when its variable is absent or empty. */
  lemma MissingFromEnv(env: Env, f: Field)
    ensures f in MissingFields(LoadCredentials(env)) <==>
              f != ApiVersion && (VarName(f) !in env || env[VarName(f)] == "")
  {
  }

  /** Whatever `TAB_API_VERSION` holds, absent or "", it never makes loading fail. */
  lemma ApiVersionNeverRequired(env: Env, v: Option<string>)
    ensures LoadCredentials(env).apiVersion == GetEnvOpt(env, ApiVersionVar)
    ensures ApiVersionVar !in env ==> LoadCredentials(env).apiVersion == None
    ensures Validate(LoadCredentials(env).(apiVersion := v)) == Validate(LoadCredentials(env))
  {
    var c := LoadCredentials(env);
    var c' := c.(apiVersion := v);
    forall f | f != ApiVersion ensures Value(c', f) == Value(c, f) { }
    assert MissingFields(c') == MissingFields(c) by {
      MissingFromRequiredOnly(c, c');
    }
  }

  /** Two records that agree on the required fields have the same missing list. */
  lemma MissingFromRequiredOnly(c: TabCredentials, c': TabCredentials)
    requires forall f :: f != ApiVersion ==> Value(c', f) == Value(c, f)
    ensures MissingFields(c') == MissingFields(c)
  {
    FieldsInDeclarationOrder();
    SameFilter(c, c', Fields);
  }

  lemma {:induction false} SameFilter(c: TabCredentials, c': TabCredentials, fs: seq<Field>)
    requires InDeclarationOrder(fs)
    requires forall f :: f != ApiVersion ==> Value(c', f) == Value(c, f)
    ensures MissingFrom(c', fs) == MissingFrom(c, fs)
    decreases |fs|
  {
    if fs != [] {
      SameFilter(c, c', fs[1..]);
    }
  }

  /** The record `ConfigWrapper` wraps; nothing in `wrapper/config.py` or `src/main.py` rebinds `tab_cred`. */
  class ConfigWrapper {
    const tabCred: TabCredentials

    constructor (cred: TabCredentials)
      ensures tabCred == cred
    {
      tabCred := cred;
    }
  }

  /**
   * `ConfigWrapper.__init__`: read the environment, then validate. The
   * object is allocated only once validation passed; the half-built object
   * Python discards on a raise is never observable.
   */
  method NewConfigWrapper(env: Env) returns (r: Result<ConfigWrapper, ConfigError>)
    ensures r.Success? <==> LoadConfig(env).Success?
    ensures r.Success? ==> fresh(r.value) && r.value.tabCred == LoadCredentials(env)
    ensures r.Success? ==> Validate(r.value.tabCred).Pass?
    ensures r.Failure? ==> r.error == LoadConfig(env).error
  {
    var cred := LoadCredentials(env);
    var check := Validate(cred);
    if check.Fail? {
      return Failure(check.error);
    }
    var w := new ConfigWrapper(cred);
    return Success(w);
  }

  /** What a caller of `ConfigWrapper()` gets, as values. */
  function CredentialsOf(r: Result<ConfigWrapper, ConfigError>): Result<TabCredentials, ConfigError> {
    match r
    case Success(w) => Success(w.tabCred)
    case Failure(e) => Failure(e)
  }

  /** What `ConfigWrapper()` yields given the cache content and the environment. */
  function Expected(cached: Option<ConfigWrapper>, env: Env): Result<TabCredentials, ConfigError> {
    match cached
    case Some(w) => Success(w.tabCred)
    case None => LoadConfig(env)
  }

  /**
   * The `Singleton` metaclass's `_instances` entry for `ConfigWrapper`:
   * empty until a construction succeeds, then the one stored instance.
   */
  class Singleton {
    var instance: Option<ConfigWrapper>
    /** How many times `ConfigWrapper.__init__` has run. */
    ghost var constructions: nat

    /** A stored instance always passed validation. */
    ghost predicate Valid()
      reads this
    {
      instance.Some? ==> Validate(instance.value.tabCred).Pass?
    }

    constructor ()
      ensures Valid() && instance == None && constructions == 0
    {
      instance := None;
      constructions := 0;
    }

    /**
     * `Singleton.__call__`: construct and store on the first call; later
     * calls return the stored object without running `__init__` or reading
     * the environment. A construction that raises stores nothing.
     */
    method Call(env: Env) returns (r: Result<ConfigWrapper, ConfigError>)
      requires Valid()
      modifies this
      ensures Valid()
      ensures CredentialsOf(r) == Expected(old(instance), env)
      ensures old(instance).Some? ==>
                r == Success(old(instance).value) && instance == old(instance) &&
                constructions == old(constructions)
      ensures old(instance).None? ==> constructions == old(constructions) + 1
      ensures old(instance).None? && r.Success? ==>
                fresh(r.value) && r.value.tabCred == LoadCredentials(env) && instance == Some(r.value)
      ensures r.Failure? ==> instance == None
    {
      if instance.None? {
        constructions := constructions + 1;
        var made := NewConfigWrapper(env);
        if made.Failure? {
          assert LoadConfig(env) == Failure(made.error);
          return Failure(made.error);
        }
        assert LoadConfig(env) == Success(made.value.tabCred);
        instance := Some(made.value);
      }
      return Success(instance.value);
    }
  }

  /** Two calls in one process: the second returns the first's object, whatever the environment then holds. */
  method RepeatedCallsShareInstance(env1: Env, env2: Env)
    returns (first: Result<ConfigWrapper, ConfigError>, second: Result<ConfigWrapper, ConfigError>)
    ensures first.Success? <==> LoadConfig(env1).Success?
    ensures first.Success? ==> second == first && first.value.tabCred == LoadCredentials(env1)
  {
    var cache := new Singleton();
    first := cache.Call(env1);
    second := cache.Call(env2);
  }

  /** A failed construction leaves the cache empty, so the next call constructs again. */
  method FailedConstructionIsRetried(bad: Env, good: Env)
    returns (first: Result<ConfigWrapper, ConfigError>, second: Result<ConfigWrapper, ConfigError>)
    requires LoadConfig(bad).Failure? && LoadConfig(good).Success?
    ensures first.Failure? && first.error == LoadConfig(bad).error
    ensures second.Success? && second.value.tabCred == LoadCredentials(good)
  {
    var cache := new Singleton();
    first := cache.Call(bad);
    second := cache.Call(good);
  }
}
