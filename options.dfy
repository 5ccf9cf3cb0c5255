/** Command-line options and their merge with the environment
    (`mergeWithEnvVars`): each option takes the command-line value when
    that value is truthy and falls back to its environment variable. */
module Options {
  import opened Wrappers
  import opened Js
  import opened Env

  /** The options as the argument parser hands them over; any may be
      undefined. The limit has already been through `parseInt`. */
  datatype RawOptions = RawOptions(
    project: Option<string>,
    instance: Option<string>,
    database: Option<string>,
    user: Option<string>,
    password: Option<string>,
    accessToken: Option<string>,
    secretPath: Option<string>,
    autoIamAuthn: Option<bool>,
    format: Option<string>,
    limit: Option<Number>,
    verbose: Option<bool>)

  /** The options after the merge: the instance is always a string, the
      flags always booleans, and the limit never NaN. */
  datatype MergedOptions = MergedOptions(
    project: Option<string>,
    instance: string,
    database: Option<string>,
    user: Option<string>,
    password: Option<string>,
    accessToken: Option<string>,
    secretPath: Option<string>,
    autoIamAuthn: bool,
    format: Option<string>,
    limit: Option<int>,
    verbose: bool)

  /** `cli || getEnvValue(name)` obeys command-line precedence. */
  predicate Precedence(cli: Option<string>, env: Environment, name: string, merged: Option<string>)
  {
    && (StringTruthy(cli) ==> merged == cli)
    && (!StringTruthy(cli) ==> merged == GetEnvValue(env, name))
  }

  /** `cli || getEnvValue(name)`. */
  function Fallback(cli: Option<string>, env: Environment, name: string): (r: Option<string>)
    ensures Precedence(cli, env, name, r)
  {
    OrString(cli, GetEnvValue(env, name))
  }

  /** `cli || getEnvValue(INSTANCE) || ""`. */
  function FallbackInstance(cli: Option<string>, env: Environment): (r: string)
    ensures StringTruthy(cli) ==> r == cli.value
    ensures !StringTruthy(cli) && INSTANCE in env ==> r == env[INSTANCE]
    ensures !StringTruthy(cli) && INSTANCE !in env ==> r == ""
  {
    match OrString(cli, GetEnvValue(env, INSTANCE))
    case Some(v) => v
    case None => ""
  }

  /** `cli || getEnvNumber(LIMIT)`. */
  function FallbackLimit(cli: Option<Number>, env: Environment): (r: Option<int>)
    ensures NumberTruthy(cli) ==> r == Some(cli.value.value)
    ensures !NumberTruthy(cli) ==> r == GetEnvNumber(env, LIMIT)
  {
    if NumberTruthy(cli) then Some(cli.value.value) else GetEnvNumber(env, LIMIT)
  }

  function MergeWithEnvVars(raw: RawOptions, env: Environment): (m: MergedOptions)
    ensures Precedence(raw.project, env, PROJECT, m.project)
    ensures Precedence(raw.database, env, DATABASE, m.database)
    ensures Precedence(raw.user, env, USER, m.user)
    ensures Precedence(raw.password, env, PASSWORD, m.password)
    ensures Precedence(raw.accessToken, env, ACCESS_TOKEN, m.accessToken)
    ensures Precedence(raw.secretPath, env, SECRET_PATH, m.secretPath)
    ensures Precedence(raw.format, env, FORMAT, m.format)
    ensures StringTruthy(raw.instance) ==> m.instance == raw.instance.value
    ensures !StringTruthy(raw.instance) && INSTANCE in env ==> m.instance == env[INSTANCE]
    ensures !StringTruthy(raw.instance) && INSTANCE !in env ==> m.instance == ""
    ensures m.autoIamAuthn <==> raw.autoIamAuthn == Some(true) || GetEnvBoolean(env, AUTO_IAM_AUTHN)
    ensures m.verbose <==> raw.verbose == Some(true) || GetEnvBoolean(env, VERBOSE)
    ensures NumberTruthy(raw.limit) ==> m.limit == Some(raw.limit.value.value)
    ensures !NumberTruthy(raw.limit) ==> m.limit == GetEnvNumber(env, LIMIT)
  {
    MergedOptions(
      project := Fallback(raw.project, env, PROJECT),
      instance := FallbackInstance(raw.instance, env),
      database := Fallback(raw.database, env, DATABASE),
      user := Fallback(raw.user, env, USER),
      password := Fallback(raw.password, env, PASSWORD),
      accessToken := Fallback(raw.accessToken, env, ACCESS_TOKEN),
      secretPath := Fallback(raw.secretPath, env, SECRET_PATH),
      autoIamAuthn := BoolTruthy(raw.autoIamAuthn) || GetEnvBoolean(env, AUTO_IAM_AUTHN),
      format := Fallback(raw.format, env, FORMAT),
      limit := FallbackLimit(raw.limit, env),
      verbose := BoolTruthy(raw.verbose) || GetEnvBoolean(env, VERBOSE))
  }

  /** A merged string option is truthy exactly when the command-line value
      or the environment value is; an empty command-line value never hides
      a non-empty environment value. */
  lemma MergedTruthiness(raw: RawOptions, env: Environment)
    ensures var m := MergeWithEnvVars(raw, env);
      && (StringTruthy(m.project) <==> StringTruthy(raw.project) || StringTruthy(GetEnvValue(env, PROJECT)))
      && (m.instance != "" <==> StringTruthy(raw.instance) || StringTruthy(GetEnvValue(env, INSTANCE)))
      && (StringTruthy(m.database) <==> StringTruthy(raw.database) || StringTruthy(GetEnvValue(env, DATABASE)))
      && (StringTruthy(m.user) <==> StringTruthy(raw.user) || StringTruthy(GetEnvValue(env, USER)))
      && (StringTruthy(m.password) <==> StringTruthy(raw.password) || StringTruthy(GetEnvValue(env, PASSWORD)))
      && (StringTruthy(m.accessToken) <==> StringTruthy(raw.accessToken) || StringTruthy(GetEnvValue(env, ACCESS_TOKEN)))
      && (StringTruthy(m.secretPath) <==> StringTruthy(raw.secretPath) || StringTruthy(GetEnvValue(env, SECRET_PATH)))
      && (StringTruthy(m.format) <==> StringTruthy(raw.format) || StringTruthy(GetEnvValue(env, FORMAT)))
  {
  }

  /** The merged limit is a non-zero number exactly when the command-line
      limit is one or the environment supplies one. */
  lemma MergedLimitTruthiness(raw: RawOptions, env: Environment)
    ensures var m := MergeWithEnvVars(raw, env);
      (m.limit.Some? && m.limit.value != 0) <==>
        NumberTruthy(raw.limit) || (GetEnvNumber(env, LIMIT).Some? && GetEnvNumber(env, LIMIT).value != 0)
  {
  }

  /** With nothing given on the command line, every option is read from
      the environment alone. */
  lemma MergeEnvironmentOnly(env: Environment)
    ensures var m := MergeWithEnvVars(RawOptions(None, None, None, None, None, None, None, None, None, None, None), env);
      && m.project == GetEnvValue(env, PROJECT)
      && m.database == GetEnvValue(env, DATABASE)
      && m.user == GetEnvValue(env, USER)
      && m.password == GetEnvValue(env, PASSWORD)
      && m.accessToken == GetEnvValue(env, ACCESS_TOKEN)
      && m.secretPath == GetEnvValue(env, SECRET_PATH)
      && m.format == GetEnvValue(env, FORMAT)
      && m.autoIamAuthn == GetEnvBoolean(env, AUTO_IAM_AUTHN)
      && m.verbose == GetEnvBoolean(env, VERBOSE)
      && m.limit == GetEnvNumber(env, LIMIT)
      && (INSTANCE in env ==> m.instance == env[INSTANCE])
  {
  }
}
