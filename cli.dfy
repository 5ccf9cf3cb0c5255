/** One invocation of the tool: the `action` callback (merge the options,
    require an instance) and `executeQuery` (validate the authentication
    options, settle the project, build and log the payload, send it, and
    format the reply). The detected default project, the reply of the
    remote call and the reply's JSON serialisation are parameters. */
module Cli {
  import opened Wrappers
  import opened Js
  import opened Env
  import opened Options
  import opened Auth
  import opened Payload
  import opened Format

  /** Every way an invocation ends with exit status 1. */
  datatype CliError =
    | MissingInstance
    | AuthFailure(error: AuthError)
    | NoProject
    | RequestFailed

  /** What a successful invocation did: where it sent which payload, what
      it logged, and what `formatOutput` wrote to standard output (the
      logger's lines, which share standard output, are not part of it). */
  datatype Execution = Execution(
    projectId: string,
    instanceId: string,
    sent: ExecuteSqlPayload,
    logged: ExecuteSqlPayload,
    output: string)

  /** `options.format || "text"`. */
  function EffectiveFormat(m: MergedOptions): (f: string)
    ensures f != ""
    ensures StringTruthy(m.format) ==> f == m.format.value
    ensures m.format != Some(f) ==> f == "text"
  {
    if StringTruthy(m.format) then m.format.value else "text"
  }

  /** The project: the configured one when set, else the detected one. */
  predicate ProjectChosen(m: MergedOptions, detected: Option<string>, projectId: string)
  {
    && projectId != ""
    && (if StringTruthy(m.project) then projectId == m.project.value
        else detected == Some(projectId))
  }

  /** What `executeQuery` promises for merged options `m`: each failure in
      the order the code checks for it, and on success the project, the
      payload sent, the masked payload logged and the output written. */
  predicate ExecuteQuerySpec(query: string, m: MergedOptions, detected: Option<string>,
                             reply: Option<ExecuteSqlResponse>, json: string, r: Result<Execution, CliError>)
  {
    && (ValidateAuthOptions(m).Fail? ==> r == Failure(AuthFailure(ValidateAuthOptions(m).error)))
    && ((ValidateAuthOptions(m) == Pass && !StringTruthy(m.project) && !StringTruthy(detected))
          ==> r == Failure(NoProject))
    && ((ValidateAuthOptions(m) == Pass && (StringTruthy(m.project) || StringTruthy(detected)) && reply.None?)
          ==> r == Failure(RequestFailed))
    && ((ValidateAuthOptions(m) == Pass && (StringTruthy(m.project) || StringTruthy(detected)) && reply.Some?)
          ==> r.Success?)
    && (r.Failure? ==> !r.error.MissingInstance?)
    && (r.Success? ==>
          && ValidateAuthOptions(m) == Pass
          && reply.Some?
          && ProjectChosen(m, detected, r.value.projectId)
          && r.value.instanceId == m.instance
          && BuiltFrom(query, m, r.value.sent)
          && MaskedCopy(r.value.sent, r.value.logged)
          && r.value.output == (if EffectiveFormat(m) == "json" then json + "\n"
                                else Unlines(ResponseLines(reply.value))))
  }

  method ExecuteQuery(query: string, m: MergedOptions, detected: Option<string>,
                      reply: Option<ExecuteSqlResponse>, json: string) returns (r: Result<Execution, CliError>)
    ensures ExecuteQuerySpec(query, m, detected, reply, json, r)
  {
    var validation := ValidateAuthOptions(m);
    if validation.Fail? {
      return Failure(AuthFailure(validation.error));
    }
    var projectId := if StringTruthy(m.project) then m.project.value else "";
    if projectId == "" {
      if !StringTruthy(detected) {
        return Failure(NoProject);
      }
      projectId := detected.value;
    }
    var payload := BuildPayload(query, m);
    var debugPayload := MaskPassword(payload);
    if reply.None? {
      return Failure(RequestFailed);
    }
    var output := FormatOutput(reply.value, EffectiveFormat(m), json);
    r := Success(Execution(projectId, m.instance, payload, debugPayload, output));
  }

  /** The `action` callback: the instance check comes before everything
      that `executeQuery` does. */
  method Action(query: string, raw: RawOptions, env: Environment, detected: Option<string>,
                reply: Option<ExecuteSqlResponse>, json: string) returns (r: Result<Execution, CliError>)
    ensures MergeWithEnvVars(raw, env).instance == "" <==> r == Failure(MissingInstance)
    ensures MergeWithEnvVars(raw, env).instance != "" ==>
              ExecuteQuerySpec(query, MergeWithEnvVars(raw, env), detected, reply, json, r)
  {
    var merged := MergeWithEnvVars(raw, env);
    if merged.instance == "" {
      return Failure(MissingInstance);
    }
    r := ExecuteQuery(query, merged, detected, reply, json);
  }

  /** Whatever was sent satisfies the authentication rules: at most one
      credential, and a user with a password or a secret path. */
  lemma SentPayloadHasOneCredential(query: string, m: MergedOptions, detected: Option<string>,
                                    reply: Option<ExecuteSqlResponse>, json: string, e: Execution)
    requires ExecuteQuerySpec(query, m, detected, reply, json, Success(e))
    ensures var p := e.sent;
      && (p.password.Some? ==> p.secretPath.None? && p.accessToken.None? && p.autoIamAuthn.None?)
      && (p.secretPath.Some? ==> p.accessToken.None? && p.autoIamAuthn.None?)
      && (p.accessToken.Some? ==> p.autoIamAuthn.None?)
      && (p.password.Some? || p.secretPath.Some? ==> p.user.Some? && p.user.value != "")
  {
    ValidatedOptions(m);
  }

  /** The logged payload never holds a real password: it differs from the
      sent one at most in a password that the mask replaced. */
  lemma LoggedPayloadHidesPassword(query: string, m: MergedOptions, detected: Option<string>,
                                   reply: Option<ExecuteSqlResponse>, json: string, e: Execution)
    requires ExecuteQuerySpec(query, m, detected, reply, json, Success(e))
    ensures e.logged.password.Some? <==> e.sent.password.Some?
    ensures e.logged.password.Some? ==> e.logged.password == Some(MASK)
    ensures e.logged.(password := e.sent.password) == e.sent
  {
  }

  /** Database, user and password in the options, nothing else: the
      invocation sends exactly those three beside the statement, and logs
      the same payload with the password masked. */
  lemma PasswordLoginExample(m: MergedOptions, detected: Option<string>,
                             reply: Option<ExecuteSqlResponse>, json: string, e: Execution)
    requires m.instance == "i1" && m.database == Some("d1") && m.user == Some("u1") && m.password == Some("p1")
    requires m.secretPath == None && m.accessToken == None && !m.autoIamAuthn && m.limit == None
    requires ExecuteQuerySpec("SELECT 1", m, detected, reply, json, Success(e))
    ensures e.sent == ExecuteSqlPayload("SELECT 1", Some("d1"), Some("u1"), Some("p1"), None, None, None, None, None)
    ensures e.logged == ExecuteSqlPayload("SELECT 1", Some("d1"), Some("u1"), Some(MASK), None, None, None, None, None)
  {
    BuiltFromUnique("SELECT 1", m, e.sent);
  }

  // ---------------------------------------------------------------------
  // The `--format` default
  // ---------------------------------------------------------------------

  /** The argument parser as declared: `--format` defaults to "text", so
      the option reaches the merge already set. */
  function ApplyCommanderDefaults(raw: RawOptions): (r: RawOptions)
    ensures r.format.Some?
    ensures raw.format.None? ==> r.format == Some("text")
    ensures raw.format.Some? ==> r == raw
    ensures r.(format := raw.format) == raw
  {
    if raw.format.None? then raw.(format := Some("text")) else raw
  }

  /** One invocation as the program is written: the parser fills in the
      declared `--format` default, then the `action` callback runs. With no
      `--format` on the command line a successful invocation writes text,
      whatever CLOUD_SQL_FORMAT says. */
  method Invoke(query: string, raw: RawOptions, env: Environment, detected: Option<string>,
                reply: Option<ExecuteSqlResponse>, json: string) returns (r: Result<Execution, CliError>)
    ensures MergeWithEnvVars(raw, env).instance == "" <==> r == Failure(MissingInstance)
    ensures MergeWithEnvVars(raw, env).instance != "" ==>
              ExecuteQuerySpec(query, MergeWithEnvVars(ApplyCommanderDefaults(raw), env), detected, reply, json, r)
    ensures raw.format.None? && r.Success? ==> r.value.output == Unlines(ResponseLines(reply.value))
  {
    var parsed := ApplyCommanderDefaults(raw);
    assert MergeWithEnvVars(parsed, env).instance == MergeWithEnvVars(raw, env).instance;
    r := Action(query, parsed, env, detected, reply, json);
  }

  /** As declared, CLOUD_SQL_FORMAT has no effect: with no `--format` on
      the command line and the variable set to "json", the output is text. */
  lemma FormatVariableIgnored(raw: RawOptions, env: Environment)
    requires raw.format == None
    requires FORMAT in env && env[FORMAT] == "json"
    ensures EffectiveFormat(MergeWithEnvVars(ApplyCommanderDefaults(raw), env)) == "text"
  {
    var withDefault := ApplyCommanderDefaults(raw);
    assert withDefault.format == Some("text");
  }

  /** Without the parser default, as the rest of this model takes it, the
      variable decides when no `--format` is given, and "text" remains the
      default through `options.format || "text"`. */
  lemma FormatVariableHonoured(raw: RawOptions, env: Environment)
    requires raw.format == None
    ensures FORMAT in env && env[FORMAT] != "" ==> EffectiveFormat(MergeWithEnvVars(raw, env)) == env[FORMAT]
    ensures FORMAT !in env || env[FORMAT] == "" ==> EffectiveFormat(MergeWithEnvVars(raw, env)) == "text"
  {
  }
}
