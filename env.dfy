/** Reading the environment. The process environment is passed in
    explicitly as a map from variable names to values. */
module Env {
  import opened Wrappers
  import opened Js

  type Environment = map<string, string>

  // The variable names the tool consults, one per option.
  const PROJECT := "GOOGLE_CLOUD_PROJECT"
  const INSTANCE := "CLOUD_SQL_INSTANCE"
  const DATABASE := "CLOUD_SQL_DATABASE"
  const USER := "CLOUD_SQL_USER"
  const PASSWORD := "CLOUD_SQL_PASSWORD"
  const ACCESS_TOKEN := "CLOUD_SQL_ACCESS_TOKEN"
  const SECRET_PATH := "CLOUD_SQL_SECRET_PATH"
  const AUTO_IAM_AUTHN := "CLOUD_SQL_AUTO_IAM_AUTHN"
  const FORMAT := "CLOUD_SQL_FORMAT"
  const LIMIT := "CLOUD_SQL_LIMIT"
  const VERBOSE := "CLOUD_SQL_VERBOSE"

  /** The raw value of a variable, undefined when it is not set. */
  function GetEnvValue(env: Environment, name: string): (v: Option<string>)
    ensures v.Some? <==> name in env
    ensures v.Some? ==> v.value == env[name]
  {
    if name in env then Some(env[name]) else None
  }

  /** A flag is on only for the exact strings "true" and "1". */
  function GetEnvBoolean(env: Environment, name: string): (b: bool)
    ensures b <==> name in env && env[name] in {"true", "1"}
  {
    match GetEnvValue(env, name)
    case Some(v) => v == "true" || v == "1"
    case None => false
  }

  /** An integer variable: undefined when unset, empty, or without a
      leading integer; otherwise what `parseInt(value, 10)` reads. */
  function GetEnvNumber(env: Environment, name: string): (n: Option<int>)
    ensures name !in env || env[name] == "" ==> n == None
    ensures name in env && env[name] != "" && ParseInt(env[name]).NaN? ==> n == None
    ensures n.Some? ==> name in env && ParseInt(env[name]) == Int(n.value)
    ensures name in env && ParseInt(env[name]).Int? ==> n == Some(ParseInt(env[name]).value)
  {
    var value := GetEnvValue(env, name);
    if !StringTruthy(value) then None
    else
      match ParseInt(value.value)
      case NaN => None
      case Int(k) => Some(k)
  }

  /** A variable holding the decimal rendering of `n` reads back as `n`. */
  lemma GetEnvNumberShowInt(env: Environment, name: string, n: int)
    requires name in env && env[name] == ShowInt(n)
    ensures GetEnvNumber(env, name) == Some(n)
  {
    ParseIntShowInt(n);
  }

  /** A variable starting with an integer (after white space and a sign)
      reads as that integer, whatever follows it. */
  lemma GetEnvNumberLeadingInteger(env: Environment, name: string, ws: string, sign: string, digits: string, rest: string)
    requires AllWhiteSpace(ws)
    requires sign == "" || sign == "+" || sign == "-"
    requires digits != [] && AllDigits(digits)
    requires rest == [] || !IsDigit(rest[0])
    requires name in env && env[name] == ws + sign + digits + rest
    ensures GetEnvNumber(env, name) == Some(SignedValue(sign, digits))
  {
    ParseIntOfParts(ws, sign, digits, rest);
  }

  /** The behaviour the repository's own test checks: "true" is on, an
      unset variable is off; other spellings are off too. */
  lemma GetEnvBooleanExamples(env: Environment)
    requires "TEST_VAR" in env && env["TEST_VAR"] == "true"
    requires "NON_EXISTENT_VAR" !in env
    ensures GetEnvBoolean(env, "TEST_VAR")
    ensures !GetEnvBoolean(env, "NON_EXISTENT_VAR")
    ensures !GetEnvBoolean(env["TEST_VAR" := "TRUE"], "TEST_VAR")
    ensures !GetEnvBoolean(env["TEST_VAR" := "yes"], "TEST_VAR")
    ensures GetEnvBoolean(env["TEST_VAR" := "1"], "TEST_VAR")
  {
  }
}
