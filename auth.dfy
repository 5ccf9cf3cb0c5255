/** Validation of the authentication options (`validateAuthOptions`):
    at most one authentication method, and a user name whenever the
    password or a Secret Manager path is used. */
module Auth {
  import opened Wrappers
  import opened Js
  import opened Options

  /** The four authentication methods, in the order the tool lists them. */
  datatype AuthMethod = Password | SecretPath | AccessToken | AutoIamAuthn

  datatype AuthError =
    | MultipleAuthMethods(methods: seq<AuthMethod>)
    | MissingUser

  /** A method's position in the fixed listing order. */
  function Rank(m: AuthMethod): nat
  {
    match m
    case Password => 0
    case SecretPath => 1
    case AccessToken => 2
    case AutoIamAuthn => 3
  }

  /** The name a method has in the error message. */
  function MethodName(m: AuthMethod): string
  {
    match m
    case Password => "password"
    case SecretPath => "secretPath"
    case AccessToken => "accessToken"
    case AutoIamAuthn => "autoIamAuthn"
  }

  /** Whether the options select method `m`. */
  predicate Selects(o: MergedOptions, m: AuthMethod)
  {
    match m
    case Password => StringTruthy(o.password)
    case SecretPath => StringTruthy(o.secretPath)
    case AccessToken => StringTruthy(o.accessToken)
    case AutoIamAuthn => o.autoIamAuthn
  }

  /** The selected methods, as the source's filtered four-element array. */
  function AuthMethods(o: MergedOptions): (ms: seq<AuthMethod>)
    ensures forall m :: m in ms <==> Selects(o, m)
    ensures forall i, j :: 0 <= i < j < |ms| ==> Rank(ms[i]) < Rank(ms[j])
  {
    (if StringTruthy(o.password) then [Password] else [])
    + (if StringTruthy(o.secretPath) then [SecretPath] else [])
    + (if StringTruthy(o.accessToken) then [AccessToken] else [])
    + (if o.autoIamAuthn then [AutoIamAuthn] else [])
  }

  /** How many methods are selected, counted independently of the listing. */
  function CredentialCount(o: MergedOptions): nat
  {
    |set m: AuthMethod | Selects(o, m)|
  }

  /** The listing has exactly one entry per selected method. */
  lemma AuthMethodsCount(o: MergedOptions)
    ensures |AuthMethods(o)| == CredentialCount(o)
  {
    var ms := AuthMethods(o);
    var s := set m: AuthMethod | Selects(o, m);
    DistinctCard(ms);
    assert s == set m | m in ms;
  }

  lemma {:induction false} DistinctCard(ms: seq<AuthMethod>)
    requires forall i, j :: 0 <= i < j < |ms| ==> Rank(ms[i]) < Rank(ms[j])
    ensures |set m | m in ms| == |ms|
  {
    if ms != [] {
      var tail := ms[1..];
      DistinctCard(tail);
      assert ms[0] !in tail by {
        forall k | 0 <= k < |tail| ensures tail[k] != ms[0] {
          assert Rank(ms[0]) < Rank(ms[k + 1]);
        }
      }
      assert (set m | m in ms) == {ms[0]} + set m | m in tail;
    }
  }

  /** The password and the secret path each need a user name. */
  predicate NeedsUser(o: MergedOptions)
  {
    (StringTruthy(o.password) || StringTruthy(o.secretPath)) && !StringTruthy(o.user)
  }

  /** The multiple-methods check first, then the user check. */
  function ValidateAuthOptions(o: MergedOptions): (r: Outcome<AuthError>)
    ensures r.Fail? && r.error.MultipleAuthMethods? <==> CredentialCount(o) >= 2
    ensures r.Fail? && r.error.MultipleAuthMethods? ==> r.error.methods == AuthMethods(o)
    ensures r == Fail(MissingUser) <==> CredentialCount(o) <= 1 && NeedsUser(o)
    ensures r == Pass <==> CredentialCount(o) <= 1 && !NeedsUser(o)
  {
    AuthMethodsCount(o);
    var methods := AuthMethods(o);
    if |methods| > 1 then Fail(MultipleAuthMethods(methods))
    else if NeedsUser(o) then Fail(MissingUser)
    else Pass
  }

  const MULTIPLE_PREFIX := "Multiple authentication methods specified: "
  const MULTIPLE_SUFFIX := ". Please use only one."
  const MISSING_USER := "--user is required when using --password or --secret-path"

  /** The names of the listed methods, in order. */
  function Names(ms: seq<AuthMethod>): (names: seq<string>)
    ensures |names| == |ms|
    ensures forall i :: 0 <= i < |ms| ==> names[i] == MethodName(ms[i])
  {
    seq(|ms|, i requires 0 <= i < |ms| => MethodName(ms[i]))
  }

  /** The line the tool reports on failure. */
  function ErrorMessage(e: AuthError): (msg: string)
    ensures e.MultipleAuthMethods? ==>
              && MULTIPLE_PREFIX <= msg
              && |msg| >= |MULTIPLE_PREFIX| + |MULTIPLE_SUFFIX|
              && msg[|msg| - |MULTIPLE_SUFFIX|..] == MULTIPLE_SUFFIX
              && msg[|MULTIPLE_PREFIX|..|msg| - |MULTIPLE_SUFFIX|] == Join(Names(e.methods), ", ")
    ensures e.MissingUser? ==> msg == MISSING_USER
    ensures e.MultipleAuthMethods? ==> msg != MISSING_USER
  {
    match e
    case MultipleAuthMethods(ms) =>
      MULTIPLE_PREFIX
      + Join(Names(ms), ", ")
      + MULTIPLE_SUFFIX
    case MissingUser => MISSING_USER
  }

  /** Accepted options select at most one method, and a user whenever the
      password or the secret path is used. */
  lemma ValidatedOptions(o: MergedOptions)
    requires ValidateAuthOptions(o) == Pass
    ensures !(StringTruthy(o.password) && StringTruthy(o.secretPath))
    ensures !(StringTruthy(o.password) && StringTruthy(o.accessToken))
    ensures !(StringTruthy(o.password) && o.autoIamAuthn)
    ensures !(StringTruthy(o.secretPath) && StringTruthy(o.accessToken))
    ensures !(StringTruthy(o.secretPath) && o.autoIamAuthn)
    ensures !(StringTruthy(o.accessToken) && o.autoIamAuthn)
    ensures StringTruthy(o.password) || StringTruthy(o.secretPath) ==> StringTruthy(o.user)
  {
  }

  /** A password and a secret path together are refused, and the error
      names both, in that order. */
  lemma PasswordAndSecretPathRefused(o: MergedOptions)
    requires o.password == Some("p1") && o.secretPath == Some("s1") && o.user == Some("u1")
    requires o.accessToken == None && !o.autoIamAuthn
    ensures ValidateAuthOptions(o) == Fail(MultipleAuthMethods([Password, SecretPath]))
  {
    assert AuthMethods(o) == [Password, SecretPath];
  }

  /** The message for two methods joins their names with ", ". */
  lemma TwoMethodsMessage()
    ensures ErrorMessage(MultipleAuthMethods([Password, SecretPath]))
      == MULTIPLE_PREFIX + "password, secretPath" + MULTIPLE_SUFFIX
  {
    var ms := [Password, SecretPath];
    var names := Names(ms);
    assert names == ["password", "secretPath"];
    assert names[1..] == ["secretPath"];
    assert names[0] == "password";
    assert Join(names[1..], ", ") == "secretPath";
    var joined := Join(names, ", ");
    assert joined == names[0] + ", " + Join(names[1..], ", ");
    assert joined == "password" + ", " + "secretPath";
    assert "password" + ", " + "secretPath" == "password, secretPath";
  }

  /** The message names the first listed method right after the prefix,
      and the last one right before the suffix. */
  lemma MessageNamesFirstAndLast(ms: seq<AuthMethod>)
    requires |ms| >= 1
    ensures var msg := ErrorMessage(MultipleAuthMethods(ms));
      && MULTIPLE_PREFIX + MethodName(ms[0]) <= msg
      && var tail := MethodName(ms[|ms| - 1]) + MULTIPLE_SUFFIX;
         |tail| <= |msg| && msg[|msg| - |tail|..] == tail
  {
    var names := Names(ms);
    JoinStartsWithFirst(names, ", ");
    JoinEndsWithLast(names, ", ");
    Framed(MULTIPLE_PREFIX, Join(names, ", "), MULTIPLE_SUFFIX, names[0], names[|ms| - 1]);
  }

  /** A middle that starts with `first` and ends with `last`, framed by
      `pre` and `suf`. */
  lemma Framed(pre: string, mid: string, suf: string, first: string, last: string)
    requires first <= mid && |last| <= |mid| && mid[|mid| - |last|..] == last
    ensures pre + first <= pre + mid + suf
    ensures var s := pre + mid + suf; var t := last + suf;
      |t| <= |s| && s[|s| - |t|..] == t
  {
    var s := pre + mid + suf;
    assert mid == mid[..|mid| - |last|] + last;
    assert s == (pre + mid[..|mid| - |last|]) + (last + suf);
  }

  /** A password with a user, and nothing else, is accepted. */
  lemma PasswordWithUserAccepted(o: MergedOptions)
    requires o.password == Some("p1") && o.user == Some("u1")
    requires o.secretPath == None && o.accessToken == None && !o.autoIamAuthn
    ensures ValidateAuthOptions(o) == Pass
  {
    assert AuthMethods(o) == [Password];
  }
}
