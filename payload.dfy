/** The request body sent to the `executeSql` endpoint, built from the
    merged options, and the copy of it with the password masked that is
    the only form written to the debug log. */
module Payload {
  import opened Wrappers
  import opened Js
  import opened Options

  /** The fixed text that replaces a password in logged payloads. */
  const MASK := "***MASKED***"

  /** A payload; an absent field is left out of the JSON body. */
  datatype ExecuteSqlPayload = ExecuteSqlPayload(
    sqlStatement: string,
    database: Option<string>,
    user: Option<string>,
    password: Option<string>,
    accessToken: Option<string>,
    secretPath: Option<string>,
    rowLimit: Option<int>,
    outputFormat: Option<int>,
    autoIamAuthn: Option<bool>)

  /** The JSON keys of a payload. */
  datatype Key =
    | SqlStatement | Database | User | PasswordKey | AccessToken | SecretPath
    | RowLimit | OutputFormat | AutoIamAuthn

  /** The keys the payload carries. */
  function Keys(p: ExecuteSqlPayload): set<Key>
  {
    {SqlStatement}
    + (if p.database.Some? then {Database} else {})
    + (if p.user.Some? then {User} else {})
    + (if p.password.Some? then {PasswordKey} else {})
    + (if p.accessToken.Some? then {AccessToken} else {})
    + (if p.secretPath.Some? then {SecretPath} else {})
    + (if p.rowLimit.Some? then {RowLimit} else {})
    + (if p.outputFormat.Some? then {OutputFormat} else {})
    + (if p.autoIamAuthn.Some? then {AutoIamAuthn} else {})
  }

  /** Whether the option feeding key `k` is set (truthy). */
  predicate OptionSet(o: MergedOptions, k: Key)
  {
    match k
    case SqlStatement => false
    case Database => StringTruthy(o.database)
    case User => StringTruthy(o.user)
    case PasswordKey => StringTruthy(o.password)
    case AccessToken => StringTruthy(o.accessToken)
    case SecretPath => StringTruthy(o.secretPath)
    case RowLimit => o.limit.Some? && o.limit.value != 0
    case OutputFormat => false
    case AutoIamAuthn => o.autoIamAuthn
  }

  /** The keys whose options are set. */
  function SetOptionKeys(o: MergedOptions): set<Key>
  {
    set k: Key | OptionSet(o, k)
  }

  /** `field` is copied from option `source` exactly when the option is
      truthy. */
  predicate CopiedIfTruthy(source: Option<string>, field: Option<string>)
  {
    (field.Some? <==> StringTruthy(source)) && (field.Some? ==> field == source)
  }

  /** The payload holds the statement, and each optional field exactly
      when its option is truthy, with the option's value; `autoIamAuthn`
      only ever as `true`, and no output format. */
  predicate BuiltFrom(query: string, o: MergedOptions, p: ExecuteSqlPayload)
  {
    && p.sqlStatement == query
    && CopiedIfTruthy(o.database, p.database)
    && CopiedIfTruthy(o.user, p.user)
    && CopiedIfTruthy(o.password, p.password)
    && CopiedIfTruthy(o.accessToken, p.accessToken)
    && CopiedIfTruthy(o.secretPath, p.secretPath)
    && p.autoIamAuthn == (if o.autoIamAuthn then Some(true) else None)
    && (p.rowLimit.Some? <==> o.limit.Some? && o.limit.value != 0)
    && (p.rowLimit.Some? ==> p.rowLimit == o.limit)
    && p.outputFormat == None
  }

  /** An option's value when truthy, else absent. */
  function Kept(source: Option<string>): (field: Option<string>)
    ensures CopiedIfTruthy(source, field)
  {
    if StringTruthy(source) then source else None
  }

  /** The payload the options call for, all fields at once. */
  function ExpectedPayload(query: string, o: MergedOptions): (p: ExecuteSqlPayload)
    ensures BuiltFrom(query, o, p)
  {
    ExecuteSqlPayload(
      sqlStatement := query,
      database := Kept(o.database),
      user := Kept(o.user),
      password := Kept(o.password),
      accessToken := Kept(o.accessToken),
      secretPath := Kept(o.secretPath),
      rowLimit := if o.limit.Some? && o.limit.value != 0 then o.limit else None,
      outputFormat := None,
      autoIamAuthn := if o.autoIamAuthn then Some(true) else None)
  }

  /** `BuiltFrom` pins the payload down: it is the expected one. */
  lemma BuiltFromUnique(query: string, o: MergedOptions, p: ExecuteSqlPayload)
    requires BuiltFrom(query, o, p)
    ensures p == ExpectedPayload(query, o)
  {
  }

  /** A payload built from the options carries exactly the statement key
      and the keys of the options that are set. */
  lemma BuiltPayloadKeys(query: string, o: MergedOptions, p: ExecuteSqlPayload)
    requires BuiltFrom(query, o, p)
    ensures Keys(p) == {SqlStatement} + SetOptionKeys(o)
  {
    forall k: Key ensures k in Keys(p) <==> k in {SqlStatement} + SetOptionKeys(o) {
      assert k in SetOptionKeys(o) <==> OptionSet(o, k);
    }
  }

  /** The chain of `if`s that fills in the payload field by field. */
  method BuildPayload(query: string, o: MergedOptions) returns (p: ExecuteSqlPayload)
    ensures p == ExpectedPayload(query, o)
    ensures BuiltFrom(query, o, p)
    ensures Keys(p) == {SqlStatement} + SetOptionKeys(o)
  {
    p := ExecuteSqlPayload(query, None, None, None, None, None, None, None, None);
    if StringTruthy(o.database) { p := p.(database := o.database); }
    if StringTruthy(o.user) { p := p.(user := o.user); }
    if StringTruthy(o.password) { p := p.(password := o.password); }
    if StringTruthy(o.accessToken) { p := p.(accessToken := o.accessToken); }
    if StringTruthy(o.secretPath) { p := p.(secretPath := o.secretPath); }
    if o.autoIamAuthn { p := p.(autoIamAuthn := Some(true)); }
    if o.limit.Some? && o.limit.value != 0 { p := p.(rowLimit := o.limit); }
    BuiltPayloadKeys(query, o, ExpectedPayload(query, o));
  }

  /** The payload with its password, when truthy, replaced by the mask. */
  predicate MaskedCopy(sent: ExecuteSqlPayload, logged: ExecuteSqlPayload)
  {
    logged == sent.(password := if StringTruthy(sent.password) then Some(MASK) else sent.password)
  }

  /** A copy of the payload whose password, when truthy, is the mask; the
      payload itself is a value and stays as it was. */
  method MaskPassword(p: ExecuteSqlPayload) returns (d: ExecuteSqlPayload)
    ensures MaskedCopy(p, d)
    ensures Keys(d) == Keys(p)
    ensures !StringTruthy(d.password) || d.password == Some(MASK)
  {
    d := p;
    if StringTruthy(d.password) {
      d := d.(password := Some(MASK));
    }
  }
}
