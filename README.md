# cloud-sql-execute: the option and request pipeline in Dafny

`cloud-sql-execute` is a command-line tool that runs one SQL statement on a
Cloud SQL instance through the Cloud SQL Admin API's `executeSql` endpoint.
This project models the logic between the command line and the network
call, and the rendering of the reply:

- reading environment variables as strings, flags and integers
  (`getEnvValue`, `getEnvBoolean`, `getEnvNumber`, with `parseInt(value, 10)`
  modelled character by character);
- merging command-line options with the environment (`mergeWithEnvVars`),
  with JavaScript's `||`, so an empty string, `false`, `0` and `NaN` count as
  absent;
- validating the authentication options (`validateAuthOptions`): at most one
  of password, Secret Manager path, access token and automatic IAM
  authentication, and a user name with a password or a secret path;
- building the request payload field by field and the copy with the
  password masked that goes to the debug log (`executeQuery`);
- the text rendering of the reply (`formatOutput`): per result set a
  tab-joined header, a line of dashes as long as the header, one tab-joined
  line per row, or else the result's message;
- the order in which one invocation can fail (`action` and `executeQuery`).

Modules, one per file: `Wrappers` (optional values and results), `Js`
(truthiness, `parseInt`, `join`), `Env`, `Options`, `Auth`, `Payload`,
`Format` and `Cli`. The environment is an explicit `map<string, string>`;
each `process.exit(1)` is a `Failure` value; what `formatOutput` writes to
standard output is a string the methods build. The default project that would be detected, the reply
of the remote call and the reply's JSON serialisation are parameters.

Details of the code that the model keeps:

- a merged string option is `Some("")` when the command line gives nothing
  and the variable is set to the empty string; every later use tests
  truthiness, so it behaves as an absent option;
- a command-line limit of 0 or NaN falls back to CLOUD_SQL_LIMIT; a merged
  limit of 0 (possible only from the environment) means "no
  limit": the payload then has no `rowLimit` (a negative limit is sent);
- the separator's length is JavaScript's `length` of the header, counted in
  UTF-16 code units, so a character beyond U+FFFF counts twice.

## Model

| member | source | states |
|---|---|---|
| `Env.GetEnvValue` | src/index.ts:138-140 | a variable's value is defined exactly when it is set, and is its value |
| `Env.GetEnvBoolean` | src/index.ts:142-145 | a flag is on exactly when the variable is set to "true" or "1" |
| `Env.GetEnvBooleanExamples` | src/index.test.ts:8-20 | "true" is on and an unset variable is off, as the repository's test expects; "TRUE" and "yes" are off, "1" is on |
| `Env.GetEnvNumber` | src/index.ts:147-152 | unset or empty gives none; no leading integer gives none; a value `parseInt` reads as an integer gives exactly that integer |
| `Env.GetEnvNumberShowInt` | src/index.ts:147-152 | a variable holding the decimal rendering of n reads as n |
| `Env.GetEnvNumberLeadingInteger` | src/index.ts:147-152 | a variable starting with white space, a sign and digits reads as that signed integer whatever follows |
| `Js.ParseInt` | src/index.ts:150 | `parseInt(s, 10)` of the empty string is NaN; a string starting with a digit reads as a non-negative integer; a string starting with anything but white space, a sign or a digit is NaN |
| `Js.ParseIntOfParts` | src/index.ts:150 | `parseInt(s, 10)` skips leading white space, takes an optional sign and the longest run of digits |
| `Js.ParseIntNoDigits` | src/index.ts:150-151 | with no digit after the white space and sign, `parseInt` yields NaN |
| `Js.ParseIntShowInt` | src/index.ts:150 | `parseInt` reads back every decimal rendering of an integer |
| `Js.SplitJoin` | src/index.ts:208-216 | joining with a one-character separator that no part contains and splitting on it gives the parts back |
| `Options.MergeWithEnvVars` | src/index.ts:154-172 | each string option is the command-line value when non-empty, else the variable's value; the instance falls back to ""; the flags are the command-line flag or the variable's flag; the limit is the command-line limit when non-zero and not NaN, else the variable's integer |
| `Options.MergedTruthiness` | src/index.ts:154-168 | a merged string option is non-empty exactly when the command-line or the environment value is |
| `Options.MergedLimitTruthiness` | src/index.ts:169 | the merged limit is a non-zero number exactly when the command line or the environment gives one |
| `Options.MergeEnvironmentOnly` | src/index.ts:154-172 | with nothing on the command line every option comes from the environment |
| `Auth.AuthMethods` | src/index.ts:238-243 | the listed methods are exactly the selected ones, in the order password, secretPath, accessToken, autoIamAuthn |
| `Auth.AuthMethodsCount` | src/index.ts:238-245 | the listing has one entry per selected method |
| `Auth.ValidateAuthOptions` | src/index.ts:236-257 | fails with all selected methods listed exactly when two or more are selected; otherwise fails for a missing user exactly when a password or secret path has no user; otherwise passes |
| `Auth.ErrorMessage` | src/index.ts:246-254 | the multiple-methods message is the fixed prefix, the listed methods' names joined with ", ", and the fixed suffix; the missing-user message is the fixed text; the two never coincide |
| `Auth.MessageNamesFirstAndLast` | src/index.ts:246-248 | the multiple-methods message names the first listed method right after the prefix and the last one right before the suffix |
| `Auth.ValidatedOptions` | src/index.ts:245-256 | accepted options select no two methods, and have a user when they use a password or secret path |
| `Auth.PasswordAndSecretPathRefused` | src/index.ts:238-250 | for password "p1", secret path "s1" and user "u1" and no other method, validation fails naming password then secretPath |
| `Auth.TwoMethodsMessage` | src/index.ts:246-248 | for the listing password, secretPath the message is the fixed prefix, "password, secretPath", and the fixed suffix |
| `Auth.PasswordWithUserAccepted` | src/index.ts:252-256 | a password with a user and no other method passes |
| `Payload.BuildPayload` | src/index.ts:285-296 | the payload holds the statement, each optional field exactly when its option is truthy and with its value, `autoIamAuthn` only as true, `rowLimit` only for a non-zero limit, and its keys are the statement's plus those of the set options |
| `Payload.ExpectedPayload` | src/index.ts:285-296 | the payload the options call for meets every field condition listed for `BuildPayload` |
| `Payload.BuiltFromUnique` | src/index.ts:285-296 | those field conditions leave exactly one payload: the expected one |
| `Payload.BuiltPayloadKeys` | src/index.ts:289-296 | a payload built from the options has exactly the keys of the options that are set, plus `sqlStatement` |
| `Payload.MaskPassword` | src/index.ts:299-302 | the copy equals the payload except that a non-empty password becomes "***MASKED***"; it has the same keys and never holds another non-empty password |
| `Format.Utf16Length` | src/index.ts:211 | the JavaScript length of a string is at least its number of characters |
| `Format.Utf16LengthBmp` | src/index.ts:211 | for characters up to U+FFFF the JavaScript length is the number of characters |
| `Format.TableLayout` | src/index.ts:206-218 | a table renders as the header, then dashes as many as the header's length, then one line per row |
| `Format.HeaderSplitsIntoNames` | src/index.ts:208-209 | the header line splits on tabs into the column names when none contains a tab |
| `Format.RowSplitsIntoCells` | src/index.ts:214-216 | a row line splits on tabs into the cell texts when none contains a tab |
| `Format.MessageOrNothing` | src/index.ts:219-222 | without a table, a non-empty message renders as one line and otherwise nothing renders |
| `Format.OneCellExample` | src/index.ts:204-224 | a one-column, one-row result renders as "n\n-\n1\n" |
| `Format.WriteTable` | src/index.ts:206-218 | writing a table appends the header line, the dashes line and one line per row, in row order, each ended by a newline |
| `Format.WriteResult` | src/index.ts:205-222 | writing one result set appends exactly that result's lines |
| `Format.FormatText` | src/index.ts:203-224 | the text output is every result set's lines, in order, each line ended by a newline |
| `Format.FormatOutput` | src/index.ts:195-224 | "json" writes the serialisation and a newline; every other format writes the text rendering |
| `Cli.EffectiveFormat` | src/index.ts:313 | the output format is the merged format when non-empty, else "text"; it is never empty |
| `Cli.ExecuteQuery` | src/index.ts:259-313 | auth failure first, then a missing project, then a failed call, and success whenever none of the three applies; on success the chosen project, the payload built from the options, the masked copy logged, and the output in the effective format |
| `Cli.Action` | src/index.ts:418-432 | fails for a missing instance exactly when the merged instance is empty, before any other check; otherwise behaves as `executeQuery` on the merged options |
| `Cli.SentPayloadHasOneCredential` | src/index.ts:261-296 | a payload that was sent carries at most one credential, and a user with a password or secret path |
| `Cli.LoggedPayloadHidesPassword` | src/index.ts:298-310 | the logged payload differs from the sent one at most in a password replaced by the mask |
| `Cli.PasswordLoginExample` | src/index.ts:285-302 | a successful invocation with database "d1", user "u1" and password "p1" and nothing else sends exactly those fields beside the statement, and logs the same payload with the password "***MASKED***" |
| `Cli.ApplyCommanderDefaults` | src/index.ts:360 | the declared `--format` default sets an absent format option to "text", leaving the rest unchanged |
| `Cli.Invoke` | src/index.ts:360-429 | the program as written: the parser default, then the instance check and `executeQuery` on the merged options; with no `--format`, a successful invocation writes the text rendering whatever CLOUD_SQL_FORMAT holds |
| `Cli.FormatVariableIgnored` | src/index.ts:360 | with that default, CLOUD_SQL_FORMAT=json and no `--format` still give text output |
| `Cli.FormatVariableHonoured` | src/index.ts:165-168 | without the parser default, CLOUD_SQL_FORMAT decides the format when `--format` is absent, and "text" is the fallback |

## Findings

| source | as written | input that shows it | evidently intended | confidence | as-written member | corrected member |
|---|---|---|---|---|---|---|
| src/index.ts:360 | `--format` is declared with the default "text", so the option always reaches `options.format \|\| getEnvValue(CLOUD_SQL_FORMAT)` (line 165) set, and the variable is never read unless `-f` is given the empty string | no `-f` on the command line, CLOUD_SQL_FORMAT=json: the output is text | CLOUD_SQL_FORMAT chooses the format when `-f` is absent (help text, lines 394 and 398), with "text" from `options.format \|\| "text"` (line 313) as the default | high; not executed | `Cli.FormatVariableIgnored` | `Cli.FormatVariableHonoured` |

`Cli.Invoke` runs the invocation as written, parser default included;
`Cli.Action` takes the command-line options without that default.

## Left out

- The `CloudSQLAdmin` class (src/index.ts:43-104): the HTTP request and the default-project lookup are network calls through `google-auth-library`; their results are the `detected` and `reply` parameters of `Cli.ExecuteQuery`, and a failed call is the `RequestFailed` error.
- Logging: `initLogger`, every `logger` call, the verbose switch's effect, and the metadata lines of `formatOutput` (src/index.ts:174-193, 226-233) go through the pino logger, which writes to standard output too; `Execution.output` is only what `formatOutput` writes, so it is the whole of standard output only for a successful run without verbose logging. Of the logged lines, only the masked payload and the two validation error messages (`Auth.ErrorMessage`) are modelled.
- The JSON branch of `formatOutput`: `JSON.stringify(response, null, 2)` is a library serialiser; its result is the `json` parameter.
- Argument parsing by `commander` and the help text (src/index.ts:335-417), except the `--format` default above: the raw options arrive already parsed, the limit as a number or NaN. The limit's parser is called as `parseInt(value, previous)`, whose radix detection (a "0x" prefix) is not modelled.
- The error details logged in the `catch` of `executeQuery` (src/index.ts:314-332) inspect untyped error objects; every error there is modelled as its exit, a `Failure`.
- `Js.ParseInt`: JavaScript numbers are doubles, so a digit run longer than about 15 digits is rounded; the model reads it exactly, and -0 is the same as 0.
- `Format.FormatText`: a row without a `values` array makes the code throw, which ends the invocation with status 1; the model's rows always have values.
