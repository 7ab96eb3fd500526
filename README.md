# go-framework core, modelled in Dafny

This project models the core of `a-novel/go-framework`, a small Go toolkit for services built on Postgres (through bun) and gin. The model covers:

- **Postgres error normalisation** (`errors/postgresql.go`). `HandlePGError` maps driver errors onto a fixed set of sentinels. `ForceRowsUpdate` turns "no row affected" into `ErrNotFound`.
- **HTTP error helpers** (`errors/http.go`):
  - the first-match table lookup of `ErrorToHTTPCode`;
  - the message and body handling of `NewHTTPClientErr`;
  - the `errors.As` search of `AsHTTPClientErr`.
- **Driver configuration** for pgdriver (`pgconfig`) and pgx (`pgxconfig`):
  - how a `Driver` record becomes an ordered list of connector options;
  - which pgx settings a driver overrides.
- **Client set-up** (`bunframework/config.go`, `utils.go`, `migrations.go`). `NewClient` connects, waits for a ping, optionally resets the test schema, then runs migrations. `MigrateConfig` discovers, executes and rolls back migrations and caches the last group.
- **Smaller helpers**:
  - the `Duration` SQL scanner;
  - the retrying `WaitForPing`;
  - the reflective validators `CheckRequire`, `CheckMinMax` and `CheckRestricted`;
  - the uuid string types;
  - the random token generator;
  - the test helpers `NumberUUID` and `Concat`.

Modelling choices:

- **Errors.** A Go `error` is `Option<Error>`, where `None` is `nil`. The `Error` datatype distinguishes:
  - plain errors;
  - `fmt.Errorf` with one `%w`;
  - `errors.Join`;
  - pgdriver errors;
  - `HTTPClientErr`.

  `errors.Is` and `errors.As` walk the unwrap chain (`GoErrors.Chain`). Errors that Go cannot compare never match by `errors.Is`; pgdriver's error struct holds a map, so it is one of them.
- **Go values with state are classes.** The `Duration` scanner, the migration store (`Migrations.Database`) and `MigrateConfig` all have fields that their methods update in place.
- **Pure Go functions are Dafny functions and lemmas.**
- **Loops are methods**, each proved against a specification function. These are `WaitForPing`, `RandomAlphabet`, `StringUUIDs.Value`, `Concat`, the character count of `CheckMinMax`, the discovery loops of `getMigrations` and the migrator's run and rollback. The straight-line steps of `NewClient` (the schema reset, the migrations) are methods proved against the functions `ResetCount`, `ResetResult` and `ConfigureResult`, and `parseOptions` against `FieldOptions`.
- **Library handles are records.** `Drivers.OpenDB` stands for `bun.NewDB`: it pairs the sql handle with the options, and nothing is proved about it beyond what the drivers pass to it.
- **Environment inputs are parameters.** The clock, the random generator, `time.ParseDuration`, `uuid.Parse`, `pgx.ParseConfig`, database pings and statements, and the `ENV` variable are all passed in.
- **bun's migrator is abstract.** It is a table of applied records, each holding a name and a group id. Migrating applies the pending migrations in one new group. Rolling back undoes the last group in reverse order.

## Model

| member | source | states |
|---|---|---|
| GoErrors.IsOnChain | errors/http.go:18 | `errors.Is(e, t)` holds exactly when `t` is comparable and lies on the unwrap chain of `e` |
| GoErrors.IsOnChainAll | errors/postgresql.go:45 | a joined error matches a target exactly when one of its parts does |
| GoErrors.Chain | errors/http.go:72 | the unwrap chain starts with the error itself |
| PgErrors.SentinelChain | errors/postgresql.go:11-20 | the unique violation is a constraint violation, and both are invalid entities; a missing relation is an invalid entity but not a constraint violation; `ErrNotFound` wraps nothing |
| PgErrors.HandlePGError | errors/postgresql.go:24-27 | the result is nil exactly when the input is nil |
| PgErrors.NoRowsByIdentityOnly | errors/postgresql.go:29-31 | `sql.ErrNoRows` itself becomes `ErrNotFound`; a wrapped `ErrNoRows` is compared by identity, so it is returned unchanged although `errors.Is` still finds `ErrNoRows` in it |
| PgErrors.IntegrityViolationClassified | errors/postgresql.go:33-43 | an integrity violation always becomes a constraint violation and an invalid entity; it is the unique violation exactly when the text holds `SQLSTATE=23505` |
| PgErrors.TimeoutJoined | errors/postgresql.go:44-45 | a statement timeout becomes `errors.Join(ErrTimeout, err)`; it matches `ErrTimeout`, keeps the original on its chain, and is not an invalid entity |
| PgErrors.MissingRelationByMarker | errors/postgresql.go:49-54 | any other error becomes `ErrMissingRelation` exactly when its text holds `AGORA=MISSINGRELATION`, and is otherwise returned unchanged |
| PgErrors.NormalisedForms | errors/postgresql.go:24-55 | every result is one of the four sentinels, the joined timeout or the input itself |
| PgErrors.NormaliseIdempotent | errors/postgresql.go:24-55 | normalising twice gives the same result as once, except for a timeout whose text holds the missing-relation marker |
| PgErrors.SentinelsAreFixed | errors/postgresql.go:11-20 | each sentinel is returned unchanged |
| PgErrors.LowerCaseTexts | errors/postgresql.go:11-20 | no sentinel text holds the upper-case marker letter, so no sentinel is reclassified |
| PgErrors.ForceRowsUpdate | errors/postgresql.go:57-69 | the result is nil exactly when some row was affected; zero rows give exactly `ErrNotFound`; a failed count is wrapped, keeping every `errors.Is` target of the cause |
| HttpErrors.ErrorToHTTPCode | errors/http.go:16-25 | the first table row whose error matches gives the code; with no match the code is 500 |
| HttpErrors.SomeRowMatches | errors/http.go:17-21 | when row `k` matches, the code comes from the first matching row, at or before `k` |
| HttpErrors.ErrorToHTTPCodeExamples | errors/http_test.go:24-48 | the two table cases of the test give 400 and 500 |
| HttpErrors.StatusMessageNamesReceived | errors/http.go:51-57 | the status message always ends with the received code, and starts with "expected" exactly when some status was expected |
| HttpErrors.NothingExpectedExample | errors/http_test.go:72-82 | no expected status gives "got unexpected status code 400" |
| HttpErrors.OneExpectedExample | errors/http_test.go:96-106 | one expected status gives "expected status 200, got 400" |
| HttpErrors.TwoExpectedExample | errors/http_test.go:107-118 | two expected statuses are listed as `[200 404]` |
| HttpErrors.IntListPair | errors/http.go:56 | `%v` of a two-element int slice is the two decimals in brackets, separated by a space |
| HttpErrors.ReadBody | errors/http.go:42-49 | the body error is nil exactly when there is no body; an unreadable body is wrapped with the read failure |
| HttpErrors.NewHTTPClientErr | errors/http.go:36-67 | the result carries the response code; its inner message is the status message followed by the body part, where a readable body is kept verbatim as in the corrected `BodyError` (the code as written reformats it, see Findings); the outer message is "request failed with status N: …"; the inner error is plain exactly when there is no body; a read failure stays reachable by `errors.Is` |
| HttpErrors.WrappedKeepsIs | errors/http.go:60 | wrapping with `%w` keeps every `errors.Is` target |
| HttpErrors.BodyError | errors/http.go:47 | the body error's message is the body text itself, and it wraps nothing |
| HttpErrors.FirstClientErr | errors/http.go:72 | the first client error of a chain is a client error on that chain; there is none exactly when the chain holds none |
| HttpErrors.FirstClientErrAppend | errors/http.go:72 | the search of a concatenated chain finds the first part's client error before the second's |
| HttpErrors.AsClientErrFirstOnChain | errors/http.go:69-77 | the recursive `errors.As` search returns the first client error of the unwrap chain |
| HttpErrors.AsClientErrAllFirstOnChain | errors/http.go:69-77 | over joined errors, the search returns the first client error of the joined chain |
| HttpErrors.AsHTTPClientErr | errors/http.go:69-77 | a found value is always a client error, and nil input finds nothing |
| HttpErrors.FoundThroughWrapping | errors/http_test.go:160-170 | a client error is found through any depth of `%w` wrapping |
| HttpErrors.NotFoundWithoutClientErr | errors/http_test.go:171-174 | a plain error yields nil |
| HttpErrors.PlainTextUnchanged | errors/http.go:47 | a body without `%` survives `fmt.Errorf` unchanged |
| HttpErrors.BodyPercentMangled | errors/http.go:47 | as written, a body with `%` is rewritten by `fmt.Errorf`, while the corrected body error keeps it |
| PgConfig.NewDriver | postgresql/bunframework/pgconfig/config.go:59-61 | only the raw options are set; no field is set and the DSN is empty |
| PgConfig.NewDriverWithDSN | postgresql/bunframework/pgconfig/config.go:67-69 | the DSN and the raw options are set and no other field is |
| PgConfig.FieldOption | postgresql/bunframework/pgconfig/utils.go:52-75 | the option a set field produces has that field's position in the emission order |
| PgConfig.Emitted | postgresql/bunframework/pgconfig/utils.go:52-75 | a field contributes its option when set and nothing otherwise |
| PgConfig.ParseStringOption | postgresql/bunframework/pgconfig/utils.go:20-26 | an empty string adds nothing; otherwise the callback's option is appended |
| PgConfig.ParseDurationOption | postgresql/bunframework/pgconfig/utils.go:28-34 | a zero duration adds nothing; otherwise the callback's option is appended |
| PgConfig.ParseMapOption | postgresql/bunframework/pgconfig/utils.go:36-42 | a nil map adds nothing; otherwise the callback's option is appended |
| PgConfig.ParsePtrOption | postgresql/bunframework/pgconfig/utils.go:44-50 | a nil pointer adds nothing; otherwise the callback's option of the pointee is appended |
| PgConfig.Advance | postgresql/bunframework/pgconfig/utils.go:55-72 | each parse call extends the options by exactly the next field's contribution |
| PgConfig.ParseOptions | postgresql/bunframework/pgconfig/utils.go:52-75 | the result is the raw options followed by one option per set field, in the source's order |
| PgConfig.ParseAddressing | postgresql/bunframework/pgconfig/utils.go:55-59 | DSN, address, app name, connection params and database are appended in order |
| PgConfig.ParseSession | postgresql/bunframework/pgconfig/utils.go:60-64 | dial timeout, insecure, network, password and read timeout are appended in order |
| PgConfig.ParseLimits | postgresql/bunframework/pgconfig/utils.go:65-72 | timeout, user, write timeout and TLS are appended in order |
| PgConfig.Connect | postgresql/bunframework/pgconfig/utils.go:13-18 | the connection never fails; the connector gets the parsed options and the bun handle gets the given options |
| PgConfig.EmittedRank | postgresql/bunframework/pgconfig/utils.go:52-75 | an emitted option has its field's rank |
| PgConfig.FieldOptionsOrdered | postgresql/bunframework/pgconfig/utils.go:52-75 | the generated options come out in strictly increasing field order |
| PgConfig.FieldOptionPresent | postgresql/bunframework/pgconfig/utils.go:52-75 | an option of a field's rank appears exactly when that field is set |
| PgConfig.FieldOptionsLength | postgresql/bunframework/pgconfig/utils.go:52-75 | one option is generated per set field |
| PgConfig.DSNFirst | postgresql/bunframework/pgconfig/utils.go:55 | a non-empty DSN is the first generated option |
| PgConfig.OnlyDSN | postgresql/bunframework/pgconfig/utils.go:52-75 | a driver with no field set generates at most the DSN option |
| PgConfig.NewDriverWithDSNOptions | postgresql/bunframework/pgconfig/config.go:67-69 | the driver built from a DSN parses to its raw options followed by `WithDSN` |
| PgConfig.NewDriverOptions | postgresql/bunframework/pgconfig/config.go:59-61 | the driver built from options parses to exactly those options |
| PgConfig.ExplicitFalseInsecure | postgresql/bunframework/pgconfig/utils.go:62 | an explicit `Insecure=false` is passed on, since only a nil pointer is skipped |
| PgxConfig.NewDriverWithDSN | postgresql/bunframework/pgxconfig/config.go:25-27 | only the DSN is set; every override is at its zero value |
| PgxConfig.Connect | postgresql/bunframework/pgxconfig/utils.go:13-36 | a DSN that pgx cannot parse returns its error; otherwise the simple protocol is forced unless prepared statements are kept, and logger, log level and statement cache are overridden only when set |
| PgxConfig.DsnOnlyForcesSimpleProtocol | postgresql/bunframework/pgxconfig/utils.go:19-21 | a driver made from a DSN alone changes only `PreferSimpleProtocol`, which it sets to true |
| PgxConfig.SimpleProtocolNeverCleared | postgresql/bunframework/pgxconfig/utils.go:19-21 | no driver setting turns the simple protocol off once pgx enabled it |
| PgxConfig.OverridesSettle | postgresql/bunframework/pgxconfig/utils.go:19-31 | applying the overrides twice is the same as once |
| BunFramework.ComputeInternalOptions | postgresql/bunframework/utils.go:9-17 | the user options come first, unchanged; `WithDiscardUnknownColumns` is appended exactly when requested |
| BunFramework.PingDatabase | postgresql/bunframework/utils.go:23-27 | every probe is a ping of the given database |
| BunFramework.StatementsAppend | postgresql/bunframework/config.go:131-152 | the statements of a concatenated trace are those of its parts, concatenated |
| BunFramework.ResetSchema | postgresql/bunframework/config.go:131-152 | the statements run in order, up to and including the first that fails (`ResetCount`); every statement before the last one run succeeded; the error is the last one's result, so the reset fails exactly when one of the four statements fails, including the second grant |
| BunFramework.ResetCount | postgresql/bunframework/config.go:131-152 | between one and four statements run; all but the last succeeded; fewer than four means the last failed |
| BunFramework.ResetFailsAtFirst | postgresql/bunframework/config.go:131-152 | the reset succeeds exactly when all four statements do, and otherwise fails with the first failing statement's error |
| BunFramework.ResetStage | postgresql/bunframework/config.go:122-153 | the error is `ResetResult`: none without the reset flag; the guard's error outside the test environment, after closing both handles and running nothing; otherwise the first failing statement's error, so the stage fails exactly when some statement does; on failure both handles are closed once |
| BunFramework.Configure | postgresql/bunframework/config.go:122-162 | the error is `ConfigureResult`: the reset's error, else the error `Execute` gives on the store's table when there is something to migrate; the migration event carries that error; the trace is well sequenced |
| BunFramework.ConfigureSucceeds | postgresql/bunframework/config.go:122-164 | the stages after the ping succeed exactly when the reset is off or runs all four statements in the test environment, and the migrations, if any, succeed |
| BunFramework.NewClient | postgresql/bunframework/config.go:108-165 | a connect failure is wrapped; the number of probes is the one at which the default readiness wait stops (`StoppedAt`); a failed last probe closes both handles and wraps its error; after a successful probe the error is `ConfigureResult`, and success returns both handles with nothing closed; on any failure neither handle is returned; every trace is well sequenced |
| BunFramework.AfterPing | postgresql/bunframework/config.go:116-120 | a successful ping keeps the later stages well sequenced |
| BunFramework.PingFailed | postgresql/bunframework/config.go:116-120 | a failed ping closes both handles once and nothing runs |
| BunFramework.MigrationFailed | postgresql/bunframework/config.go:156-161 | a failed migration closes both handles once, after the reset statements |
| BunFramework.MigrationDone | postgresql/bunframework/config.go:156-164 | a successful migration leaves both handles open |
| BunFramework.NewClientWithDriver | postgresql/bunframework/config.go:175-177 | the result is the driver's `Connect` with no options |
| Migrations.GatherKeepsFailure | postgresql/bunframework/migrations.go:31-35 | once discovery failed, later sources are not consulted |
| Migrations.GatherAllFound | postgresql/bunframework/migrations.go:28-44 | when every source is discovered, the result holds the earlier migrations followed by each source's, in order |
| Migrations.GatherFirstFailure | postgresql/bunframework/migrations.go:31-35 | the first failing source decides the error, wrapped with its index |
| Migrations.GatherPrefixFailed | postgresql/bunframework/migrations.go:31-35 | a failure in a prefix of the sources is the failure of them all |
| Migrations.FileFailureIgnoresGoMigrations | postgresql/bunframework/migrations.go:31-41 | a failing filesystem makes discovery fail before any Go migration is registered |
| Migrations.AllDiscovered | postgresql/bunframework/migrations.go:28-44 | when every source succeeds, the result is the filesystem migrations followed by the Go ones |
| Migrations.PendingMembers | postgresql/bunframework/migrations.go:46-47 | a migration is pending exactly when it is registered and its name is not in the table |
| Migrations.PendingNone | postgresql/bunframework/migrations.go:46-47 | when every name is in the table, nothing is pending |
| Migrations.Succeeded | postgresql/bunframework/migrations.go:63 | the count of migrations that ran: all before it succeeded and the next one failed |
| Migrations.SucceededIs | postgresql/bunframework/migrations.go:63 | any such count is the count |
| Migrations.TrailingGroup | postgresql/bunframework/migrations.go:88 | the last group's size is at most the size of the table |
| Migrations.RunGroupStops | postgresql/bunframework/migrations.go:63 | the group records its migrations up to the first failure, or all of them |
| Migrations.AppliedNamesAppend | postgresql/bunframework/migrations.go:63 | the names of a grown table are the old names plus the new ones |
| Migrations.MigrateSucceeded | postgresql/bunframework/migrations.go:63 | a successful migrate records every pending migration in one new group |
| Migrations.MigrateIdempotent | postgresql/bunframework/migrations.go:46-47 | after a successful migrate every registered migration is recorded, and a second migrate applies nothing and changes nothing |
| Migrations.RollbackUndoesMigrate | postgresql/bunframework/migrations.go:72-94 | rolling back right after a migrate restores the table and returns the group that was applied |
| Migrations.RollbackRecords | postgresql/bunframework/migrations.go:88 | the last group is removed and returned when every down migration succeeds |
| Migrations.UndoAll | postgresql/bunframework/migrations.go:88 | when every down migration succeeds, all of them run |
| Migrations.LastBatchOf | postgresql/bunframework/migrations.go:88 | the last batch is the migrations of the newest group |
| Migrations.TrailingRecords | postgresql/bunframework/migrations.go:88 | records appended with a newer group id form the whole last group |
| Migrations.MigrateTwiceThenRollback | postgresql/bunframework/test/migrations_test.go:14-35 | one migration is applied, then none, then the rollback empties the table, and every step succeeds |
| Migrations.Database.Migrate | postgresql/bunframework/migrations.go:63 | the store changes as the migrate specification says and returns its group and error |
| Migrations.Database.Run | postgresql/bunframework/migrations.go:63 | the loop applies the pending migrations up to the first failure, as `RunGroup` specifies |
| Migrations.Database.Rollback | postgresql/bunframework/migrations.go:88 | the store changes as the rollback specification says |
| Migrations.MigrateConfig.constructor | postgresql/bunframework/config.go:57-67 | a new configuration has no sources and no cached report |
| Migrations.MigrateConfig.RegisterSqlMigrations | postgresql/bunframework/migrations.go:18-20 | the filesystems are appended; nothing else changes |
| Migrations.MigrateConfig.RegisterGoMigrations | postgresql/bunframework/migrations.go:24-26 | the Go migrations are appended; nothing else changes |
| Migrations.MigrateConfig.GetMigrations | postgresql/bunframework/migrations.go:28-44 | the result is the discovery over the files and then the Go migrations |
| Migrations.MigrateConfig.Execute | postgresql/bunframework/migrations.go:48-70 | no database gives `ErrNoDB`; otherwise the error is `ExecuteError`: a discovery error as is, a wrapped Init failure, or a wrapped migrate failure; a failure leaves the cache; success caches the new group |
| Migrations.MigrateConfig.Rollback | postgresql/bunframework/migrations.go:73-94 | the same error paths as `Execute`; success caches the group that was rolled back |
| Migrations.MigrateConfig.Report | postgresql/bunframework/migrations.go:98-100 | the cached group of the last successful run |
| Communication.WaitForPing | communication/ping.go:39-48 | the probes stop at the first success or once the timeout has passed; the error is the last probe's; one sleep of the interval separates consecutive probes |
| Communication.StopIsUnique | communication/ping.go:43 | the stopping rule determines the number of probes |
| Communication.ElapsedAtLeast | communication/ping.go:43-44 | with each round taking at least the interval, `k` rounds take at least `k` intervals |
| Communication.PingsBounded | communication/ping.go:43 | the probe before the last one started before the timeout, so at most timeout / interval + 2 probes run |
| Communication.WaitForPingAuto | communication/ping.go:5-26 | the defaults of 10 s and 250 ms allow at most 41 probes |
| Communication.ImmediateSuccess | communication/ping_test.go:17-21 | a ping that succeeds at once is probed once and returns nil |
| Communication.AlwaysFailing | communication/ping_test.go:36-40 | a ping that always fails returns its error, after the timeout |
| Communication.SucceedsOnFifth | communication/ping_test.go:23-34 | a ping that fails four times succeeds on the fifth probe |
| SqlDuration.Duration.constructor | postgresql/bunframework/types.go:12 | a duration holds the given nanoseconds |
| SqlDuration.Duration.Scan | postgresql/bunframework/types.go:17-33 | the new value and the error are those the scan specification gives |
| SqlDuration.Duration.Value | postgresql/bunframework/types.go:35-38 | the SQL value is the nanosecond count |
| SqlDuration.NilScansToZero | postgresql/bunframework/types.go:27-29 | scanning nil gives zero and no error |
| SqlDuration.BytesLikeString | postgresql/bunframework/types.go:23-26 | bytes scan like the string they spell |
| SqlDuration.FailedParseOverwrites | postgresql/bunframework/types.go:19-22 | a failed parse still overwrites the duration with the parser's value and returns its error |
| SqlDuration.UnsupportedKeepsDuration | postgresql/bunframework/types.go:30-31 | any other type keeps the duration and reports "unsupported data type" with the type's name |
| SqlDuration.NoRoundTrip | postgresql/bunframework/types.go:30-38 | the int64 that `Value` writes cannot be scanned back: it is rejected and the duration is unchanged |
| Validation.CheckRequire | validation.go:10-30 | the corrected check never panics |
| Validation.CheckRequirePasses | validation.go:10-30 | the check passes exactly when the value behind any pointers is present (non-nil, non-empty); it fails with "nil" exactly for a nil or nil-pointed value |
| Validation.CheckRequireAgrees | validation.go:13-18 | the code as written panics exactly on a nil typed pointer, and otherwise agrees with the corrected check |
| Validation.NilPointerPanics | validation.go:13-38 | a nil `*T` panics in both checks as written, and gets a verdict in the corrected ones |
| Validation.MinMax | validation.go:32-94 | the corrected check never panics |
| Validation.CountCharacters | validation.go:42-50 | the loop counts one per normalised segment |
| Validation.CheckMinMax | validation.go:32-94 | the method gives the verdict of the corrected specification |
| Validation.MinMaxWithinBounds | validation.go:52-82 | the value passes exactly when its measure is within the enabled bounds (a negative bound is disabled) or it has no measure; breaking the lower bound reports it first |
| Validation.CheckRestricted | validation.go:104-112 | nil exactly when the value is among the allowed ones; otherwise "value X is not allowed here" |
| UuidTypes.StringUuidValue | types/uuid.go:12-19 | a parsable string gives its uuid, anything else gives the nil uuid |
| UuidTypes.ParsedPiecesAppend | types/uuid.go:26-33 | one more piece adds its uuid when it parses and nothing otherwise |
| UuidTypes.ParsedPiecesBounded | types/uuid.go:26-33 | there are at most as many uuids as pieces, and each comes from a piece |
| UuidTypes.ParsedPiecesKeeps | types/uuid.go:26-33 | every piece that parses contributes its uuid |
| UuidTypes.StringUuidsValue | types/uuid.go:23-36 | the loop keeps, in order, the parse of every comma-separated piece that parses |
| UuidTypes.StringUuidsBounded | types/uuid.go:26 | there is at most one uuid more than there are commas |
| UuidTypes.SingleUuid | types/uuid.go:23-36 | without a comma the result is the single parse, or nothing |
| Security.AlphabetLettersShape | security/random.go:11 | the alphabet is the 52 one-letter latin strings |
| Security.Picks | security/random.go:39-42 | the picks are the alphabet entries at the drawn indices |
| Security.RandomAlphabet | security/random.go:33-45 | the result joins the drawn entries with the separator; a negative size panics, as does an empty alphabet with a positive size |
| Security.Random | security/random.go:21-23 | a token of the requested length made only of latin letters |
| Security.LettersToken | security/random_test.go:10-20 | any draws give a string of exactly `size` latin letters |
| Security.PicksAreLetters | security/random.go:11-42 | every pick from the letters is a single latin letter |
| Security.TokenLength | security/random.go:33-45 | with entries of equal width `w`, the length is `size*w + (size-1)*|sep|` |
| Security.ThreeWordsWithDash | security/random_test.go:39-41 | three three-letter words joined with "-" take 11 characters |
| Text.SplitOn | types/uuid.go:26 | `strings.Split` returns at least one piece and no piece holds the separator |
| Text.SplitJoin | types/uuid.go:26 | joining the pieces with the separator gives back the string |
| Text.SplitCount | types/uuid.go:26 | there is one piece more than there are separators |
| Text.JoinLength | security/random.go:44 | `strings.Join` adds one separator between consecutive parts |
| Text.DecimalRoundTrip | errors/http.go:52-56 | the decimal form `%d` prints reads back as the number |
| TestHelpers.Repeat | test/uuid.go:14-22 | repeating a piece `k` times gives `k` times its length and starts with the piece |
| TestHelpers.NumberUuid | test/uuid.go:8-26 | a result exists exactly when the length is between 1 and 4 and the template parses |
| TestHelpers.TemplateLayout | test/uuid.go:14-22 | every accepted length fills the 36-character 8-4-4-4-12 layout, with dashes at 8, 13, 18 and 23 |
| TestHelpers.TemplateRejects | test/uuid.go:23-24 | a template is refused exactly for an empty source or one longer than 4 |
| TestHelpers.TemplateStartsWithPiece | test/uuid.go:14-22 | the template starts with the (possibly zero-padded) source |
| TestHelpers.TemplateInjective | test/uuid.go:14-22 | sources of the same length give distinct templates |
| TestHelpers.OneAndZeroOneCollide | test/uuid.go:9-20 | `1` and `"01"` give the same template, since the one-character case pads with `0` |
| TestHelpers.Concat | test/misc.go:22-28 | the loop result is the flattening of the slices |
| TestHelpers.ConcatContents | test/misc.go:22-28 | the length is the sum of lengths, and an element is in the result exactly when it is in one of the slices |
| TestHelpers.ConcatUnits | test/misc.go:22-28 | one slice concatenates to itself; no slices concatenate to the empty slice |
| Framework.NumberUuid | test.go:35-53 | the root package's copy agrees with the test package's on every input |

## Left out

- Error identity. Go compares errors by pointer; the model compares them structurally, so two distinct `fmt.Errorf` results with the same text are the same here.
- `ErrInvalidEntity` and `ErrTimeout`. They are declared in a file that is not part of this model, so their texts are placeholders.
- `ErrorToHTTPCode` writing to the gin context. The model returns the code; `AbortWithError` and the gin context are left out.
- The `HTTPClientErr` JSON tags and `io.ReadAll` itself. A response body is either absent, readable with some content, or failing with an error.
- HttpErrors.FormatWithoutArgs covers only the `fmt` verbs and flags that the two lemmas about it need: `%%`, a verb, and a trailing `%`.
- Library internals. pgdriver, pgx, `database/sql`, bun's `NewDB` and connection pools are records and numbers (`Drivers`); only what the framework passes to them and gets back is modelled. Closing a handle is an event in a trace.
- The `ctx context.Context` parameters are dropped.
- `DriverConfig` is a function parameter. Connect's three results are `ConnectResult`.
- bun's migrator:
  - its control tables, locking, sorting by name and SQL file parsing are left out;
  - whether `Init` fails is a field of the backend;
  - a migration's name identifies it;
  - the `opts` of `Rollback` are ignored;
  - a migration is recorded once its up step succeeds.
- Migrations.MigrateConfig.Report: the source's comment says the report is nil when `Execute` failed. The code only writes the cache on success, so after an earlier success a failed run leaves the older group in place; the model follows the code.
- Time:
  - `time.Now`, `time.Since` and `time.Sleep` are an elapsed-time function;
  - each round is assumed to take at least the retry interval and at least one tick (`Communication.ClockAdvances`), which is what makes the loop end;
  - the sleeps are returned as a list.
- Communication.WaitForPing: a timeout shorter than the interval can still give two probes, because the first check of the clock happens right after the first probe. The model follows the code.
- Durations and `time.ParseDuration`. A duration is its int64 nanosecond count, and the parser is a parameter.
- Validation's reflection:
  - a Go value is the `GoValue` datatype;
  - the NFKD iteration of `CheckMinMax` is given as its list of normalised segments;
  - signed and unsigned integers of every width are one `Integer` case, compared by value; float kinds are not modelled;
  - `CheckRegexp` is not part of this model.
- Validation.CheckMinMax: the result is a `Reason`, not the message text. Among other things, the int and uint messages at validation.go lines 69, 73, 77 and 81 say "greater" where the bound is a minimum, and print `min` in the maximum case; the wording is not modelled.
- `uuid.Parse` and `uuid.MustParse` are parameters. A uuid is a number.
- TestHelpers.NumberUuid: `len` in Go counts bytes, while the model counts characters. The two differ only for non-ASCII string sources, and `%v` of an int is ASCII.
- The random generator and its time seed are left out. The draws are a parameter. A negative size, or an empty alphabet with a positive size, panics in Go and is `None` here.
- Go slices. Aliasing through `append` is not modelled, and a nil slice is the empty sequence.
- The `ENV` variable read by `NewClient` is a parameter.
- The rest of the repository is not part of this model: the HTTP client, mailer, middlewares, key generation, secure codes, Postgres metadata, providers, and `test.GetPostgres`.

## Findings

| source | as written | input that shows it | evidently intended | confidence | as-written member | corrected member |
|---|---|---|---|---|---|---|
| validation.go:14 and validation.go:36 | the pointer case guards with `value == nil` / `value != nil`, but an interface holding a nil `*T` is not nil, so `r.Elem().Interface()` panics | `CheckRequire((*string)(nil))`, `CheckMinMax((*string)(nil), 0, 10)` | a nil pointer fails `CheckRequire` with "value cannot be nil" and passes `CheckMinMax` | not executed | Validation.CheckRequireAsWritten, Validation.CheckMinMaxAsWritten, Validation.NilPointerPanics | Validation.CheckRequire, Validation.MinMax, Validation.CheckRequirePasses, Validation.MinMaxWithinBounds |
| errors/http.go:47 | the response body is passed to `fmt.Errorf` as the format string | a body `5%` becomes `5%!(NOVERB)`; a body `%d` becomes `%!d(MISSING)` | the body text is kept verbatim (`errors.New`) | not executed | HttpErrors.BodyErrorAsWritten, HttpErrors.BodyPercentMangled | HttpErrors.BodyError, HttpErrors.PlainTextUnchanged, HttpErrors.NewHTTPClientErr |
