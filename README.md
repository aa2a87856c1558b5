# Database adapter and static file filter, modelled in Dafny

This project models two small pieces of deterministic logic from the Go
service: the database adapter of package `object` (`object/adapter.go`) and
the static file filter of package `routers` (`routers/filter.go`). Each is
stated in Dafny and its properties are proved.

**Adapter** (module `Object`, `object_adapter.dfy`):

- Connection strings. `AdminDsn` gives the Postgres administrative
  connection string and `DataDsn` gives the data connection string for
  either dialect.
- Provisioning, opening and closing. The database server and xorm are
  represented by scripted answers (`Replies`). `CreateDatabaseRun`,
  `SyncRun` and `OpenRunOf` are specification functions. Each returns the
  sequence of requests the adapter makes (`Call`) and the error it ends
  with.
- The `Adapter` class holds `driverName`, `dataSourceName` and the
  `engine` field. `CreateDatabase`, `Open`, `Close` and `CreateTable` are
  its methods. A `Server` object records each request, and each method is
  proved to make exactly the requests its specification function lists.
- Panics in the source become `Error` results.
- Listing queries. `GetSession` builds a `QuerySpec`: an optional page,
  ordered `Condition`s (SQL text plus bound arguments), a sort column and a
  direction. `util.FilterField` and `util.SnakeString` are function
  parameters.

**Filter** (module `Routers`, `routers_filter.dfy`):

- `ResolvePath` maps a request path to the file it is served from. Paths
  under `/api/` are skipped, and missing files fall back to the index
  document.
- `ReplaceTokens` is the chain of four guarded substitutions of quoted
  branding tokens.
- `TransparentStatic` composes the two. `util.FileExist` and
  `util.ReadStringFromPath` are function parameters.

**Go strings** (module `GoStrings`, `go_strings.dfy`): the parts of Go's
`strings` package both files use. `Index`, `Contains`, `HasPrefix` and
`Replace` with count 1 (`ReplaceFirst`) are modelled, as are `ReplaceAll`,
`Split` and `Join`. `ReplaceAll` replaces every non-overlapping
occurrence, found left to right, and is proved equal to
`Join(Split(s, old), new)`.

Where the design description and the code disagree, the model follows the
code:

- `close` is not idempotent. It dereferences the engine, so `Close`
  requires one.
- Every driver name other than `postgres` takes the MySQL path.
- Pagination is applied whenever neither `offset` nor `limit` is -1. Other
  negative values are passed through, not rejected.
- Unknown filter fields are dropped silently, as the design says.
- Any sort order other than `ascend` sorts descending, as the design says.

## Model

| member | source | states |
|---|---|---|
| `GoStrings.IndexSpec` | object/adapter.go:81 | strings.Index, behind strings.Contains: a non-negative result is an occurrence of the pattern and none lies before it; on -1 there is no occurrence at all |
| `GoStrings.IndexIsFirst` | object/adapter.go:81 | Index is -1 exactly when the pattern is absent, and equals every leftmost occurrence |
| `GoStrings.ReplaceFirstSpec` | object/adapter.go:83 | strings.Replace with count 1 rewrites the leftmost occurrence only, and leaves a string without occurrences unchanged |
| `GoStrings.Index` | object/adapter.go:81 | strings.Index by recursion on the string: -1 or a position where the pattern fits inside the string; what it finds is stated by IndexSpec and IndexIsFirst |
| `GoStrings.Contains` | object/adapter.go:81 | strings.Contains as Index >= 0, so by IndexIsFirst it holds exactly when the pattern occurs |
| `GoStrings.HasPrefix` | routers/filter.go:42 | strings.HasPrefix: the string starts with the prefix |
| `GoStrings.ReplaceFirst` | object/adapter.go:83 | strings.Replace with count 1, through Index; its meaning is stated by ReplaceFirstSpec |
| `GoStrings.ReplaceAll` | routers/filter.go:74 | strings.ReplaceAll for a non-empty pattern, through Index; its meaning is stated by ReplaceAllIsJoinSplit, ReplaceAllSelf and ReplaceAllAbsent |
| `GoStrings.Split` | routers/filter.go:74 | strings.Split for a non-empty separator: at least one piece; the reference definition ReplaceAll is proved against (JoinSplit, SplitPiecesFree) |
| `GoStrings.Join` | routers/filter.go:74 | strings.Join: the parts with the separator between consecutive ones; the other half of the reference definition of ReplaceAll |
| `GoStrings.ReplaceAllAbsent` | routers/filter.go:73-84 | ReplaceAll leaves a string in which the pattern does not occur unchanged |
| `GoStrings.ReplaceAllWhole` | routers/filter.go:74 | a string that is exactly the pattern becomes exactly the replacement |
| `GoStrings.ReplaceAllIsJoinSplit` | routers/filter.go:74 | ReplaceAll equals Join(Split(s, old), new): every non-overlapping occurrence, found left to right, is replaced |
| `GoStrings.JoinSplit` | routers/filter.go:74 | joining the Split pieces with the separator gives back the input |
| `GoStrings.SplitPiecesFree` | routers/filter.go:74 | no Split piece contains the separator, so the text between replaced tokens holds no token |
| `GoStrings.ReplaceAllSelf` | routers/filter.go:73-74 | replacing a token by itself changes nothing |
| `Object.AdminDsn` | object/adapter.go:80-86 | the admin connection string of createDatabase on Postgres; its three cases are stated by AdminDsnSpec |
| `Object.DataDsn` | object/adapter.go:122-135 | the data connection string of open for both dialects; its four cases are stated by DataDsnSpec |
| `Object.AdminDsnSpec` | object/adapter.go:80-86 | without `dbname=` the DSN gets ` dbname=postgres` appended; with `dbname=` but no `dbname=<dbName>` it is unchanged; otherwise only the first `dbname=<dbName>` becomes `dbname=postgres` |
| `Object.DataDsnSpec` | object/adapter.go:122-135 | MySQL: the DSN followed by dbName; Postgres: ` dbname=<dbName>` appended when there is no `dbname=`, else only the first `dbname=postgres` becomes `dbname=<dbName>` (unchanged when absent) |
| `Object.DsnsWithoutDbName` | object/adapter.go:85 | a Postgres DSN with no `dbname=` gets ` dbname=postgres` for the admin connection and ` dbname=<dbName>` for the data connection |
| `Object.DsnsNamingPostgres` | object/adapter.go:81-128 | a DSN naming `postgres` and not dbName is used as is for admin (equal to the input); the data DSN is the same string with its first `dbname=postgres` naming dbName instead |
| `Object.DsnsNamingTarget` | object/adapter.go:81-128 | a DSN naming dbName and not `postgres` is pointed at `postgres` for admin and used as is for data (equal to the input) |
| `Object.AdminAndDataDsnDifferOnlyInDatabase` | object/adapter.go:78-131 | for each of the three DSN shapes the rules handle, admin and data DSN are one string that differs only in naming `postgres` versus dbName |
| `Object.AdminDsnMatchesSubstring` | object/adapter.go:83 | the admin rule matches `dbname=<dbName>` as a substring: with dbName "my", "dbname=mydb" becomes "dbname=postgresdb" |
| `Object.CreateDatabaseRun` | object/adapter.go:75-115 | the requests createDatabase makes and the error it returns, for each answer of the server; stated by the three lemmas below and AdminEngineIsAlwaysClosed |
| `Object.PostgresCreatesOnlyWhenCountIsZero` | object/adapter.go:94-103 | once the admin engine exists: a failed pg_database query is that error with no statement; a count of 0 runs `CREATE DATABASE <dbName>` through the admin connection and succeeds iff that statement does; a non-zero count is success with no statement |
| `Object.MySqlCreatesIfMissingOnce` | object/adapter.go:106-114 | MySQL runs exactly one statement, `CREATE DATABASE IF NOT EXISTS <dbName> default charset utf8 COLLATE utf8_general_ci`, and succeeds exactly when it does |
| `Object.AdminEngineIsAlwaysClosed` | object/adapter.go:87-114 | provisioning first creates its engine; if that fails it stops with that error, otherwise its last request closes that engine on every path, and all statements go through it |
| `Object.ProvisioningNeverSyncs` | object/adapter.go:75-115 | createDatabase makes no table-sync request |
| `Object.SyncRun` | object/adapter.go:151-176 | createTable's requests and error over a list of tables; stated by SyncStopsAtFirstFailure |
| `Object.SyncFrom` | object/adapter.go:151-176 | the same for the tables from a given position on, stopping at the first failure |
| `Object.SyncStopsAtFirstFailure` | object/adapter.go:151-176 | tables are synced in the given order through one engine; success iff no table fails; on failure the last table attempted is the first failing one and the error names it |
| `Object.OpenRunOf` | object/adapter.go:117-144 | open's requests, error and installed engine: createDatabase, then the rest with the data connection string; stated by the three lemmas below |
| `Object.OpenRunAfter` | object/adapter.go:118-143 | the rest of open once createDatabase has run: stop on its error, else create, install and sync the data engine |
| `Object.OpenInstallsEngineOnlyAfterProvisioning` | object/adapter.go:117-142 | open installs an engine iff createDatabase returned no error and the data engine was created, and it is the engine for the data DSN |
| `Object.OpenSucceedsIff` | object/adapter.go:117-144 | open succeeds iff it installed an engine and none of the five tables fails to sync |
| `Object.OpenSyncsOnlyThroughDataEngine` | object/adapter.go:137-143 | open first makes provisioning's requests; every table-sync request comes after the data engine is created, goes through it and follows Asset, Provider, Machine, Record, Session |
| `Object.Adapter.constructor` | object/adapter.go:61-64 | a new adapter keeps the driver and DSN and has no engine |
| `Object.Adapter.CreateDatabase` | object/adapter.go:75-115 | makes exactly the requests of CreateDatabaseRun and returns its error |
| `Object.Adapter.Open` | object/adapter.go:117-144 | makes exactly the requests of OpenRunOf and returns its error; the engine field is set only when that run installs one |
| `Object.Adapter.Close` | object/adapter.go:146-149 | requires an engine, closes it and leaves `engine` nil |
| `Object.Adapter.CreateTable` | object/adapter.go:151-176 | five straight-line Sync2 calls make exactly the requests of SyncRun over the fixed order and return its error |
| `Object.NewAdapter` | object/adapter.go:61-73 | a fresh adapter for the driver and DSN, opened at once; its engine is the one the open run installs |
| `Object.GetSession` | object/adapter.go:178-200 | page iff offset and limit are both not -1; an `owner=?` condition first iff owner is non-empty; a `<snake(field)> like ?` condition binding `%value%` last iff field and value are non-empty and FilterField accepts the field; sort by snake(created_time) when sortField or sortOrder is empty, else snake(sortField); ascending iff sortOrder is `ascend` |
| `Object.ValueIsOnlyEverBound` | object/adapter.go:186-190 | two requests differing only in a non-empty filter value give the same SQL texts, ordering and page: the value is only bound |
| `Object.UnlistedFieldIsIgnored` | object/adapter.go:186-190 | a field FilterField rejects gives the same query as no filter at all, so only the owner condition can remain |
| `Object.SortFieldIsNotAllowListed` | object/adapter.go:191-198 | the sort column is snake(sortField) even when FilterField rejects it, and ordering does not depend on FilterField |
| `Object.OwnerPageExample` | object/adapter.go:180-198 | owner "acme", offset 0, limit 10, nothing else: one owner condition, page (10, 0), snake(created_time) descending |
| `Object.FilterAndSortExample` | object/adapter.go:178-200 | no paging, filter `name` on `foo`, ascending on `name`: `name like ?` binding `%foo%`, ordered by name ascending |
| `Routers.ResolvePath` | routers/filter.go:40-55 | skipped iff the path starts with `/api/`; `/` serves the index; another path serves `web/build` + path when that file exists and the index otherwise |
| `Routers.ServedPathIsUnderBuildDir` | routers/filter.go:46-55 | every served path starts with `web/build` |
| `Routers.ApiPrefixNeedsTheSlash` | routers/filter.go:42-44 | `/api/assets` is skipped, while `/api` and `/apix` are served from the build |
| `Routers.Quote` | routers/filter.go:74 | a token is matched in its double-quoted form |
| `Routers.Substitute` | routers/filter.go:73-75 | one guarded substitution: ReplaceAll of the quoted shipped value by the quoted configured value when the two differ |
| `Routers.ReplaceTokens` | routers/filter.go:72-84 | the four substitutions in their fixed order, each on the previous one's output; stated by the lemmas below |
| `Routers.GuardOnlySavesWork` | routers/filter.go:73-84 | each `old != new` guard changes no result: the substitution equals the unguarded ReplaceAll |
| `Routers.SubstituteKeepsTextBetweenTokens` | routers/filter.go:74 | the content is token-free pieces joined by `"old"`, and the result is the same pieces joined by `"new"`: only quoted tokens change |
| `Routers.QuotedAbsentWithoutQuotes` | routers/filter.go:74 | a quoted token never occurs in content that has no double quote |
| `Routers.UnquotedContentIsUnchanged` | routers/filter.go:72-84 | content without a double quote is served unchanged whatever is configured: unquoted values are untouched |
| `Routers.ShippedBrandingChangesNothing` | routers/filter.go:29-38 | with the configured values equal to the shipped ones, the content is unchanged |
| `Routers.SubstitutionsApplyInOrder` | routers/filter.go:73-78 | each substitution rewrites the previous one's output: an endpoint configured as the shipped client id is then rewritten to the configured client id |
| `Routers.TransparentStatic` | routers/filter.go:40-86 | no response iff the path starts with `/api/`; the served path is the index or an existing `web/build` + path; with the shipped branding the file's content is served as read |

## Left out

- xorm and the database server (`NewEngine`, `SQL(...).Get`, `Exec`, `Sync2`, `Prepare`, `Close`) are foreign I/O. Their answers are the oracle functions of `Replies`. What `Sync2` does to a table (create, add columns) is not modelled.
- Configuration loading (`InitConfig`, `InitAdapter`, `beego.AppConfig`, `conf.GetConfigString`) and the global `adapter` variable are ambient configuration. `dbName`, the driver, the DSN and the configured branding are parameters. The model assumes that the two reads of `dbName` (lines 76 and 123) give the same value.
- `finalizer` and `runtime.SetFinalizer` run when the garbage collector decides, which cannot be stated as a sequential step.
- Object.GetSession: `adapter.engine.Prepare()` needs an open global adapter. The model builds the query independently of any engine and does not require one.
- The internals of `util.FilterField`, `util.SnakeString`, `util.FileExist` and `util.ReadStringFromPath` are unknown and are uninterpreted function parameters.
- `dbName` is spliced into the `CREATE DATABASE` text unquoted. The statements are modelled as strings; SQL lexing and injection through `dbName` are not.
- In `serveFileWithReplace`, `os.Open`, `filepath.Clean`, `Stat` and `http.ServeContent` are file and HTTP I/O, including their panics when the file cannot be opened. `ResolvePath` works on the textual path: `..` segments are not cleaned.
- GoStrings.ReplaceAll: requires a non-empty pattern. Go's empty-pattern case, which inserts between runes, is not modelled. Every call site passes a quoted, non-empty token.
- Dafny `string` (a sequence of characters) stands for Go's byte strings. The filter runs on every served file, binary assets included. The string operations modelled are generic over the element type, so reading each character as one byte keeps them exact; UTF-8 decoding is not modelled.
- `Replies` answers each request as a fixed function of its arguments, and an engine is identified only by its connection string. Properties about repeated calls whose answers change (a second provisioning after a CREATE, say) cannot be expressed.
- Integers are unbounded. The source compares the int64 count with 0 and `offset`/`limit` with -1, and does no arithmetic on them, so widths do not matter.
