# Database column classifier — a Dafny model

This project models the core of a service that scans MySQL databases and
labels each column with the kind of personal data it probably holds (e-mail
address, credit-card number, national id and so on). The model has four parts:

- **The column-name classifier** (`classifier.dfy`).
  - It holds a list of regular-expression patterns, ordered by priority.
  - It scores every pattern that matches a cleaned column name.
  - It answers with the best match's type and score, plus the texts of all
    matches in order of score.
- **The classification service** (`classification_service.dfy`).
  - It keeps a store of pattern records and a matcher built from the active
    ones. The matcher is replaced only when a rebuild succeeds.
  - It creates, updates and deletes patterns, reloading after each change.
  - It seeds default patterns into an empty store.
- **The scan service** (`scan.dfy`, `risk.dfy`, `scan_service.dfy`).
  - A scan walks the inspector's schemas, tables and columns, and classifies
    every column.
  - It builds the result tree and counts the columns per information type.
  - It maps the counts to a risk level.
  - It moves the scan record through pending, running and
    completed/failed/cancelled.
  - It answers the history and "latest classification" queries.
- **The configuration and the metadata connection string** (`config.dfy`,
  `dsn.dfy`). The configuration is read from the environment with defaults
  and validated. The DSN is built in the MySQL driver's format.

Shared pieces:

- `domain.dfy`: the enumerations and records.
- `text.dfy`: Go's trimming, lower-casing (over a given rune mapping), `len`
  in bytes, `%d` and `strconv.Atoi`.
- `sorting.dfy`: a descending insertion sort that stands for `sort.Slice`.
- `wrappers.dfy`: `Option` and `Result`.

Modelling choices:

- **Scores** are integer hundredths (0..100). The risk percentages are
  compared by cross-multiplication, e.g. `100·(high+medium) > 20·total`.
- **The regular-expression library and the Unicode case tables** are the
  `Engine` value. Its functions are whether a pattern compiles, whether it
  matches a name, the leftmost match, and `unicode.ToLower` of one rune,
  which `strings.ToLower` applies rune by rune. `CleanNameOfAscii` shows that
  for an ASCII name, with a mapping that agrees with Go's on ASCII, the
  cleaned name is the trimmed name with 'A'..'Z' lower-cased.
- **Information types.** Go's information type is a string type, and so is
  the model's `InformationType`. The sentinel "N/A" and the 18 named types
  are string constants. A text read from a seed file or a request is used as
  it is, as Go's conversion does. So a text that spells a declared constant
  is that constant, and there is no second spelling of it.
- **Ordering ties.** Go's `sort.Slice` is not stable. So a classification is
  specified by the predicate `IsClassification`, which allows every order of
  equal scores. `ClassificationUpToTies` proves that all the answers it allows
  agree on the score and on the multiset of matched texts.
- **Stores.**
  - The pattern store is a sequence of records.
  - The scan-result store and the connection store are maps keyed by id.
  - The store operations the services use (`GetActive`, `ExistsByPattern`,
    `Create`, `Update`, `Delete`, `UpdateStatus`, `Update` of a scan, the
    history queries) are written over them with the repository's rules. For
    example, a status write stamps `completedAt` exactly for a terminal
    status, and an unknown id is "scan result not found".
  - `GetActive` keeps its `ORDER BY priority DESC, created_at DESC`. The
    classifier build reports the first pattern in that order that fails to
    compile. Rows equal in both keys come in an order the query leaves open,
    so the reload promises only that the reported pattern is one a query
    answer puts first among the failing active rows.
- **Outside values become parameters:**
  - clock readings;
  - fresh ids;
  - the decrypted password (a `Result`);
  - the schema inspector (an `Inspector` of functions);
  - the classification service as the scan sees it: a fixed function
    `classify` from a column name to its classification;
  - the seed file's contents;
  - `time.ParseDuration`.
- **Concurrency.** The scan goroutine is modelled as a separate call,
  `RunScan`, taken after `StartScan`. A cancellation stored between the two
  is then overwritten by the run's final write. The source behaves the same
  way, because neither `performScan` nor the final `Update` re-reads the
  status.

Behaviour of the code that the model keeps:

- **Blank column names.** `ClassifyColumn` tests for the empty name before
  trimming (pkg/classifier/classifier.go:63). A name made only of spaces is
  therefore matched as `""`, and a pattern that matches the empty string
  classifies it (`BlankNameMatchedAsEmpty`).
- **The confidence score's re-test.** The score function tests the match
  again. From `ClassifyColumn` that test always succeeds, so the exactness
  bonus there is 10 or 20 hundredths, never 0 (`MatchedBonusNeverZero`).
- **Defaults hide part of the validation.** Every metadata-database setting
  has a non-empty default, so `Load` can fail only on the two secrets
  (`LoadNeedsOnlySecrets`). The host, user, password and database-name checks
  of `validate` are never reached through `Load`.

## Model

| member | source | states |
|---|---|---|
| Domain.ParseScanStatus | internal/domain/entities.go:43-51 | a status parsed from a text has that text as its name |
| Domain.ScanStatusValues | internal/domain/entities.go:45-51 | there are exactly five statuses, and each one's name parses back to it |
| Domain.CancellableIsNotTerminal | internal/service/scan_service.go:266 | a status can be cancelled exactly when it is not terminal (pending or running) |
| Domain.DeclaredTypesDistinct | internal/domain/entities.go:75-95 | the declared types are "N/A" plus 18 named types, no two spelled alike |
| Domain.RiskLevelValues | internal/domain/entities.go:107-114 | there are exactly four risk levels, with distinct names |
| Classifier.FromRecords | pkg/classifier/classifier.go:45-51 | each stored pattern record becomes a classifier pattern with the same type, text, description and priority, in order |
| Classifier.CleanNameOfAscii | pkg/classifier/classifier.go:76 | for an ASCII name and a rune mapping that agrees with `unicode.ToLower` on ASCII, the cleaned name is the trimmed name with 'A'..'Z' lower-cased |
| Classifier.Clamp | pkg/classifier/classifier.go:137-142 | the result lies in 0..100 and leaves values already inside unchanged |
| Classifier.ConfidenceScore | pkg/classifier/classifier.go:113-145 | priority plus exactness bonus minus generic-name penalty, clamped, always lies in 0..100 |
| Classifier.ScoreMonotoneInPriority | pkg/classifier/classifier.go:114-135 | with the same kind of match, a higher priority never scores lower |
| Classifier.BoundPriorityScoresPositive | internal/domain/entities.go:131 | a matching pattern whose priority is within the request bound 1..100 scores above 0 |
| Classifier.ScoreOfExactGenericName | pkg/classifier/classifier.go:116-135 | "id" matched whole by a priority-50 pattern scores 50 + 20 − 10 = 60 |
| Classifier.MatchesOf | pkg/classifier/classifier.go:78-86 | the matches are at most the patterns; `MatchesOfMembers` and `MatchesOfTexts` state which they are and in what order |
| Classifier.Texts | pkg/classifier/classifier.go:101-104 | one text per match; `TextsAt` gives the text at each position |
| Classifier.TextsAt | pkg/classifier/classifier.go:101-104 | the text at each position is the text of the pattern of the match at that position, so the order is kept |
| Classifier.Classifier.NewClassifier | pkg/classifier/classifier.go:30-36 | succeeds exactly when every pattern compiles, holding a permutation of the inputs; otherwise reports the first pattern that fails |
| Classifier.Classifier.SetPatterns | pkg/classifier/classifier.go:38-60 | on success the list is a permutation of the inputs in non-increasing priority order; on a compile error it reports the first bad pattern and leaves the list unchanged |
| Classifier.CompileAll | pkg/classifier/classifier.go:39-52 | the compile loop reports no error exactly when every pattern compiles, and then yields one pattern per record, in order; otherwise it reports the first pattern that fails |
| Classifier.AllCompilePermutation | pkg/classifier/classifier.go:39-44 | whether every record compiles does not depend on the order the records come in |
| Classifier.FromRecordsOfPermutation | internal/service/classification_service.go:68-81 | reordering the records reorders the patterns built from them the same way |
| Classifier.CompiledPermutation | pkg/classifier/classifier.go:54-58 | every pattern of a reordering of compiled records compiles |
| Classifier.Classifier.CalculateConfidenceScore | pkg/classifier/classifier.go:113-145 | the loop over the common words computes exactly `ConfidenceScore` |
| Classifier.Classifier.ClassifyColumn | pkg/classifier/classifier.go:62-111 | the answer is a classification of the name: "N/A", 0 and no texts for an empty raw name or no match; otherwise the matches in some non-increasing score order, the first deciding type and score, and all texts listed |
| Classifier.Classifier.CollectMatches | pkg/classifier/classifier.go:78-86 | the match loop yields exactly the matches of the patterns, in list order, each with its score |
| Classifier.ListTexts | pkg/classifier/classifier.go:101-104 | the text loop lists the pattern texts of the ordered matches, one per match and in the same order |
| Classifier.Classifier.AddPattern | pkg/classifier/classifier.go:147-161 | a pattern that compiles is added exactly once and priority order is kept; otherwise the compile error is returned and nothing changes |
| Classifier.Classifier.GetPatterns | pkg/classifier/classifier.go:163-165 | the list returned is in non-increasing priority order |
| Classifier.Classifier.RemovePattern | pkg/classifier/classifier.go:167-175 | the list becomes `Without` the given (type, text) pair |
| Classifier.WithoutMembers | pkg/classifier/classifier.go:169-173 | removal drops every copy of the matching entries and keeps every other entry as many times as before |
| Classifier.WithoutSubset | pkg/classifier/classifier.go:169-173 | an entry survives removal exactly when it was present and is not the removed pair |
| Classifier.WithoutKeepsOrder | pkg/classifier/classifier.go:167-175 | removal keeps a sorted list sorted |
| Classifier.WithoutAppend | pkg/classifier/classifier.go:169-173 | removal distributes over concatenation, so the survivors keep their relative order |
| Classifier.MatchesOfTexts | pkg/classifier/classifier.go:78-86 | the texts of the matches are the texts of the matching patterns, in list order |
| Classifier.MatchesOfMembers | pkg/classifier/classifier.go:78-86 | every match is a pattern of the list that matches, with its score, and every matching pattern gives a match |
| Classifier.MatchedBonusNeverZero | pkg/classifier/classifier.go:117-123 | for a pattern that matched, the exactness bonus is 20 or 10, never 0 |
| Classifier.ClassificationListsEveryMatch | pkg/classifier/classifier.go:78-104 | the matched texts are, as a multiset, exactly the texts of the patterns that match the cleaned name |
| Classifier.ClassificationPicksBest | pkg/classifier/classifier.go:96-110 | with a match, the answer's type and score are those of a match of maximal score, within 0..100, and some text is listed |
| Classifier.ClassificationOfNoMatch | pkg/classifier/classifier.go:63-94 | an empty raw name, or a cleaned name no pattern matches, yields "N/A", 0 and no texts |
| Classifier.ClassificationUpToTies | pkg/classifier/classifier.go:96-98 | two answers allowed for the same name and patterns have the same score and the same matched texts |
| Classifier.ClassificationIgnoresPatternOrder | pkg/classifier/classifier.go:54-56 | the answers allowed depend only on the multiset of patterns, not on their order |
| Classifier.ClassifiedIffMatched | pkg/classifier/classifier.go:88-110 | when no pattern is typed "N/A", the answer is "N/A" exactly when no text is listed |
| Classifier.BlankNameMatchedAsEmpty | pkg/classifier/classifier.go:63-76 | a name of spaces only is matched as "", so a pattern matching "" classifies it and is listed |
| ClassificationService.Active | internal/repository/classification_pattern_repository.go:93 | the active records are at most the records; `ActiveMembers` states which they are |
| ClassificationService.GetActive | internal/repository/classification_pattern_repository.go:89-95 | the answer holds exactly the active records, each as often as stored, ordered by priority and then creation time, both descending |
| ClassificationService.ActiveOrderFirstError | internal/repository/classification_pattern_repository.go:94 | whichever tie order the query picks, the first failing pattern of its answer belongs to an active record that does not compile, and no other such record has a higher priority, or the same priority and a later creation |
| ClassificationService.ActiveMembers | internal/repository/classification_pattern_repository.go:89-117 | a record is active exactly when it is stored and flagged active |
| ClassificationService.Updated | internal/repository/classification_pattern_repository.go:149-180 | an update keeps the number of records; `UpdatedRows` states what each record becomes |
| ClassificationService.UpdatedRows | internal/service/classification_service.go:140-147 | the record with the id gets the requested type, text, description and priority, becomes active, and keeps its id and creation time; other records are unchanged |
| ClassificationService.Dropped | internal/repository/classification_pattern_repository.go:182-197 | a delete never adds records; `DroppedMembers` states which remain |
| ClassificationService.DroppedMembers | internal/repository/classification_pattern_repository.go:182-197 | after a delete exactly the records with other ids remain |
| ClassificationService.DroppedShrinks | internal/repository/classification_pattern_repository.go:182-197 | deleting a stored id removes at least one record |
| ClassificationService.Seeded | internal/service/classification_service.go:42-65 | seeding only appends to the store; `SeededCoversSeeds` and `SeededAddsOnlySeeds` state what is appended |
| ClassificationService.SeededCoversSeeds | internal/service/classification_service.go:42-65 | after seeding every seed's text is stored |
| ClassificationService.SeededKeepsTextsDistinct | internal/service/classification_service.go:43-49 | seeding never stores a text twice when the store held distinct texts |
| ClassificationService.SeededAddsOnlySeeds | internal/service/classification_service.go:51-60 | each appended record is an active record made from a seed, with the id handed out for that seed |
| ClassificationService.SeededKeepsIdsDistinct | internal/service/classification_service.go:51-60 | seeding with fresh, pairwise distinct ids keeps the stored ids distinct |
| ClassificationService.AppendKeepsIdsDistinct | internal/service/classification_service.go:98-110 | adding a record whose id is not stored keeps the stored ids distinct |
| ClassificationService.UpdatedKeepsIdsDistinct | internal/repository/classification_pattern_repository.go:149-180 | an update keeps the stored ids distinct |
| ClassificationService.DroppedKeepsIdsDistinct | internal/repository/classification_pattern_repository.go:182-197 | a delete keeps the stored ids distinct |
| ClassificationService.SeededSkipsStored | internal/service/classification_service.go:43-49 | seeds whose texts are all stored change nothing |
| ClassificationService.AppendKeepsTextsDistinct | internal/service/classification_service.go:90-96 | adding a record whose text is new keeps the stored texts distinct |
| ClassificationService.ClassificationService.New | internal/service/classification_service.go:23-29 | the repository afterwards holds the given rows, plus the seeded ones exactly when no row was active, a seed path was given and the seed file was read; this holds even when construction fails. An unreadable seed file is that error. Otherwise construction succeeds exactly when every active row of the resulting store compiles, and the service then holds that store and a matcher loaded from its active patterns |
| ClassificationService.ClassificationService.RefreshClassifier | internal/service/classification_service.go:76-87 | the matcher is replaced by one holding the given patterns exactly when they all compile; on an error the old matcher stays |
| ClassificationService.ClassificationService.ReloadMatcher | internal/service/classification_service.go:175-181 | the matcher is rebuilt from the active records exactly when they all compile; otherwise the matcher is kept and the error names the first failing pattern of an answer `GetActive` may give, which is a failing active record that none precedes in priority and creation order; the store is untouched |
| ClassificationService.ClassificationService.ClassifyColumn | internal/service/classification_service.go:162-173 | "N/A", 0 and no texts while no matcher is loaded; otherwise the loaded matcher's answer, which is a classification over the active patterns |
| ClassificationService.ClassificationService.CreatePattern | internal/service/classification_service.go:89-120 | an existing text is refused with nothing changed; otherwise the record is stored active and kept even if the reload fails; success returns the new id with the matcher loaded; distinct texts and distinct ids stay distinct |
| ClassificationService.ClassificationService.UpdatePattern | internal/service/classification_service.go:134-152 | an unknown id is an error without reload; otherwise the record is rewritten and the matcher reloaded; distinct ids stay distinct |
| ClassificationService.ClassificationService.DeletePattern | internal/service/classification_service.go:154-160 | an unknown id is an error without reload; otherwise the record is dropped and the matcher reloaded; distinct ids stay distinct |
| ClassificationService.ClassificationService.EnsurePatterns | internal/service/classification_service.go:31-74 | seeds only when no pattern is active and a path is given, skipping stored texts; an unreadable seed file changes nothing; otherwise it ends by loading the active set; with fresh seed ids, distinct ids stay distinct |
| Risk.RiskTypeLists | internal/service/scan_service.go:181-195 | five high-risk and five medium-risk types, all distinct, the lists disjoint, every entry a declared type other than "N/A" |
| Risk.SeenCountAdd | internal/service/scan_service.go:200-213 | visiting one more key adds its count exactly when it is in the list |
| Risk.SeenCountComplete | internal/service/scan_service.go:200-213 | having visited every key, the sum is the total count of the listed types |
| Risk.MapSumUpdate | internal/service/scan_service.go:133 | changing one count changes the sum of the counts by the difference |
| Risk.SensitiveAtMostAll | internal/service/scan_service.go:181-215 | the high- plus medium-risk counts are at most the sum of all counts |
| Risk.SensitiveCounts | internal/service/scan_service.go:197-213 | the loop over the count map sums the counts of the high-risk and of the medium-risk types |
| Risk.CalculateRiskLevel | internal/service/scan_service.go:176-227 | the level is `RiskLevelOf`: Low for no columns, else the ladder over the two sums |
| Risk.LevelLadder | internal/service/scan_service.go:215-226 | with columns: Low exactly when nothing is sensitive; High or above exactly when some column is high-risk or more than 15% are sensitive; Critical exactly when some column is high-risk and more than 20% are sensitive |
| Risk.LevelMonotone | internal/service/scan_service.go:215-226 | more sensitive columns never lower the level |
| Scan.ColumnResults | internal/service/scan_service.go:116-129 | one result per column, in order, copying name, data type, nullability and default and carrying the classifier's answer |
| Scan.TablesTreeMirrors | internal/service/scan_service.go:107-141 | the walk of a schema succeeds exactly when every table's columns can be read, and then lists the tables in inspector order |
| Scan.SchemasTreeMirrors | internal/service/scan_service.go:98-147 | the walk succeeds exactly when every schema's tables can be listed and walked, and then lists the schemas in inspector order |
| Scan.Classified | internal/service/scan_service.go:131-132 | the classified columns are at most all columns |
| Scan.CountByTypeCounts | internal/service/scan_service.go:131-134 | a type is a key exactly when it is not "N/A" and some column has it, and its count is its number of columns |
| Scan.CountsSumToClassified | internal/service/scan_service.go:131-134 | the counts sum to the number of classified columns |
| Scan.CountsPositive | internal/service/scan_service.go:133 | every count in the map is positive |
| Scan.SummaryConsistent | internal/service/scan_service.go:155-163 | in a summary the classified columns are at most all columns and equal the sum of the counts, "N/A" is no key, and the sensitive columns are at most all columns |
| Scan.TreeTotals | internal/service/scan_service.go:105-158 | the totals are the number of schemas, of tables listed per schema, and of columns read per table |
| Scan.TableColumnsCount | internal/service/scan_service.go:114 | the columns of a schema's tables are as many as the inspector reported |
| ScanService.WithStatus | internal/repository/scan_result_repository.go:184-210 | a status write stamps the completion time exactly for a terminal status |
| ScanService.HistoryLimit | internal/service/scan_service.go:239-241 | a limit that is not positive becomes 10; a positive one is kept |
| ScanService.ScanService.UpdateStatus | internal/repository/scan_result_repository.go:184-210 | an unknown id is "scan result not found" and changes nothing; otherwise only that record's status, message and completion time change |
| ScanService.ScanService.StartScan | internal/service/scan_service.go:36-55 | an unknown connection is an error and creates nothing; otherwise a pending record with an empty summary is stored under the new id and handed to the run |
| ScanService.ScanService.PerformScan | internal/service/scan_service.go:68-174 | the record is marked running; a failure of the decryption, connection, schema listing or walk returns that error's message; otherwise the completed record with the tree and summary replaces it and the connection is stamped |
| ScanService.ScanService.Walk | internal/service/scan_service.go:92-147 | the nested loops compute the walk of the schemas or its first error, with the table total, the column total, the classified count and the per-type counts of the tree |
| ScanService.ScanService.WalkTables | internal/service/scan_service.go:104-141 | the table loop of one schema computes its walk or first error and continues the running totals |
| ScanService.ScanService.WalkColumns | internal/service/scan_service.go:113-135 | the column loop builds the column results and continues the classified count and the per-type counts |
| ScanService.ScanService.RunScan | internal/service/scan_service.go:57-61 | a failed run is written as failed with its message; a successful one as completed; a stored scan always ends completed or failed |
| ScanService.ScanService.CancelScan | internal/service/scan_service.go:260-275 | an unknown scan or one neither pending nor running is an error that writes nothing; otherwise it becomes cancelled with "Cancelled by user" |
| ScanService.ScanService.GetScanResult | internal/service/scan_service.go:229-236 | the stored record, or the wrapped not-found error exactly when none is stored |
| ScanService.ScanService.GetScanHistory | internal/repository/scan_result_repository.go:78-107 | the connection's scans newest first, each at most once, at most the limit, fewer only when no more exist, and none left out started later than one returned |
| ScanService.ScanService.Matching | internal/repository/scan_result_repository.go:79-85 | exactly the stored records of the connection, each once |
| Sorting.DistinctPermutation | internal/repository/scan_result_repository.go:85-105 | reordering a list without repeats, as the `ORDER BY` does, introduces none |
| ScanService.ScanService.GetLatestClassification | internal/repository/scan_result_repository.go:109-120 | the completed scan of the connection that started last, or the not-found error exactly when it has none |
| ScanService.SchemasTreeFailurePersists | internal/service/scan_service.go:99-102 | once a schema fails, the whole walk fails with that error |
| ScanService.TablesTreeFailurePersists | internal/service/scan_service.go:108-111 | once a table fails, the schema's walk fails with that error |
| Sorting.SortDescBy | internal/repository/classification_pattern_repository.go:94 | the result is a permutation of the input ordered by the first key and, among equal first keys, by the second, both non-increasing |
| Sorting.InsertSortedBy | internal/repository/classification_pattern_repository.go:94 | inserting into a list in two-key descending order keeps that order |
| Sorting.SortDesc | pkg/classifier/classifier.go:54-56 | the result is a permutation of the input in non-increasing key order |
| Config.GetStringEnv | internal/config/config.go:113-118 | a set, non-empty variable is returned as is; an empty or unset one gives the default |
| Config.GetIntEnv | internal/config/config.go:120-127 | the parsed value when `Atoi` accepts the variable, else the default |
| Config.GetDurationEnv | internal/config/config.go:129-136 | the parsed duration when the parser accepts a non-empty variable, else the default |
| Config.IntEnvRoundTrip | internal/config/config.go:120-127 | an integer written in decimal is read back as itself |
| Config.IntEnvRejectsNonNumerals | internal/config/config.go:122-126 | a variable holding a character that is neither a digit nor a leading sign gives the default |
| Config.Validate | internal/config/config.go:88-111 | valid exactly when the key is 32 bytes and the JWT secret, host, user, password and database name are set; an empty key and a wrong-length key give their own messages |
| Config.FirstUnmet | internal/config/config.go:88-111 | no message exactly when every requirement holds |
| Config.FirstUnmetIsFirst | internal/config/config.go:88-110 | the message reported is that of an unmet requirement all of whose predecessors hold |
| Config.ValidateReportsFirstUnmet | internal/config/config.go:88-110 | `validate` reports the first failing check in the order key, key length, JWT secret, host, user, password, database name |
| Config.Load | internal/config/config.go:49-86 | the configuration read from the environment exactly when it validates; otherwise the validation message behind "configuration validation failed: " |
| Config.LoadNeedsOnlySecrets | internal/config/config.go:54-83 | loading succeeds exactly when the key is 32 bytes and the JWT secret is set, and any error is about one of those two |
| Dsn.Params | internal/infrastructure/database/metadata.go:39-42 | non-empty parameters are used as they are, empty ones become "parseTime=true&charset=utf8mb4&loc=UTC"; never empty |
| Dsn.ReadBuild | internal/infrastructure/database/metadata.go:38-52 | reading the connection string back gives the username, password, host, port, database name and parameters, when the fields hold no delimiter |
| Dsn.BuildEndsWithParams | internal/infrastructure/database/metadata.go:40-51 | the string always ends with "?" and a non-empty query part |

## Left out

- Regular expressions: Go's `regexp` is not part of this model. It is the `Engine` parameter: compilation, matching and the leftmost match are uninterpreted functions.
- Unicode case mapping: Go's `unicode.ToLower` tables are not part of this model. The rune mapping is the engine's `lower` field, so `Classifier.CleanNameOfAscii` pins the cleaned name down only for ASCII names; for other names it is the mapping applied rune by rune.
- Classifier.Classifier.ClassifyColumn: the order among matches of equal score is not fixed, because `sort.Slice` is not stable. Any such order is allowed, and `ClassificationUpToTies` shows that the score and the matched texts do not depend on it.
- Classifier.Classifier.SetPatterns: the order among patterns of equal priority is left open, for the same reason.
- Floating point: scores are hundredths and percentages are compared exactly. Rounding at exact float boundaries, and the float `ConfidenceScore` of the column results, are not modelled.
- Concurrency: the scan goroutine and the classification service's read-write lock are not modelled. A run is the separate sequential call `RunScan`. The race between a cancellation and a running scan is reduced to "the run writes last".
- SQL repositories: the pattern store, scan store and connection store are in-memory values. Their I/O, SQL and JSON errors are left out. These include "failed to load patterns", "failed to create pattern", "failed to create scan result", "failed to update scan result" and "failed to cancel scan".
- ClassificationService.ClassificationService.CreatePattern: requires the fresh id not to be stored yet. This stands for `uuid.New` never colliding.
- ScanService.ScanService.StartScan: requires the fresh scan id not to be stored yet, for the same reason.
- ClassificationService.ClassificationService.EnsurePatterns: requires the ids handed to the seeds to be pairwise distinct and not stored yet, for the same reason; `ClassificationService.ClassificationService.New` passes the same requirement on.
- ScanService.ScanService.PerformScan: the scan classifies every column with the fixed function `classify`. The model does not tie it to the classification service's matcher, which Go calls for each column and which another request may reload while a scan runs. So no scan lemma states that a column's answer is a classification over the active patterns.
- ScanService.ScanService.PerformScan: the final record write cannot fail, because the record is stored. The "failed to update scan result" path is therefore omitted. The connection stamp uses the end time for both `lastScannedAt` and `updatedAt`.
- ScanService.ScanService.GetScanHistory: ties in start time may be returned in any order; the SQL `ORDER BY` does not fix them either.
- The schema inspector: it is not part of this model. Connecting, listing schemas and tables and reading columns are the fields of the `Inspector` value. The system-schema filter is inside its SQL and is left out with it. `Close` is left out.
- Password decryption and id generation: they are not part of this model. The decrypted password is an input `Result`, and ids are inputs.
- Clocks: `time.Now` readings are inputs (`now`, `start`, `end`). The duration of a scan is `end - start`.
- Seed file: reading and parsing the JSON file is not modelled; its outcome is the `seeds` input.
- `GetPattern` and `GetAllPatterns` of the classification service are plain store reads and are not modelled.
- Configuration: reading the `.env` file and its warning print are left out; the environment is an input map. `time.ParseDuration` is the `parseDuration` parameter.
- Dsn.ReadBuild: the reading is a simple one, field by field. It is not the MySQL driver's own DSN parser, and the round trip is proved only for fields free of the delimiters ':', '@' and '?'.
- The metadata database pool (`NewMetadataDB`, its connection limits and ping) is not modelled.
- The database-connection service, the HTTP handlers, the router and `main` are not modelled.
- Request binding: the bounds on a pattern's priority (1..100) and a connection's port (1..65535) are stated by the `Bound` predicates of the request records. The model does not enforce them; `BoundPriorityScoresPositive` assumes the priority bound as a hypothesis.
