# go_budgeting core, modelled in Dafny

This project models the sequential core of go_budgeting, an envelope-budgeting
server, together with its Buckets import tool:

- **Month encoding.** `bcdate.go` encodes a month as `year*10000 + month*100`
  (module `BCDate`). `Epoch` is 0.
- **Query-month middleware.** The middleware turns the first `qm` query value of the
  form `YYYY-MM` into that encoding. Otherwise it falls back to the current month
  (module `QueryMonth`).
- **`ShiftPath`.** This is the URL router's segment splitter (module `ShiftPath`). It
  runs over a model of `path.Clean` for rooted paths (module `Path`).
- **Derived strings.** These are the `String` methods of the records: class and type
  labels, the debt envelope name, and the flag parts of `Account.String` and
  `Envelope.String` (module `ModelString`). Each rendering has a reader, and the
  contracts are round trips.
- **SQLite store.** Class `SQLite` holds the tables as fields (module `SQLiteDriver`):
  - the table reads;
  - the "latest checkpoint at or before a month" lookups behind `GetAccountSummary`
    and `GetEnvelopeSummary`;
  - the unimplemented mutators, which return an error and change nothing.
- **Batch inserts.** `Batch_NewAccountTransaction` and `Batch_NewEnvelopeTransaction`
  are modelled as methods over the store (module `Batch`). Each is proved equal to a
  specification function: inserts, then envelope rollups, then account rollups, then
  one overall pass, all from the same `oldest` month, with commit or roll back.
- **Buckets import.** The per-row conversion rules are in module `ImportRules`. The
  rest of the import tool's main routine is in module `BucketsToDB`:
  - the creation loops that fill the remap tables;
  - the three transaction loops;
  - the two batch inserts;
  - the starting-balance pass.

Supporting modules:

- `Wrappers`: Option, Result and the error values.
- `Strings`: `strings.Index`, `Count`, `Split` and `Join`.
- `Strconv`: `Atoi`, `Itoa` and the `%d` and `%03d` verbs.
- `DateText`: the digit groups of the two date patterns.
- `Loops`: the shapes of the import loops.
- `Model`: the record types.

The clock, the database engine and the rollup routines are parameters, and the import
tool runs against an abstract store whose creation outcomes are parameters:

- **Clock.** The current year and month.
- **Rollups.** The rollup routines are function-valued fields of the store. Each
  returns new checkpoint tables or an error.
- **Store calls.** The outcomes of the store interface's `NewEnvelopeGroup`,
  `NewAccount` and `NewEnvelope` are sequences of results. `GetDebtEnvelopeFor` is a
  function. The driver's own `NewAccount`, `NewEnvelopeGroup` and `NewEnvelope` are
  modelled as the stubs they are, but the import does not call them.
- **Database faults.** The Begin, insert-scan and Commit failures of a batch are a
  `Faults` value.
- **Query rows.** Each query's rows are sequences in the order the query returns them.

## Model

| member | source | states |
|---|---|---|
| BCDate.CurrentMonth | internal/pkg/bcdate/bcdate.go:7-11 | the encoding of (year, month) decodes back to that year and month, with a zero day field |
| BCDate.Epoch | internal/pkg/bcdate/bcdate.go:13-15 | Epoch lies below the encoding of every month of every year from 1 on |
| BCDate.CurrentMonthOrder | internal/pkg/bcdate/bcdate.go:10 | integer order of encoded months is calendar order, in both directions |
| BCDate.CurrentMonthInjective | internal/pkg/bcdate/bcdate.go:10 | distinct (year, month) pairs encode to distinct values |
| BCDate.Oldest | internal/pkg/db/driver_sqlite_batch.go:34 | returns one of its two arguments, and the result is no later than either (assumed contract, see Left out) |
| BCDate.PostDateWithinMonth | tools/buckets_to_db/main.go:367-372 | a post-date is its month's encoding plus the day, decodes to year, month and day, and lies strictly between that month and the next |
| DateText.YearGroupValues | internal/pkg/middleware/querymonth/querymonth.go:22 | the year group 2(0\|1)dd accepts exactly the four digit strings for 2000 to 2199 |
| DateText.MonthGroupValues | internal/pkg/middleware/querymonth/querymonth.go:22 | the month group accepts exactly 01 to 12 |
| DateText.DayGroupValues | tools/buckets_to_db/main.go:15 | the day group accepts exactly 01 to 31 |
| DateText.DateDigitsValue | tools/buckets_to_db/main.go:367 | year, month and day digits run together read as year*10000 + month*100 + day |
| Strconv.Atoi | internal/pkg/middleware/querymonth/querymonth.go:31 | a successful conversion is within the 64-bit range, and its input is a non-empty digit string or starts with a sign |
| Strconv.AtoiDigits | tools/buckets_to_db/main.go:367 | a plain run of 1 to 18 digits always converts, to its decimal value |
| Strconv.Itoa | internal/pkg/model/string.go:93 | %d writes a minus sign exactly for negative numbers, then the shortest digits of the magnitude |
| Strconv.ZeroPad3 | internal/pkg/model/string.go:95 | %03d writes at least three characters whose digits read back as the number, with a sign exactly for negatives |
| Strconv.AtoiItoa | internal/pkg/model/string.go:93 | Atoi reads back every 64-bit number Itoa writes |
| Strconv.AtoiZeroPad3 | internal/pkg/model/string.go:95 | Atoi reads back every 64-bit number %03d writes |
| Strings.IndexOf | internal/pkg/shiftpath/shiftpath.go:16 | -1 exactly when the character is absent, otherwise the position of its first occurrence |
| Strings.Split | tools/buckets_to_db/main.go:156 | strings.Split gives at least one piece, and no piece holds the separator |
| Strings.SplitJoin | tools/buckets_to_db/main.go:156 | joining the pieces of strings.Split with the separator gives the text back |
| Strings.SplitCount | tools/buckets_to_db/main.go:157 | strings.Split gives one piece more than the separator occurs |
| Strings.JoinSplit | tools/buckets_to_db/main.go:156 | splitting a join of separator-free pieces gives the pieces back |
| Path.CleanRooted | internal/pkg/shiftpath/shiftpath.go:15 | path.Clean of a rooted path is rooted |
| Path.CleanElementsOfJoin | internal/pkg/shiftpath/shiftpath.go:15 | a rooted path written from clean elements cleans back to exactly those elements |
| Path.CleanIdempotent | internal/pkg/shiftpath/shiftpath.go:15 | cleaning a cleaned path changes nothing |
| Path.LeadingSlashCleansAway | internal/pkg/shiftpath/shiftpath.go:15 | a doubled leading slash cleans away |
| Path.TrailingSlashCleansAway | internal/pkg/shiftpath/shiftpath.go:15 | a trailing slash cleans away |
| ShiftPath.ShiftPath | internal/pkg/shiftpath/shiftpath.go:14-21 | the head holds no slash; the tail starts with one; if the cleaned path has a second slash it is "/" + head + tail, otherwise it is "/" + head and the tail is "/" |
| ShiftPath.SplitCleaned | internal/pkg/shiftpath/shiftpath.go:16-20 | the split at the first slash after the root: head has no slash, tail is rooted, and they rebuild the cleaned path |
| ShiftPath.ShiftPathElements | internal/pkg/shiftpath/shiftpath.go:15-20 | the head is the first element path.Clean keeps ("" for the root), and the tail is "/" followed by the other elements joined by slashes |
| ShiftPath.HeadIsCleanElement | internal/pkg/shiftpath/shiftpath.go:16-20 | below the root the head is a real element: not empty, not "." or "..", no slash |
| ShiftPath.TailIsClean | internal/pkg/shiftpath/shiftpath.go:20 | the tail is already clean, so shifting it again continues with the next element |
| ShiftPath.LeadingSlashIgnored | internal/pkg/shiftpath/shiftpath.go:15 | ShiftPath("/" + p) equals ShiftPath(p) |
| ShiftPath.TrailingSlashIgnored | internal/pkg/shiftpath/shiftpath.go:15 | ShiftPath(p + "/") equals ShiftPath(p) |
| ShiftPath.ShiftCleanPath | internal/pkg/shiftpath/shiftpath.go:14-21 | a path written from clean elements shifts to its first element and "/" + the rest |
| ShiftPath.UnitTestRoot | internal/pkg/shiftpath/shiftpath_test.go:10-14 | "/" gives ("", "/") |
| ShiftPath.UnitTestOneSegment | internal/pkg/shiftpath/shiftpath_test.go:16-20 | "/foo" gives ("foo", "/") |
| ShiftPath.UnitTestTrailingSlash | internal/pkg/shiftpath/shiftpath_test.go:22-26 | "/foo/" gives ("foo", "/") |
| ShiftPath.UnitTestTwoSegments | internal/pkg/shiftpath/shiftpath_test.go:28-32 | "/foo/baz" gives ("foo", "/baz") |
| QueryMonth.FirstQM | internal/pkg/middleware/querymonth/querymonth.go:27-29 | there is a first value exactly when qm is present with at least one value, and it is the first of them |
| QueryMonth.ChooseMonth | internal/pkg/middleware/querymonth/querymonth.go:29-45 | a matching first value gives CurrentMonth of its captured year and month (year 2000 to 2199, month 1 to 12); anything else gives the current month; the result never has day digits |
| QueryMonth.MatchedMonthValue | internal/pkg/middleware/querymonth/querymonth.go:31 | on a matching text Atoi of the two groups and "00" succeeds with CurrentMonth of their values |
| QueryMonth.MonthDigits | internal/pkg/middleware/querymonth/querymonth.go:31 | Atoi(year digits + month digits + "00") is CurrentMonth of those values |
| QueryMonth.GetQM | internal/pkg/middleware/querymonth/querymonth.go:49-56 | returns the month the middleware stored; the missing-value panic is the precondition |
| QueryMonth.DownstreamMonthHasNoDay | internal/pkg/middleware/querymonth/querymonth.go:25-47 | the month a handler reads always has zero day digits, whichever branch ran |
| QueryMonth.AcceptsEveryMonthInRange | internal/pkg/middleware/querymonth/querymonth.go:22-31 | every YYYY-MM from 2000-01 to 2199-12 is accepted as first value, whatever follows, and gives CurrentMonth of that month |
| QueryMonth.MatchesOnlyFormattedMonths | internal/pkg/middleware/querymonth/querymonth.go:22 | the pattern accepts exactly the YYYY-MM texts of 2000-01 through 2199-12 |
| QueryMonth.OnlyFirstValueCounts | internal/pkg/middleware/querymonth/querymonth.go:29 | values after the first qm value do not change the result |
| QueryMonth.FallsBackToCurrentMonth | internal/pkg/middleware/querymonth/querymonth.go:27-45 | no qm, an empty qm list or a rejected first value give the current month |
| QueryMonth.RejectsExtraCharacters | internal/pkg/middleware/querymonth/querymonth.go:22 | "2024-03-01" and " 2024-03" are rejected and fall back; "2024-03" gives 20240300 |
| ModelString.AccountClassString | internal/pkg/model/string.go:5-20 | "UNKNOWN" exactly for an unknown class; every known class's label reads back as that class |
| ModelString.TransactionTypeString | internal/pkg/model/string.go:46-59 | the empty label exactly for the normal type, "UNKNOWN" exactly for an unknown type, and every known label reads back |
| ModelString.LabelsDistinct | internal/pkg/model/string.go:5-59 | two known classes, or two known types, with the same label are equal |
| ModelString.DebtEnvelopeName | internal/pkg/model/string.go:61-63 | the name starts with "Debt Account: " and, for an institution without a colon, reads back as (institution, name) |
| ModelString.DebtEnvelopeNameReadBack | internal/pkg/model/string.go:62 | the prefix, institution, colon and name read back as institution and name when the institution has no colon |
| ModelString.DebtEnvelopeNameInjective | internal/pkg/model/string.go:61-63 | for colon-free institutions, equal debt envelope names mean equal institution and name |
| ModelString.DebtEnvelopeNameAmbiguous | internal/pkg/model/string.go:62 | ("a:b", "c") and ("a", "b:c") share one debt envelope name |
| ModelString.AccountFlags | internal/pkg/model/string.go:24-42 | H, O and D show exactly when hidden, off-budget and debt are set, colons sit between them, and the text reads back as the three flags and the class |
| ModelString.GoalLetter | internal/pkg/model/string.go:81-92 | X exactly for an unknown goal; every other letter reads back as its goal |
| ModelString.EnvelopeFlags | internal/pkg/model/string.go:74-97 | H shows exactly when hidden, the goal letter follows " -- ", an arrow appears exactly when there is a debt account, and the text reads back as hidden, letter, amount, target and debt account whenever they fit 64 bits |
| ModelString.DebtSuffixArrow | internal/pkg/model/string.go:94-96 | the debt suffix is empty without a debt account, and otherwise has its arrow head third |
| ModelString.NumbersArrow | internal/pkg/model/string.go:93-96 | "=amount/target" plus suffix holds '>' exactly when there is a debt account |
| ModelString.RenderedNumberChars | internal/pkg/model/string.go:93-95 | %d and %03d never write '/', ' ' or '>', so the separators stay unambiguous |
| ModelString.NumbersReadBack | internal/pkg/model/string.go:93-96 | the amounts part reads back as amount, target and debt account when they fit 64 bits |
| ModelString.ParseTargetRoundTrip | internal/pkg/model/string.go:93-96 | the target with or without " -> " and the %03d id reads back |
| ModelString.ParseAmountsRoundTrip | internal/pkg/model/string.go:93-96 | "amount/target" with the optional suffix reads back |
| SQLiteDriver.LatestAtOrBefore | internal/pkg/db/driver_sqlite.go:176 | a found row belongs to the id, is not after the month and no row of the id has a later month not after it; nothing is found exactly when the id has no row at or before the month |
| SQLiteDriver.LatestIsMonotone | internal/pkg/db/driver_sqlite.go:176 | a later requested month finds a row whenever an earlier one does, and never an earlier month |
| SQLiteDriver.LatestIsStable | internal/pkg/db/driver_sqlite.go:176 | when the row found for a later month is not after an earlier month, the earlier month finds a row of the same month |
| SQLiteDriver.EnvelopesInGroup | internal/pkg/db/driver_sqlite.go:126-152 | exactly the envelopes of the group, never more than the table holds |
| SQLiteDriver.EnvelopesInGroupAppend | internal/pkg/db/driver_sqlite.go:131-147 | a new row extends the result by itself exactly when it is in the group |
| SQLiteDriver.SQLite.constructor | internal/pkg/db/driver_sqlite.go:18-20 | the store starts with the given tables and rollup routines |
| SQLiteDriver.SQLite.Restore | internal/pkg/db/driver_sqlite_batch.go:15 | the deferred rollback puts every table back as it was |
| SQLiteDriver.SQLite.GetAccounts | internal/pkg/db/driver_sqlite.go:54-81 | every account row, in table order, and nothing changes |
| SQLiteDriver.SQLite.GetEnvelopeGroups | internal/pkg/db/driver_sqlite.go:92-115 | every group row, in table order, and nothing changes |
| SQLiteDriver.SQLite.GetEnvelopesInGroup | internal/pkg/db/driver_sqlite.go:123-153 | exactly the envelopes whose group is the argument, in table order |
| SQLiteDriver.SQLite.GetAccountSummary | internal/pkg/db/driver_sqlite.go:174-189 | the latest account checkpoint of the id at or before the month; an error wrapping "no rows" exactly when there is none |
| SQLiteDriver.SQLite.GetEnvelopeSummary | internal/pkg/db/driver_sqlite.go:190-204 | the same for envelope checkpoints |
| SQLiteDriver.SQLite.SummariesAreMonotone | internal/pkg/db/driver_sqlite.go:176-192 | for M1 <= M2, a lookup that succeeds for M1 succeeds for M2 with a month at least as late |
| SQLiteDriver.SQLite.UpdateEnvelopeSummaries | internal/pkg/db/driver_sqlite_batch.go:38 | the checkpoints become what the envelope rollup wrote, and its error is returned |
| SQLiteDriver.SQLite.UpdateAccountSummaries | internal/pkg/db/driver_sqlite_batch.go:43 | the same for the account rollup |
| SQLiteDriver.SQLite.UpdateSummaries | internal/pkg/db/driver_sqlite_batch.go:47 | the same for the overall pass |
| SQLiteDriver.SQLite.InsertAccountTransaction | internal/pkg/db/driver_sqlite_batch.go:23-24 | the row is appended with the next id, which is returned, and nothing else changes |
| SQLiteDriver.SQLite.InsertEnvelopeTransaction | internal/pkg/db/driver_sqlite_batch.go:71-72 | the same for the envelope ledger |
| SQLiteDriver.SQLite.NewAccount | internal/pkg/db/driver_sqlite.go:82-84 | always "not implemented", and no table changes |
| SQLiteDriver.SQLite.UpdateAccount | internal/pkg/db/driver_sqlite.go:85 | always "not implemented", and no table changes |
| SQLiteDriver.SQLite.DeleteAccount | internal/pkg/db/driver_sqlite.go:86 | always "not implemented", and no table changes |
| SQLiteDriver.SQLite.SetStartingBalance | internal/pkg/db/driver_sqlite.go:88-90 | always "not implemented", and no table changes |
| SQLiteDriver.SQLite.NewEnvelopeGroup | internal/pkg/db/driver_sqlite.go:116 | always "not implemented", and no table changes |
| SQLiteDriver.SQLite.UpdateEnvelopeGroup | internal/pkg/db/driver_sqlite.go:117 | always "not implemented", and no table changes |
| SQLiteDriver.SQLite.DeleteEnvelopeGroup | internal/pkg/db/driver_sqlite.go:118 | always "not implemented", and no table changes |
| SQLiteDriver.SQLite.GetEnvelopes | internal/pkg/db/driver_sqlite.go:120-122 | an empty list with "not implemented" |
| SQLiteDriver.SQLite.NewEnvelope | internal/pkg/db/driver_sqlite.go:154 | always "not implemented", and no table changes |
| SQLiteDriver.SQLite.UpdateEnvelope | internal/pkg/db/driver_sqlite.go:155 | always "not implemented", and no table changes |
| SQLiteDriver.SQLite.DeleteEnvelope | internal/pkg/db/driver_sqlite.go:156 | always "not implemented", and no table changes |
| SQLiteDriver.SQLite.GetAllTransactions | internal/pkg/db/driver_sqlite.go:158-160 | an empty list with "not implemented" |
| SQLiteDriver.SQLite.GetAllAccountTransactions | internal/pkg/db/driver_sqlite.go:161-163 | an empty list with "not implemented" |
| SQLiteDriver.SQLite.GetAllEnvelopeTransactions | internal/pkg/db/driver_sqlite.go:164-166 | an empty list with "not implemented" |
| SQLiteDriver.SQLite.GetAccountTransactions | internal/pkg/db/driver_sqlite.go:167-169 | an empty list with "not implemented" |
| SQLiteDriver.SQLite.GetEnvelopeTransactions | internal/pkg/db/driver_sqlite.go:170-172 | an empty list with "not implemented" |
| SQLiteDriver.SQLite.GetOverallSummary | internal/pkg/db/driver_sqlite.go:205-207 | a zero summary with "not implemented" |
| SQLiteDriver.SQLite.UpdateTransaction | internal/pkg/db/driver_sqlite.go:209-211 | always "not implemented", and no table changes |
| SQLiteDriver.SQLite.NewAccountTransaction | internal/pkg/db/driver_sqlite.go:212-214 | always "not implemented", and no table changes |
| SQLiteDriver.SQLite.NewEnvelopeTransaction | internal/pkg/db/driver_sqlite.go:215-217 | always "not implemented", and no table changes |
| SQLiteDriver.SQLite.DeleteAccountTransaction | internal/pkg/db/driver_sqlite.go:218 | always "not implemented", and no table changes |
| SQLiteDriver.SQLite.DeleteEnvelopeTransaction | internal/pkg/db/driver_sqlite.go:219 | always "not implemented", and no table changes |
| Batch.BatchOldest | internal/pkg/db/driver_sqlite_batch.go:20-34 | oldest is no later than the current month or any post-date of the batch, and is one of them |
| Batch.TaggedEnvelopes | internal/pkg/db/driver_sqlite_batch.go:30-32 | eids has at most one entry per transaction |
| Batch.TaggedEnvelopesExactly | internal/pkg/db/driver_sqlite_batch.go:30-32 | an id is in eids exactly when some transaction carries it as a valid envelope id |
| Batch.AccountBatch | internal/pkg/db/driver_sqlite_batch.go:9-56 | on any error the store is as it was; it succeeds exactly when Begin, every insert, every rollup and Commit succeed; on success the account ledger gains exactly the batch, numbered from the next id, the checkpoints are those the completed rollup run computed over the inserted rows, and no other table changes |
| Batch.EnvelopeBatch | internal/pkg/db/driver_sqlite_batch.go:58-96 | the same for the envelope ledger and its rollups, with the checkpoints the completed envelope and overall rollups computed |
| Batch.AccountBatchSchedule | internal/pkg/db/driver_sqlite_batch.go:37-49 | one envelope rollup per tagged transaction, then one account rollup per transaction in input order with duplicates kept, then one overall pass, all from oldest |
| Batch.EnvelopeBatchSchedule | internal/pkg/db/driver_sqlite_batch.go:81-89 | one envelope rollup per transaction, then one overall pass, and no account rollup |
| Batch.RunIgnoresAccountRollup | internal/pkg/db/driver_sqlite_batch.go:81-89 | a run with no account rollup does not depend on the account rollup routine |
| Batch.EnvelopeBatchIgnoresAccountRollup | internal/pkg/db/driver_sqlite_batch.go:58-96 | the envelope batch's outcome does not depend on the account rollup routine |
| Batch.EmptyAccountBatch | internal/pkg/db/driver_sqlite_batch.go:20-49 | an empty batch keeps oldest at the current month, runs only the overall pass, and keeps or fails with its result |
| Batch.RunCallsAppend | internal/pkg/db/driver_sqlite_batch.go:37-49 | running two runs of rollups in a row is running the second from where the first completed, or stopping where it stopped |
| Batch.InsertAccountLoop | internal/pkg/db/driver_sqlite_batch.go:22-35 | fails exactly when an insert fails; on success the store holds the inserted rows and aids, eids and oldest are those of the batch |
| Batch.InsertEnvelopeLoop | internal/pkg/db/driver_sqlite_batch.go:70-79 | the same for the envelope batch, with one eid per transaction |
| Batch.EnvelopeRollupLoop | internal/pkg/db/driver_sqlite_batch.go:37-41 | runs the envelope rollups in order up to the first failure, and reports it; only the checkpoints change |
| Batch.AccountRollupLoop | internal/pkg/db/driver_sqlite_batch.go:42-46 | the same for the account rollups |
| Batch.OverallRollupStep | internal/pkg/db/driver_sqlite_batch.go:47-49 | one overall pass, and its error |
| Batch.BatchNewAccountTransaction | internal/pkg/db/driver_sqlite_batch.go:9-56 | the store left and the error returned are those of AccountBatch for the current month |
| Batch.BatchNewEnvelopeTransaction | internal/pkg/db/driver_sqlite_batch.go:58-96 | the store left and the error returned are those of EnvelopeBatch for the current month |
| ImportRules.Int32Of | tools/buckets_to_db/main.go:353 | int32() keeps the value modulo 2^32 in the signed 32-bit range, and leaves values in range unchanged |
| ImportRules.ParsePostDate | tools/buckets_to_db/main.go:363-372 | succeeds exactly when the anchored-at-start pattern matches, with year 2000 to 2199, month 1 to 12, day 1 to 31 and the value year*10000 + month*100 + day; otherwise the no-match error |
| ImportRules.PostDateGroupValues | tools/buckets_to_db/main.go:15 | the three captured groups are digits in the ranges the pattern allows |
| ImportRules.PostDateDigits | tools/buckets_to_db/main.go:367 | Atoi of the three groups run together is CurrentMonth of year and month plus the day |
| ImportRules.ParseFormattedPostDate | tools/buckets_to_db/main.go:363-372 | every YYYY-MM-DD in range, followed by any text, parses to year*10000 + month*100 + day |
| ImportRules.TrailingTextIgnored | tools/buckets_to_db/main.go:15 | text after the day neither stops a match nor changes the date |
| ImportRules.PostDateMonthAgrees | tools/buckets_to_db/main.go:367 | the month part of a post-date is the month the query-month middleware reads from its first seven characters, and CurrentMonth's encoding of it; the day sits in the last two digits |
| ImportRules.SplitAccountName | tools/buckets_to_db/main.go:156-162 | with exactly one colon, colon-free institution and name around it; otherwise no institution and the whole text as name |
| ImportRules.SplitAccountNameOf | tools/buckets_to_db/main.go:156-159 | colon-free institution and name joined by a colon split back apart |
| ImportRules.ConvertAccount | tools/buckets_to_db/main.go:144-162 | Hidden is Closed; Offbudget exactly for kind "offbudget" and Debt exactly for kind "debt", never both; the name is split; other fields keep their zero value |
| ImportRules.OffbudgetColumnIgnored | tools/buckets_to_db/main.go:126-154 | the scanned offbudget column does not change the account |
| ImportRules.ImportedAccountFlags | tools/buckets_to_db/main.go:144-154 | an imported account's flag text reads back as Closed, the two kinds and the zero class |
| ImportRules.ImportedDebtEnvelopeName | tools/buckets_to_db/main.go:156-162 | an imported account's debt envelope name is the prefix and the Buckets name, with an extra leading colon unless the name has exactly one colon |
| ImportRules.ConvertGoal | tools/buckets_to_db/main.go:245-257 | deposit, goal-date and goal-deposit set the recurring, target and recurring-until-target goals with deposit and goal as amount and target (NULL reads as 0); other types leave no goal |
| ImportRules.GroupFor | tools/buckets_to_db/main.go:239-243 | a NULL group gives 1, a known group its new id, an unknown group 0 |
| ImportRules.ConvertBucket | tools/buckets_to_db/main.go:230-257 | hidden, name, notes, sort, group and goal as the bucket row and the tables give them; no id and no debt account |
| ImportRules.ImportedEnvelopeFlags | tools/buckets_to_db/main.go:230-257 | an imported envelope shows no debt suffix and no X, and its letter follows the Buckets goal type |
| ImportRules.CategoryType | tools/buckets_to_db/main.go:356-361 | Income exactly for "income", Transfer exactly for "transfer", otherwise the zero type |
| ImportRules.ImportedTypeLabel | tools/buckets_to_db/main.go:356-361 | the imported type's label is "Income", "Transfer" or empty, following the category |
| ImportRules.ConvertAccountTxn | tools/buckets_to_db/main.go:344-372 | fails with the no-match error exactly when the post-date does not match; otherwise the account is remapped, amount, cleared and memo are kept, the type follows the category, the date is the parsed post-date, and a tag is set exactly for a non-NULL bucket, remapped and cut to 32 bits |
| ImportRules.ConvertBucketTxn | tools/buckets_to_db/main.go:404-418 | the same for an envelope transaction, with the bucket remapped |
| ImportRules.TagKeepsSmallIDs | tools/buckets_to_db/main.go:351-354 | a remapped tag that fits 32 bits is kept unchanged |
| Loops.Collect | tools/buckets_to_db/main.go:322-376 | every value when all rows converted, otherwise the first failing row's error |
| Loops.CollectStopsAt | tools/buckets_to_db/main.go:364-366 | a run fails with the error of its first failing row |
| Loops.Remap | tools/buckets_to_db/main.go:95 | a map filled entry by entry holds exactly the keys of its entries |
| Loops.RemapLast | tools/buckets_to_db/main.go:95 | a key maps to the value of its last entry |
| Loops.CreateAll | tools/buckets_to_db/main.go:65-97 | a creation loop that finishes has one record per row |
| Loops.CreateAllFacts | tools/buckets_to_db/main.go:65-97 | the loop stops at the first failing store call; otherwise record k is built from row k with the k-th new id, and the remap table sends each old id to the new id of its last row |
| Loops.AppendConverted | tools/buckets_to_db/main.go:322-376 | the pending slice followed by every converted row, or the first conversion error |
| Loops.Pick | tools/buckets_to_db/main.go:491 | a range over a map visits some key not yet visited |
| BucketsToDB.MigrateGroups | tools/buckets_to_db/main.go:56-100 | the group loop: records with sort values 100, 200, ... and eg_map, or the first store failure under its log context |
| BucketsToDB.BalanceEntries | tools/buckets_to_db/main.go:174 | one a_bal_map entry per account: its new id and its Buckets balance |
| BucketsToDB.AccountBalancesRemembered | tools/buckets_to_db/main.go:173-174 | a_bal_map sends an account's new id, when given once, to its Buckets balance |
| BucketsToDB.MigrateAccounts | tools/buckets_to_db/main.go:106-179 | the account loop: records, a_map and a_bal_map, or the first store failure |
| BucketsToDB.MigrateEnvelopes | tools/buckets_to_db/main.go:185-271 | the bucket loop: envelopes with sort values 100, 200, ... and e_map, or the first store failure |
| BucketsToDB.DebtLookups | tools/buckets_to_db/main.go:296 | one debt envelope lookup per debt bucket, on its account's new id (0 when unknown) |
| BucketsToDB.DebtEnvelopesRemembered | tools/buckets_to_db/main.go:277-306 | the debt loop stops at the first failing lookup; otherwise each debt bucket id is sent to its account's debt envelope and every other e_map entry stays |
| BucketsToDB.MigrateDebtEnvelopes | tools/buckets_to_db/main.go:277-306 | the debt bucket loop computes that table |
| BucketsToDB.ConvertTxns | tools/buckets_to_db/main.go:310-471 | the transaction loops pass a_bal_map on untouched |
| BucketsToDB.StartingBalancesSpec | tools/buckets_to_db/main.go:491-498 | succeeds exactly when every imported account has a checkpoint; then it writes, for exactly those accounts, the Buckets balance less the latest balance |
| BucketsToDB.AllWritten | tools/buckets_to_db/main.go:491-500 | once every account is written, the result is the starting-balance table |
| BucketsToDB.StartingBalances | tools/buckets_to_db/main.go:491-500 | the a_bal_map loop, in any visiting order, computes that table or stops at the first missing summary |
| BucketsToDB.Migrate | tools/buckets_to_db/main.go:52-500 | the store left and the result are those of the import specification |
| BucketsToDB.FirstGroupRefusedStopsImport | tools/buckets_to_db/main.go:88-91 | when the store refuses the first group, the import stops with that error and writes nothing |
| BucketsToDB.MigrateStoreEffects | tools/buckets_to_db/main.go:477-484 | a failed conversion or account batch leaves the store as it was; a passed account batch appends exactly the converted account transactions; a successful run appends exactly the converted envelope transactions; the account, group and envelope tables are unchanged in the model, where creation outcomes are parameters |
| BucketsToDB.StartingBalanceOfAccount | tools/buckets_to_db/main.go:491-498 | a successful import writes, for each account whose new id was given once, its Buckets balance less its latest current-month balance |
| BucketsToDB.MigrateSucceeded | tools/buckets_to_db/main.go:473-500 | a successful import converted every row, and its result is the starting-balance pass over the store the envelope batch left |
| BucketsToDB.CreatedRecordsKeepBalances | tools/buckets_to_db/main.go:106-306 | the creation loops succeed only when the account loop did, and pass its a_bal_map on |

## Left out

- HTTP and UI: the handler plumbing around ServeHTTP, the request context (reduced
  to the stored month), `EnsureMethod`, logging and the `log.Printf` calls.
- `FormatVal` works on floating point and is not modelled.
- `Account.String` and `Envelope.String` are modelled from after their width-padded
  `%03d`, `%5s` and `%20s` prefixes. The two summary `String` methods are not modelled.
- SQL execution and row scanning:
  - table rows are given as sequences;
  - scan and query failures in the table reads are not modelled;
  - columns the tool scans but never reads are dropped from the row types.
- `OpenSQLite` and `NewSQLite` read files and open the database. They are not modelled.
- The rollup routines (`updateAccountSummaries`, `updateEnvelopeSummaries`,
  `updateSummaries`) are not among the program's files. They are function-valued
  parameters of the store that return new checkpoint tables or an error.
- `GetDebtEnvelopeFor` and the ids the store assigns in `NewEnvelopeGroup`,
  `NewAccount` and `NewEnvelope` are parameters, as the store interface declares them
  (internal/pkg/db/db.go:17-35).
  - The SQLite driver stubs `NewEnvelopeGroup` and `NewEnvelope` with a refusal.
  - Its `NewAccount` stub takes an extra starting balance, so it is not the
    one-argument form the import calls.
  - It has no `GetDebtEnvelopeFor` at all.
  - What a refusing store does to the import is stated in
    `FirstGroupRefusedStopsImport`.
- The creation calls' writes to the groups, accounts and envelopes tables are not
  modelled: a store that accepts a record would hold it afterwards, but the model takes
  only the call's outcome and leaves those tables of the State as they were.
- `time.Now` is replaced by year and month parameters.
- `path.Clean` is modelled only on rooted paths, the only kind `ShiftPath` passes it.
- The import tool's `log.Fatalf` exits are Failure results, so no distinct panic is
  modelled. This includes the nil `err` dereference in the post-date message of the
  transaction loops.
- The account loop increments `sortcounter` but never uses it. `MigrateAccounts` keeps
  and steps that counter, and no result depends on it.
- BCDate.Oldest: its body is not in the shown bcdate.go. It is modelled as the smaller
  of its two arguments, which is the contract its accumulating use needs: one of its
  arguments, no later than either.
- The enumeration constants (AT_*, TT_*, GT_*) are not in the shown files. Each
  enumeration is a datatype with an unknown case, and the first case of each switch is
  taken as the zero value.
- SQLiteDriver.LatestAtOrBefore: the SQL query does not fix which row it returns
  when rows tie on month. The model returns the later row, and its contract states
  only the month.
- Loops.Pick: Go visits map keys in no fixed order. The starting-balance loop is
  proved for any order Pick makes.
- SetStartingBalance's result is ignored, as the import tool ignores it.
- The transaction loops of the import tool share one loop, `Loops.AppendConverted`,
  instantiated with each row converter.
- Loops.Remap, Loops.CreateAll: their contracts state key membership and length
  only; the values they hold are stated in Loops.RemapLast and Loops.CreateAllFacts.
- BucketsToDB.MigrateStoreEffects: its unchanged account, group and envelope tables
  follow from the creation calls being outcomes only. Against a store that accepts the
  records, the real tables would gain them.
