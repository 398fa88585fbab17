# Batched conditional updates of the indexer's storage layer

This project models the update paths of the indexer's storage layer
(`storage/common.go`), which it uses to write back the inscriptions, the
inscription statistics and the balances that a block changed:

- `BatchUpdatesBySID` compiles a list of value records into one SQL
  statement. The statement is
  `UPDATE <table> SET <col> = CASE sid WHEN <sid> THEN '<value>' ... END, ... WHERE chain = '<chain>' AND sid IN (<sids>)`.
  It sends the statement on the caller's transaction and returns the
  backend's error or its affected-row count.
- `BatchUpdateInscription`, `BatchUpdateInscriptionStats` and
  `BatchUpdateBalances` project typed rows onto value records over a fixed
  column whitelist. They hand those records to `BatchUpdatesBySID`.
- `UpdateInscriptStatsForMint` builds a `SET` list of up to six
  placeholders. A column is included only when its value is positive. The
  argument list runs parallel to the placeholders, with `chain, protocol,
  tick` appended for the `WHERE` clause. When no column qualifies, nothing
  is sent.

Each operation is an imperative method, proved against a specification
function:

- The loops that accumulate strings and slices are `while` loops and
  guarded appends. Their invariants tie the partial result to a prefix of
  the specification.
- The compiled statement is a datatype (`Sql.BatchUpdate`,
  `Sql.MintUpdate`). It has a rendering (the text the driver receives), a
  parser that reads the batch text back, and a meaning on an abstract
  database. A table maps the row key `(chain, sid)` to the row's columns.
- The caller's transaction handle is the class `Db.Tx`. Its fields are the
  database and the log of submitted statements.
- What the backend answers (an error, or a row count) is a parameter
  (`Db.Outcome`).
- Go visits the keys of the field map in an unspecified order. That order
  is the parameter `order`, which must enumerate the keys exactly once.

SQL `CASE` takes the first `WHEN` that matches, and the code does not
de-duplicate records that share a sid. When two records carry the same
sid, the **first** one's values are written (`BatchProps.BatchFirstWins`,
`BatchProps.DuplicateSidFirstWins`).

The code does not de-duplicate records by sid, so a caller that expects
the last record to win gets the first. This model contains no keep-last
step.

Files:

| file | content |
|---|---|
| `text.dfy` | `Option`; the Go string and formatting helpers the code uses (`%d`, `strings.Join`, `strings.Trim`) |
| `sql.dfy` | the two statement kinds, their text, and their meaning on a database |
| `sql_parse.dfy` | reading the batch text back: the round trip under the no-quote conditions |
| `tx.dfy` | the transaction handle and `Exec` |
| `batch.dfy` | `BatchUpdatesBySID` and its compiler loops |
| `batch_props.dfy` | what the compiled batch statement does to a table |
| `model.dfy` | the entity fields that the update paths read |
| `adapters.dfy` | the three adapters and their effect on rows |
| `mint.dfy` | `UpdateInscriptStatsForMint`, its `SET`-list builder, and their properties |

## Model

| member | source | states |
|---|---|---|
| Db.Tx.Exec | storage/common.go:129 | sends one statement: its text and arguments are appended to the log; the database takes the statement's meaning only if the backend succeeds; the backend's outcome is returned unchanged |
| Batch.BuildCaseClause | storage/common.go:114-119 | the loop over the records yields the column's CASE clause with one WHEN arm per record, in record order; the text built with `+=` is exactly that clause's rendering |
| Batch.BuildIds | storage/common.go:123-126 | the IN list holds one entry per record, in record order, with duplicates kept; its strings are the decimal renderings of those sids |
| Batch.CompileBatchUpdate | storage/common.go:112-128 | the statement and its text: one clause per field in the order the map is visited, the IN list of all sids, and a final text that is the rendering of that statement |
| Batch.BatchUpdatesBySID | storage/common.go:107-134 | empty records: `(nil, 0)`, nothing sent and nothing changed; otherwise exactly one statement is sent: on failure `(err, 0)` and the database is unchanged, on success `(nil, RowsAffected)` and the database is updated by the statement |
| BatchProps.CompiledShape | storage/common.go:112-126 | one clause per column of the field map, covering exactly its keys; every clause has one arm per record, carrying that record's sid and its value formatted with the column's verb; the IN list is the records' sids in order |
| BatchProps.SetColumnsOverride | storage/common.go:128 | applying the SET list assignment by assignment is the same as overriding the row with each column's CASE value |
| BatchProps.CompiledWrites | storage/common.go:112-121 | the compiled statement writes exactly the field-map columns, each with the CASE value of its own arms |
| BatchProps.CaseValueFirst | storage/common.go:115-117 | a CASE over arms yields the text of the first arm whose sid matches |
| BatchProps.ApplyCompiled | storage/common.go:128 | on the table, the statement replaces the field-map columns of the rows of the given chain whose sid is in the IN list, and leaves every other row as it was |
| BatchProps.BatchOrderIndependent | storage/common.go:113 | the resulting table is the same for any visit order of the field map |
| BatchProps.BatchKeys | storage/common.go:128 | the statement neither adds nor removes rows |
| BatchProps.BatchUnselectedRow | storage/common.go:128 | a row of another chain, or one whose sid is not in the list, is unchanged |
| BatchProps.BatchOtherColumn | storage/common.go:128 | a column outside the field map keeps its presence and its value in every row |
| BatchProps.BatchFirstWins | storage/common.go:115-118 | in a selected row, each field-map column becomes the formatted value of the first record carrying the row's sid |
| BatchProps.BatchRoundTrip | storage/common.go:115-118 | when the sids are distinct, each record's formatted values land in its own row |
| BatchProps.BatchIdempotent | storage/common.go:128 | running the same statement twice leaves the table as running it once |
| BatchProps.DuplicateSidFirstWins | storage/common.go:116-118 | two records with sid 5 and minted "1000" then "2000": the row gets "1000" |
| BatchProps.CompiledTextParses | storage/common.go:114-128 | if neither the chain nor any formatted value contains a quote, and neither the table nor any column contains a space, the statement text parses back to exactly the compiled statement |
| SqlParse.RenderBatchParses | storage/common.go:128 | under the same conditions, any batch statement parses back from its own rendering |
| SqlParse.ArmsRoundTrip | storage/common.go:115-117 | the WHEN arms parse back from their text when no value contains a quote |
| SqlParse.ClauseRoundTrip | storage/common.go:114-119 | one CASE clause parses back from its text when the column has no space and no value has a quote |
| SqlParse.ClausesRoundTrip | storage/common.go:128 | the comma-joined clauses parse back, and an empty clause list gives no clause |
| SqlParse.IdsRoundTrip | storage/common.go:123-128 | the comma-joined IN list parses back to the same sids |
| SqlParse.ParseNatRender | storage/common.go:125 | a sid written with `%d` reads back as the same number |
| Adapters.InscriptionRecord | storage/common.go:95-98 | a record carries the item's sid and exactly the inscription whitelist {transfer_type} |
| Adapters.StatsRecord | storage/common.go:149-154 | a record carries the item's sid and exactly the statistics whitelist {minted, holders, tx_cnt} |
| Adapters.BalanceRecord | storage/common.go:210-214 | a record carries the item's sid and exactly the balance whitelist {available, balance} |
| Adapters.CollectInscriptionRecords | storage/common.go:93-99 | one record per item, in item order |
| Adapters.CollectStatsRecords | storage/common.go:147-155 | one record per item, in item order |
| Adapters.CollectBalanceRecords | storage/common.go:208-215 | one record per item, in item order |
| Adapters.BatchUpdateInscription | storage/common.go:85-105 | empty items: nil returned, nothing sent; otherwise one batch statement over the inscription records is sent, its error returned unchanged and the count dropped |
| Adapters.BatchUpdateInscriptionStats | storage/common.go:136-161 | the same for the statistics records |
| Adapters.BatchUpdateBalances | storage/common.go:198-221 | the same for the balance records |
| AdapterProps.InscriptionUpdateEffect | storage/common.go:89-100 | a selected inscription row gets `transfer_type` = the decimal text of the first matching item's transfer type |
| AdapterProps.StatsUpdateEffect | storage/common.go:141-156 | a selected statistics row gets minted, holders and tx_cnt from the first matching item, written in decimal |
| AdapterProps.BalanceUpdateEffect | storage/common.go:203-216 | a selected balance row gets the first matching item's available and balance strings |
| AdapterProps.BalanceScenario | storage/common.go:198-221 | in any table holding those rows, balances (1, "100.5") and (2, "0"/"7") on btc land in their rows, and the eth row with sid 1 is untouched |
| Mint.GuardedStep | storage/common.go:232-260 | one guarded append to the SET text and to the argument list matches appending that column to the specification list (`Mint.MintSets`), and only when its guard holds |
| Mint.FragmentTexts | storage/common.go:233-259 | the exact text appended for each of the six columns |
| Mint.MintSetsOrdered | storage/common.go:232-260 | the included columns keep the order minted, mint_completed_time, mint_first_block, mint_last_block, holders, tx_cnt |
| Mint.TrimmedSetList | storage/common.go:262 | trimming commas leaves exactly the comma-joined SET pieces: only the leading comma left by an unset `minted` goes |
| Mint.PiecesEndInSpace | storage/common.go:262-264 | a non-empty SET list starts and ends with a space, which separates it from `SET` and `WHERE` |
| Mint.BuildMintSetList | storage/common.go:230-262 | the six guarded appends and the trim yield the comma-joined pieces of the qualifying columns and their arguments in the same order |
| Mint.UpdateInscriptStatsForMint | storage/common.go:227-273 | no qualifying column: nil returned, nothing sent; otherwise exactly one bound statement is sent, whose text and arguments are what the method builds; its error is returned unchanged and the database follows the outcome |
| MintProps.MintInclusion | storage/common.go:232-260 | a column is in the SET list if and only if its guard holds, and every entry binds that column's own value |
| MintProps.NothingQualifies | storage/common.go:263 | the SET list is empty exactly when no guard holds |
| MintProps.SetPieceCount | storage/common.go:233-259 | each SET piece has exactly one placeholder |
| MintProps.WhereCount | storage/common.go:264 | the WHERE clause has exactly three placeholders |
| MintProps.MintPlaceholders | storage/common.go:263-265 | the statement has as many `?` as bound arguments, provided the table name has none |
| MintProps.MintStatementPlaceholders | storage/common.go:262-266 | the statement sent for a statistics record has as many `?` as arguments: the column values first, in SET order, then `chain, protocol, tick` |
| MintProps.MintUpdateEffect | storage/common.go:264-266 | on a row of the given chain, protocol and tick, each statistics column takes its new value when its guard holds and keeps its old one otherwise |
| MintProps.MintFrame | storage/common.go:264-266 | rows of another chain, protocol or tick are unchanged, and so are columns outside the six |

## Left out

- The other functions of `storage/common.go` are not modelled. They are `NewDbClient`, `SaveLastBlock`, `LastBlock`, the `BatchAdd*` family, `UpdateInscriptionsStatsBySID` and every `Find*`/`Get*` query; `FirstValidUtxoByRootHash` and `FirstUTXOByRootHash` are among those. Each is one gorm call whose behaviour lives in gorm and the SQL engine.
- The database connection and driver set-up are not modelled. Neither are the transaction's isolation level or concurrency between callers; both belong to the caller's handle and the database.
- The value of `RowsAffected` is whatever the backend reports (`Db.Outcome.Done`), because MySQL and SQLite count it differently. For the same reason, the model does not say which statements fail.
- SQL escaping is not modelled: the code interpolates the chain and the values unescaped. The text is proved to determine the statement only when the chain and values contain no quote and the table and column names no space (`BatchProps.CompiledTextParses`). No claim is made about text that breaks those conditions. The meaning given to a batch statement (`Sql.ApplyBatch`) is that of the statement as compiled, not of its text.
- `Batch.BatchUpdatesBySID`: SQL would store a quoted value in a numeric column after a type conversion; the model skips that conversion. A written cell is the string between the quotes (`Sql.Cell.Text`). The inputs are also narrower than the Go signature: a field map's format is only `%d` or `%s` (`Sql.Verb`), so `%v`, `%x` and other verbs are not expressible. Each record's `sid` is a `nat` held outside its value map (`Sql.Record`), so the `%!d(<nil>)` text Go writes for a record without a `sid`, and the `%!d(string=…)` text for a string `sid`, are not modelled. Every caller in `storage/common.go` passes only `%d`/`%s` formats and records with a numeric `sid`.
- The MySQL/SQLite difference in evaluation order within one SET list is not modelled. Each `CASE sid` is evaluated with the row's key sid. The key never changes, because no whitelist contains `sid`.
- Go's `%!verb(type=value)` marker for a value that does not fit its verb is approximated. The model writes Go's dynamic type as `int` or `string`, and Go's actual integer type name (`uint32`, `int8`, ...) is not kept. The whitelisted adapters never reach this case.
- `math/big` and `time` are reduced to what the code tests. `Minted` is an unbounded integer, written in decimal and bound as an integer argument. `MintCompletedTime` is an optional Unix time in seconds. How the driver encodes a `*big.Int` or a `time.Time` argument is not modelled.
- The table names come from `TableName()` methods that are not part of this model. `Model.InscriptionsTable`, `Model.InscriptionStatsTable` and `Model.BalancesTable` are stand-ins.
- A nil transaction handle, a nil item and a nil stats pointer are not modelled. In Go they would panic.
- A row is identified by `(chain, sid)`. The mint update's `protocol` and `tick` conditions are read from the row's own columns.
