/**
 * The two kinds of UPDATE statement that storage/common.go sends to the
 * database, as data: their text (what the driver receives) and their
 * meaning on an abstract database.
 *
 * A table is a map from the row key (chain, sid) to the row's other columns;
 * a database maps table names to tables.
 */
module Sql {
  import opened Wrappers
  import opened Text

  // ---------------------------------------------------------------------
  // Values as the batch compiler receives them
  // ---------------------------------------------------------------------

  /** The two `fmt` verbs the field maps use: `%d` and `%s`. */
  datatype Verb = D | S

  /** A value stored in a record's `map[string]interface{}`. */
  datatype Value = IntV(i: int) | StrV(s: string)

  /**
   * A value record: the `sid` entry and one entry per column. `sid` is kept
   * apart because every record built in storage/common.go carries it.
   */
  datatype Record = Record(sid: nat, vals: map<string, Value>)

  function Lookup(r: Record, column: string): Option<Value> {
    if column in r.vals then Some(r.vals[column]) else None
  }

  function VerbName(verb: Verb): string {
    match verb
    case D => "d"
    case S => "s"
  }

  /**
   * `fmt.Sprintf("%d" or "%s", v)`. A missing map entry is Go's nil
   * interface; a verb that does not fit the value gives Go's `%!verb(...)`
   * marker (the dynamic type name is written as `int` or `string`).
   */
  function Format(verb: Verb, v: Option<Value>): string {
    match v
    case None => "%!" + VerbName(verb) + "(<nil>)"
    case Some(IntV(i)) => if verb == D then IntToString(i) else "%!s(int=" + IntToString(i) + ")"
    case Some(StrV(s)) => if verb == S then s else "%!d(string=" + s + ")"
  }

  // ---------------------------------------------------------------------
  // The conditional batch statement
  // ---------------------------------------------------------------------

  /** ` WHEN <sid> THEN '<text>'` */
  datatype WhenArm = WhenArm(sid: nat, text: string)

  /** ` <column> = CASE sid <arms> END` */
  datatype CaseClause = CaseClause(column: string, arms: seq<WhenArm>)

  /** `UPDATE <table> SET <clauses> WHERE chain = '<chain>' AND sid IN (<ids>)` */
  datatype BatchUpdate = BatchUpdate(table: string, chain: string, clauses: seq<CaseClause>, ids: seq<nat>)

  function RenderArm(a: WhenArm): string {
    " WHEN " + (NatToString(a.sid) + (" THEN '" + (a.text + "'")))
  }

  function RenderArms(arms: seq<WhenArm>): string {
    if |arms| == 0 then "" else RenderArm(arms[0]) + RenderArms(arms[1..])
  }

  function RenderClause(c: CaseClause): string {
    " " + (c.column + (" = CASE sid " + (RenderArms(c.arms) + " END")))
  }

  function RenderClauses(cs: seq<CaseClause>): (r: seq<string>)
    ensures |r| == |cs|
  {
    if |cs| == 0 then [] else [RenderClause(cs[0])] + RenderClauses(cs[1..])
  }

  function RenderIds(ids: seq<nat>): (r: seq<string>)
    ensures |r| == |ids|
  {
    if |ids| == 0 then [] else [NatToString(ids[0])] + RenderIds(ids[1..])
  }

  function RenderBatch(b: BatchUpdate): string {
    "UPDATE " + (b.table + (" SET " + (Join(RenderClauses(b.clauses), ",")
      + (" WHERE chain = '" + (b.chain + ("' AND sid IN (" + (Join(RenderIds(b.ids), ",") + ")")))))))
  }

  // ---------------------------------------------------------------------
  // The bound-parameter statement of the mint-statistics update
  // ---------------------------------------------------------------------

  /** The six columns the mint update may set, in the order it tests them. */
  datatype StatsColumn = Minted | MintCompletedTime | MintFirstBlock | MintLastBlock | Holders | TxCnt

  function ColumnName(c: StatsColumn): string {
    match c
    case Minted => "minted"
    case MintCompletedTime => "mint_completed_time"
    case MintFirstBlock => "mint_first_block"
    case MintLastBlock => "mint_last_block"
    case Holders => "holders"
    case TxCnt => "tx_cnt"
  }

  /** A bound argument: an integer, a time (as Unix seconds) or a string. */
  datatype Arg = IntArg(i: int) | TimeArg(unix: int) | TextArg(s: string)

  /** One `col=?` assignment of a SET list, with the spacing the source writes. */
  function SetPiece(c: StatsColumn): string {
    if c == Minted then " minted= ? " else " " + ColumnName(c) + "=? "
  }

  datatype MintUpdate = MintUpdate(table: string, sets: seq<(StatsColumn, Arg)>, chain: string, protocol: string, tick: string)

  function SetPieces(sets: seq<(StatsColumn, Arg)>): (r: seq<string>)
    ensures |r| == |sets|
  {
    if |sets| == 0 then [] else [SetPiece(sets[0].0)] + SetPieces(sets[1..])
  }

  function SetArgs(sets: seq<(StatsColumn, Arg)>): (r: seq<Arg>)
    ensures |r| == |sets|
  {
    if |sets| == 0 then [] else [sets[0].1] + SetArgs(sets[1..])
  }

  const MintWhere := "WHERE chain=? ANd protocol=? AND tick=?"

  function RenderMint(m: MintUpdate): string {
    "UPDATE " + m.table + " SET " + Join(SetPieces(m.sets), ",") + MintWhere
  }

  function MintArgs(m: MintUpdate): seq<Arg> {
    SetArgs(m.sets) + [TextArg(m.chain), TextArg(m.protocol), TextArg(m.tick)]
  }

  // ---------------------------------------------------------------------
  // What a submitted statement is, and what it does
  // ---------------------------------------------------------------------

  datatype Statement = Batch(b: BatchUpdate) | Bound(m: MintUpdate)

  /** The SQL text and bound arguments the driver receives. */
  datatype Submitted = Submitted(sql: string, args: seq<Arg>)

  function Submission(s: Statement): Submitted {
    match s
    case Batch(b) => Submitted(RenderBatch(b), [])
    case Bound(m) => Submitted(RenderMint(m), MintArgs(m))
  }

  /** A stored cell: SQL NULL, a string, or a number. */
  datatype Cell = Null | Text(t: string) | Num(n: int)

  datatype RowKey = RowKey(chain: string, sid: nat)

  type Row = map<string, Cell>

  type Table = map<RowKey, Row>

  type Database = map<string, Table>

  /** `CASE sid WHEN ... END`: the first arm whose sid matches; NULL if none. */
  function CaseValue(arms: seq<WhenArm>, sid: nat): Cell {
    if |arms| == 0 then Null
    else if arms[0].sid == sid then Text(arms[0].text)
    else CaseValue(arms[1..], sid)
  }

  /** The SET list applied to one row, assignment by assignment, left to right. */
  function SetColumns(clauses: seq<CaseClause>, sid: nat, row: Row): Row {
    if |clauses| == 0 then row
    else SetColumns(clauses[1..], sid, row[clauses[0].column := CaseValue(clauses[0].arms, sid)])
  }

  /** The WHERE filter of the batch statement. */
  predicate Selects(b: BatchUpdate, k: RowKey) {
    k.chain == b.chain && k.sid in b.ids
  }

  function ApplyBatch(b: BatchUpdate, t: Table): Table {
    map k | k in t :: if Selects(b, k) then SetColumns(b.clauses, k.sid, t[k]) else t[k]
  }

  function ArgCell(a: Arg): Cell {
    match a
    case IntArg(i) => Num(i)
    case TimeArg(u) => Num(u)
    case TextArg(s) => Text(s)
  }

  function Assign(sets: seq<(StatsColumn, Arg)>, row: Row): Row {
    if |sets| == 0 then row else Assign(sets[1..], row[ColumnName(sets[0].0) := ArgCell(sets[0].1)])
  }

  /** `WHERE chain=? ANd protocol=? AND tick=?` */
  predicate MintSelects(m: MintUpdate, k: RowKey, row: Row) {
    k.chain == m.chain && "protocol" in row && row["protocol"] == Text(m.protocol)
      && "tick" in row && row["tick"] == Text(m.tick)
  }

  function ApplyMint(m: MintUpdate, t: Table): Table {
    map k | k in t :: if MintSelects(m, k, t[k]) then Assign(m.sets, t[k]) else t[k]
  }

  function TableOf(s: Statement): string {
    match s
    case Batch(b) => b.table
    case Bound(m) => m.table
  }

  /** The database after a statement that succeeded. */
  function Apply(s: Statement, db: Database): Database {
    var name := TableOf(s);
    if name !in db then db
    else
      match s
      case Batch(b) => db[name := ApplyBatch(b, db[name])]
      case Bound(m) => db[name := ApplyMint(m, db[name])]
  }
}
