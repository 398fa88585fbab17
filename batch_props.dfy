/**
 * What the compiled batch statement does to a table: only the rows of the
 * given chain whose sid is in the IN list change, only in the columns of the
 * field map, each to the value of the first record with that sid. The result
 * does not depend on the order in which the field map is visited, and
 * running the statement twice is the same as running it once.
 */
module BatchProps {
  import opened Wrappers
  import opened Sql
  import opened Batch
  import SqlParse

  /** The assignments of a SET list, later ones overriding earlier ones. */
  function CaseWrites(clauses: seq<CaseClause>, sid: nat): map<string, Cell> {
    if |clauses| == 0 then map[]
    else map[clauses[0].column := CaseValue(clauses[0].arms, sid)] + CaseWrites(clauses[1..], sid)
  }

  /** The sequential SET list is an override of the row by its assignments. */
  lemma {:induction false} SetColumnsOverride(clauses: seq<CaseClause>, sid: nat, row: Row)
    ensures SetColumns(clauses, sid, row) == row + CaseWrites(clauses, sid)
  {
    if |clauses| > 0 {
      var c := clauses[0];
      var v := CaseValue(c.arms, sid);
      SetColumnsOverride(clauses[1..], sid, row[c.column := v]);
      var rest := CaseWrites(clauses[1..], sid);
      assert row[c.column := v] + rest == row + (map[c.column := v] + rest);
    }
  }

  /** The assignments of the compiled clauses, whatever order visits the columns. */
  lemma {:induction false} CompiledWrites(fields: map<string, Verb>, order: seq<string>, values: seq<Record>, sid: nat)
    requires forall i :: 0 <= i < |order| ==> order[i] in fields
    ensures var w := CaseWrites(Clauses(fields, order, values), sid);
      && (forall f :: f in w <==> f in order)
      && (forall f :: f in w ==> w[f] == CaseValue(Arms(f, fields[f], values), sid))
  {
    var cs := Clauses(fields, order, values);
    if |order| > 0 {
      assert cs[1..] == Clauses(fields, order[1..], values);
      CompiledWrites(fields, order[1..], values, sid);
      forall f ensures f in order <==> f == order[0] || f in order[1..] {
        if f in order {
          var i :| 0 <= i < |order| && order[i] == f;
          if i > 0 { assert order[1..][i - 1] == f; }
        }
      }
    }
  }

  /** The CASE value is the text of the first arm with the row's sid. */
  lemma {:induction false} CaseValueFirst(arms: seq<WhenArm>, sid: nat, j: nat)
    requires j < |arms| && arms[j].sid == sid
    requires forall i :: 0 <= i < j ==> arms[i].sid != sid
    ensures CaseValue(arms, sid) == Text(arms[j].text)
  {
    if j > 0 {
      CaseValueFirst(arms[1..], sid, j - 1);
    }
  }

  /** The compiled statement's effect on a table, independent of the visiting order. */
  lemma ApplyCompiled(table: string, chain: string, fields: map<string, Verb>, order: seq<string>,
                      values: seq<Record>, t: Table)
    requires Enumerates(order, fields)
    ensures ApplyBatch(Compile(table, chain, fields, order, values), t)
         == map k | k in t :: if k.chain == chain && k.sid in Sids(values) then t[k] + Patch(fields, values, k.sid) else t[k]
  {
    var b := Compile(table, chain, fields, order, values);
    forall k | k in t && Selects(b, k)
      ensures SetColumns(b.clauses, k.sid, t[k]) == t[k] + Patch(fields, values, k.sid)
    {
      SetColumnsOverride(b.clauses, k.sid, t[k]);
      CompiledWrites(fields, order, values, k.sid);
      assert CaseWrites(b.clauses, k.sid) == Patch(fields, values, k.sid);
    }
  }

  /** The visiting order of the field map does not change the resulting table. */
  lemma BatchOrderIndependent(table: string, chain: string, fields: map<string, Verb>, order1: seq<string>,
                              order2: seq<string>, values: seq<Record>, t: Table)
    requires Enumerates(order1, fields) && Enumerates(order2, fields)
    ensures ApplyBatch(Compile(table, chain, fields, order1, values), t)
         == ApplyBatch(Compile(table, chain, fields, order2, values), t)
  {
    ApplyCompiled(table, chain, fields, order1, values, t);
    ApplyCompiled(table, chain, fields, order2, values, t);
  }

  /** No row is added or removed. */
  lemma BatchKeys(table: string, chain: string, fields: map<string, Verb>, order: seq<string>,
                  values: seq<Record>, t: Table)
    requires Enumerates(order, fields)
    ensures ApplyBatch(Compile(table, chain, fields, order, values), t).Keys == t.Keys
  {
  }

  /** A row of another chain, or whose sid is not in the IN list, is unchanged. */
  lemma BatchUnselectedRow(table: string, chain: string, fields: map<string, Verb>, order: seq<string>,
                           values: seq<Record>, t: Table, k: RowKey)
    requires Enumerates(order, fields)
    requires k in t && (k.chain != chain || forall j :: 0 <= j < |values| ==> values[j].sid != k.sid)
    ensures ApplyBatch(Compile(table, chain, fields, order, values), t)[k] == t[k]
  {
    ApplyCompiled(table, chain, fields, order, values, t);
  }

  /** A column outside the field map is unchanged in every row. */
  lemma BatchOtherColumn(table: string, chain: string, fields: map<string, Verb>, order: seq<string>,
                         values: seq<Record>, t: Table, k: RowKey, column: string)
    requires Enumerates(order, fields)
    requires k in t && column !in fields
    ensures var row := ApplyBatch(Compile(table, chain, fields, order, values), t)[k];
      && (column in row <==> column in t[k])
      && (column in t[k] ==> row[column] == t[k][column])
  {
    ApplyCompiled(table, chain, fields, order, values, t);
  }

  /**
   * In a selected row, a column of the field map takes the value of the FIRST
   * record carrying the row's sid (SQL CASE takes the first matching WHEN).
   */
  lemma BatchFirstWins(table: string, chain: string, fields: map<string, Verb>, order: seq<string>,
                       values: seq<Record>, t: Table, k: RowKey, column: string, j: nat)
    requires Enumerates(order, fields)
    requires k in t && k.chain == chain && column in fields
    requires j < |values| && values[j].sid == k.sid
    requires forall i :: 0 <= i < j ==> values[i].sid != k.sid
    ensures var row := ApplyBatch(Compile(table, chain, fields, order, values), t)[k];
      column in row && row[column] == Text(Format(fields[column], Lookup(values[j], column)))
  {
    ApplyCompiled(table, chain, fields, order, values, t);
    assert Sids(values)[j] == k.sid;
    CaseValueFirst(Arms(column, fields[column], values), k.sid, j);
  }

  /** With distinct sids, every record's values land in its row. */
  lemma BatchRoundTrip(table: string, chain: string, fields: map<string, Verb>, order: seq<string>,
                       values: seq<Record>, t: Table, j: nat, column: string)
    requires Enumerates(order, fields)
    requires forall a, b :: 0 <= a < b < |values| ==> values[a].sid != values[b].sid
    requires j < |values| && RowKey(chain, values[j].sid) in t && column in fields
    ensures var row := ApplyBatch(Compile(table, chain, fields, order, values), t)[RowKey(chain, values[j].sid)];
      column in row && row[column] == Text(Format(fields[column], Lookup(values[j], column)))
  {
    BatchFirstWins(table, chain, fields, order, values, t, RowKey(chain, values[j].sid), column, j);
  }

  /** Running the same statement twice leaves the table as running it once. */
  lemma BatchIdempotent(table: string, chain: string, fields: map<string, Verb>, order: seq<string>,
                        values: seq<Record>, t: Table)
    requires Enumerates(order, fields)
    ensures var b := Compile(table, chain, fields, order, values);
      ApplyBatch(b, ApplyBatch(b, t)) == ApplyBatch(b, t)
  {
    var b := Compile(table, chain, fields, order, values);
    var once := ApplyBatch(b, t);
    ApplyCompiled(table, chain, fields, order, values, t);
    ApplyCompiled(table, chain, fields, order, values, once);
    forall k | k in once
      ensures ApplyBatch(b, once)[k] == once[k]
    {
      if k.chain == chain && k.sid in Sids(values) {
        OverrideTwice(t[k], Patch(fields, values, k.sid));
      }
    }
  }

  lemma OverrideTwice(r: Row, p: Row)
    ensures (r + p) + p == r + p
  {
  }

  /**
   * Two records with sid 5 and minted "1000" then "2000": the row gets
   * "1000". The source keeps the first value, not the last.
   */
  lemma DuplicateSidFirstWins()
    ensures var fields := map["minted" := S];
      var values := [Record(5, map["minted" := StrV("1000")]), Record(5, map["minted" := StrV("2000")])];
      var t := map[RowKey("btc", 5) := map["minted" := Text("0")]];
      ApplyBatch(Compile("inscriptions_stats", "btc", fields, ["minted"], values), t)[RowKey("btc", 5)]["minted"]
        == Text("1000")
  {
    var fields := map["minted" := S];
    var values := [Record(5, map["minted" := StrV("1000")]), Record(5, map["minted" := StrV("2000")])];
    var t := map[RowKey("btc", 5) := map["minted" := Text("0")]];
    BatchFirstWins("inscriptions_stats", "btc", fields, ["minted"], values, t, RowKey("btc", 5), "minted", 0);
  }

  /**
   * The statement text determines the compiled statement, as long as no
   * formatted value and not the chain contains a quote, and neither the table
   * nor a column contains a space. Nothing is escaped, so without these
   * conditions the text can say something else.
   */
  lemma CompiledTextParses(table: string, chain: string, fields: map<string, Verb>, order: seq<string>,
                           values: seq<Record>)
    requires Enumerates(order, fields)
    requires ' ' !in table && '\'' !in chain
    requires forall f :: f in fields ==> ' ' !in f
    requires forall f, j :: f in fields && 0 <= j < |values| ==> '\'' !in Format(fields[f], Lookup(values[j], f))
    ensures var b := Compile(table, chain, fields, order, values);
      SqlParse.ParseBatch(RenderBatch(b)) == Some(b)
  {
    var b := Compile(table, chain, fields, order, values);
    forall i | 0 <= i < |b.clauses|
      ensures SqlParse.ClauseReadable(b.clauses[i])
    {
      assert b.clauses[i].column == order[i];
      assert forall j :: 0 <= j < |b.clauses[i].arms| ==>
        b.clauses[i].arms[j].text == Format(fields[order[i]], Lookup(values[j], order[i]));
    }
    SqlParse.RenderBatchParses(b);
  }

  /** Distinct elements: as many as the sequence is long. */
  lemma {:induction false} DistinctCount(order: seq<string>)
    requires forall i, j :: 0 <= i < j < |order| ==> order[i] != order[j]
    ensures |set f | f in order| == |order|
  {
    if |order| > 0 {
      var rest := order[1..];
      assert forall i, j :: 0 <= i < j < |rest| ==> rest[i] != rest[j] by {
        assert forall i :: 0 <= i < |rest| ==> rest[i] == order[i + 1];
      }
      DistinctCount(rest);
      assert order[0] !in rest;
      assert (set f | f in order) == (set f | f in rest) + {order[0]};
    }
  }

  /**
   * The shape of the compiled statement: one CASE clause per column of the
   * field map, each with one WHEN arm per record in record order, and one
   * IN entry per record in record order, duplicates kept.
   */
  lemma CompiledShape(table: string, chain: string, fields: map<string, Verb>, order: seq<string>,
                      values: seq<Record>)
    requires Enumerates(order, fields)
    ensures var b := Compile(table, chain, fields, order, values);
      && b.table == table && b.chain == chain
      && |b.clauses| == |fields|
      && (set i | 0 <= i < |b.clauses| :: b.clauses[i].column) == fields.Keys
      && (forall i :: 0 <= i < |b.clauses| ==> |b.clauses[i].arms| == |values|)
      && (forall i, j :: 0 <= i < |b.clauses| && 0 <= j < |values| ==>
            b.clauses[i].arms[j] == WhenArm(values[j].sid, Format(fields[b.clauses[i].column], Lookup(values[j], b.clauses[i].column))))
      && |b.ids| == |values|
      && (forall j :: 0 <= j < |values| ==> b.ids[j] == values[j].sid)
  {
    var b := Compile(table, chain, fields, order, values);
    DistinctCount(order);
    assert (set f | f in order) == fields.Keys;
    assert (set i | 0 <= i < |b.clauses| :: b.clauses[i].column) == fields.Keys by {
      forall f | f in fields ensures f in (set i | 0 <= i < |b.clauses| :: b.clauses[i].column) {
        var i :| 0 <= i < |order| && order[i] == f;
        assert b.clauses[i].column == f;
      }
    }
  }
}
