/**
 * `BatchUpdatesBySID` (storage/common.go): one UPDATE statement that sets,
 * for every column of the field map, `column = CASE sid WHEN ... END` over
 * all value records, restricted to one chain and to the records' sids.
 */
module Batch {
  import opened Wrappers
  import opened Text
  import opened Sql
  import opened Db

  /**
   * `order` is the order in which Go's `range` visits the keys of the field
   * map: every key exactly once. Go leaves that order unspecified.
   */
  predicate Enumerates(order: seq<string>, fields: map<string, Verb>) {
    (forall i :: 0 <= i < |order| ==> order[i] in fields)
    && (forall f :: f in fields ==> f in order)
    && (forall i, j :: 0 <= i < j < |order| ==> order[i] != order[j])
  }

  /** The WHEN arms of one column: one per record, in record order. */
  function Arms(column: string, verb: Verb, values: seq<Record>): (r: seq<WhenArm>)
    ensures |r| == |values|
  {
    seq(|values|, j requires 0 <= j < |values| => WhenArm(values[j].sid, Format(verb, Lookup(values[j], column))))
  }

  /** One CASE clause per column, in the order the field map is visited. */
  function Clauses(fields: map<string, Verb>, order: seq<string>, values: seq<Record>): (r: seq<CaseClause>)
    requires forall i :: 0 <= i < |order| ==> order[i] in fields
    ensures |r| == |order|
  {
    seq(|order|, i requires 0 <= i < |order| => CaseClause(order[i], Arms(order[i], fields[order[i]], values)))
  }

  /** The IN list: every record's sid, in record order, duplicates kept. */
  function Sids(values: seq<Record>): (r: seq<nat>)
    ensures |r| == |values|
  {
    seq(|values|, j requires 0 <= j < |values| => values[j].sid)
  }

  function Compile(table: string, chain: string, fields: map<string, Verb>, order: seq<string>, values: seq<Record>): BatchUpdate
    requires forall i :: 0 <= i < |order| ==> order[i] in fields
  {
    BatchUpdate(table, chain, Clauses(fields, order, values), Sids(values))
  }

  /**
   * What the compiled statement writes into a selected row with the given sid:
   * for every column of the field map, the CASE value of its arms.
   */
  function Patch(fields: map<string, Verb>, values: seq<Record>, sid: nat): map<string, Cell> {
    map f | f in fields :: CaseValue(Arms(f, fields[f], values), sid)
  }

  // ---------------------------------------------------------------------
  // Rendering, step by step
  // ---------------------------------------------------------------------

  lemma PrefixStep<T>(s: seq<T>, j: nat)
    requires j < |s|
    ensures s[..j + 1] == s[..j] + [s[j]]
  {
  }

  lemma {:induction false} RenderArmsSnoc(arms: seq<WhenArm>, a: WhenArm)
    ensures RenderArms(arms + [a]) == RenderArms(arms) + RenderArm(a)
  {
    if |arms| == 0 {
      assert arms + [a] == [a];
    } else {
      assert (arms + [a])[1..] == arms[1..] + [a];
      RenderArmsSnoc(arms[1..], a);
    }
  }

  lemma {:induction false} RenderClausesSnoc(cs: seq<CaseClause>, c: CaseClause)
    ensures RenderClauses(cs + [c]) == RenderClauses(cs) + [RenderClause(c)]
  {
    if |cs| == 0 {
      assert cs + [c] == [c];
    } else {
      assert (cs + [c])[1..] == cs[1..] + [c];
      RenderClausesSnoc(cs[1..], c);
    }
  }

  lemma {:induction false} RenderIdsSnoc(ids: seq<nat>, id: nat)
    ensures RenderIds(ids + [id]) == RenderIds(ids) + [NatToString(id)]
  {
    if |ids| == 0 {
      assert ids + [id] == [id];
    } else {
      assert (ids + [id])[1..] == ids[1..] + [id];
      RenderIdsSnoc(ids[1..], id);
    }
  }

  /**
   * Lines 114-119 of storage/common.go: the CASE clause of one column, one
   * `WHEN sid THEN '<value>'` per record.
   */
  method BuildCaseClause(field: string, vt: Verb, values: seq<Record>) returns (clause: CaseClause, update: string)
    ensures clause == CaseClause(field, Arms(field, vt, values))
    ensures update == RenderClause(clause)
  {
    ghost var spec := Arms(field, vt, values);
    var body := "";
    var arms: seq<WhenArm> := [];
    var j := 0;
    while j < |values|
      invariant 0 <= j <= |values|
      invariant arms == spec[..j]
      invariant body == RenderArms(arms)
    {
      var text := Format(vt, Lookup(values[j], field));
      var arm := WhenArm(values[j].sid, text);
      body := body + (" WHEN " + (NatToString(values[j].sid) + (" THEN '" + (text + "'"))));
      RenderArmsSnoc(arms, arm);
      PrefixStep(spec, j);
      arms := arms + [arm];
      j := j + 1;
    }
    assert arms == spec;
    clause := CaseClause(field, arms);
    update := " " + (field + (" = CASE sid " + (body + " END")));
  }

  /** Lines 123-126 of storage/common.go: the IN list, one entry per record. */
  method BuildIds(values: seq<Record>) returns (ids: seq<nat>, idTexts: seq<string>)
    ensures ids == Sids(values)
    ensures idTexts == RenderIds(ids)
  {
    ghost var spec := Sids(values);
    ids := [];
    idTexts := [];
    var j := 0;
    while j < |values|
      invariant 0 <= j <= |values|
      invariant ids == spec[..j]
      invariant idTexts == RenderIds(ids)
    {
      RenderIdsSnoc(ids, values[j].sid);
      idTexts := idTexts + [NatToString(values[j].sid)];
      ids := ids + [values[j].sid];
      assert spec[..j + 1] == spec[..j] + [spec[j]];
      j := j + 1;
    }
    assert ids == spec;
  }

  /**
   * Lines 112-128 of storage/common.go: the CASE clauses in field-map order,
   * the IN list and the final statement text.
   */
  method CompileBatchUpdate(table: string, chain: string, fields: map<string, Verb>, order: seq<string>, values: seq<Record>)
    returns (b: BatchUpdate, sql: string)
    requires Enumerates(order, fields)
    ensures b == Compile(table, chain, fields, order, values)
    ensures sql == RenderBatch(b)
  {
    ghost var spec := Clauses(fields, order, values);
    var clauses: seq<CaseClause> := [];
    var updates: seq<string> := [];
    var k := 0;
    while k < |order|
      invariant 0 <= k <= |order|
      invariant clauses == spec[..k]
      invariant updates == RenderClauses(clauses)
    {
      var clause, update := BuildCaseClause(order[k], fields[order[k]], values);
      RenderClausesSnoc(clauses, clause);
      updates := updates + [update];
      clauses := clauses + [clause];
      assert spec[..k + 1] == spec[..k] + [spec[k]];
      k := k + 1;
    }
    assert clauses == spec;
    var ids, idTexts := BuildIds(values);
    b := BatchUpdate(table, chain, clauses, ids);
    sql := "UPDATE " + (table + (" SET " + (Join(updates, ",")
      + (" WHERE chain = '" + (chain + ("' AND sid IN (" + (Join(idTexts, ",") + ")")))))));
  }

  /**
   * `BatchUpdatesBySID`: no statement at all for an empty record list;
   * otherwise one statement, whose backend error is passed through with a
   * zero count and whose success reports the backend's rows affected.
   */
  method BatchUpdatesBySID(tx: Tx, chain: string, table: string, fields: map<string, Verb>, order: seq<string>,
                           values: seq<Record>, outcome: Outcome)
    returns (err: Option<Error>, affected: nat)
    requires Enumerates(order, fields)
    modifies tx
    ensures |values| == 0 ==> err == None && affected == 0 && tx.log == old(tx.log) && tx.db == old(tx.db)
    ensures |values| > 0 ==>
      var s := Batch(Compile(table, chain, fields, order, values));
      && tx.log == old(tx.log) + [Submission(s)]
      && (outcome.Failed? ==> err == Some(outcome.error) && affected == 0 && tx.db == old(tx.db))
      && (outcome.Done? ==> err == None && affected == outcome.rowsAffected && tx.db == Apply(s, old(tx.db)))
  {
    if |values| < 1 {
      return None, 0;
    }
    var b, sql := CompileBatchUpdate(table, chain, fields, order, values);
    var ret := tx.Exec(Batch(b), outcome);
    if ret.Failed? {
      return Some(ret.error), 0;
    }
    return None, ret.rowsAffected;
  }
}
