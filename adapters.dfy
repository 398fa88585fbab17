/**
 * The three domain adapters of storage/common.go: each projects typed rows
 * onto value records over a fixed column whitelist and hands them to
 * `BatchUpdatesBySID`, returning its error and dropping the count.
 */
module Adapters {
  import opened Wrappers
  import opened Text
  import opened Sql
  import opened Db
  import opened Model
  import opened Batch

  const InscriptionFields: map<string, Verb> := map["transfer_type" := D]
  const StatsFields: map<string, Verb> := map["minted" := S, "holders" := D, "tx_cnt" := D]
  const BalanceFields: map<string, Verb> := map["available" := S, "balance" := S]

  function InscriptionRecord(item: Inscription): (r: Record)
    ensures r.sid == item.sid && r.vals.Keys == InscriptionFields.Keys
  {
    Record(item.sid, map["transfer_type" := IntV(item.transferType)])
  }

  /** `Minted` is written with `%s`, i.e. as its decimal text. */
  function StatsRecord(item: InscriptionStats): (r: Record)
    ensures r.sid == item.sid && r.vals.Keys == StatsFields.Keys
  {
    Record(item.sid, map["minted" := StrV(IntToString(item.minted)), "holders" := IntV(item.holders),
                         "tx_cnt" := IntV(item.txCnt)])
  }

  function BalanceRecord(item: Balance): (r: Record)
    ensures r.sid == item.sid && r.vals.Keys == BalanceFields.Keys
  {
    Record(item.sid, map["available" := StrV(item.available), "balance" := StrV(item.balance)])
  }

  function InscriptionRecords(items: seq<Inscription>): seq<Record> {
    seq(|items|, i requires 0 <= i < |items| => InscriptionRecord(items[i]))
  }

  function StatsRecords(items: seq<InscriptionStats>): seq<Record> {
    seq(|items|, i requires 0 <= i < |items| => StatsRecord(items[i]))
  }

  function BalanceRecords(items: seq<Balance>): seq<Record> {
    seq(|items|, i requires 0 <= i < |items| => BalanceRecord(items[i]))
  }

  /** Lines 93-99: one record per item, in item order. */
  method CollectInscriptionRecords(items: seq<Inscription>) returns (vals: seq<Record>)
    ensures |vals| == |items|
    ensures forall i :: 0 <= i < |items| ==> vals[i] == InscriptionRecord(items[i])
  {
    vals := [];
    var i := 0;
    while i < |items|
      invariant 0 <= i <= |items|
      invariant |vals| == i
      invariant forall j :: 0 <= j < i ==> vals[j] == InscriptionRecord(items[j])
    {
      vals := vals + [Record(items[i].sid, map["transfer_type" := IntV(items[i].transferType)])];
      i := i + 1;
    }
  }

  /** Lines 147-155: one record per item, in item order. */
  method CollectStatsRecords(items: seq<InscriptionStats>) returns (vals: seq<Record>)
    ensures |vals| == |items|
    ensures forall i :: 0 <= i < |items| ==> vals[i] == StatsRecord(items[i])
  {
    vals := [];
    var i := 0;
    while i < |items|
      invariant 0 <= i <= |items|
      invariant |vals| == i
      invariant forall j :: 0 <= j < i ==> vals[j] == StatsRecord(items[j])
    {
      var item := items[i];
      vals := vals + [Record(item.sid, map["minted" := StrV(IntToString(item.minted)), "holders" := IntV(item.holders),
                                          "tx_cnt" := IntV(item.txCnt)])];
      i := i + 1;
    }
  }

  /** Lines 208-215: one record per item, in item order. */
  method CollectBalanceRecords(items: seq<Balance>) returns (vals: seq<Record>)
    ensures |vals| == |items|
    ensures forall i :: 0 <= i < |items| ==> vals[i] == BalanceRecord(items[i])
  {
    vals := [];
    var i := 0;
    while i < |items|
      invariant 0 <= i <= |items|
      invariant |vals| == i
      invariant forall j :: 0 <= j < i ==> vals[j] == BalanceRecord(items[j])
    {
      vals := vals + [Record(items[i].sid, map["available" := StrV(items[i].available), "balance" := StrV(items[i].balance)])];
      i := i + 1;
    }
  }

  /** `BatchUpdateInscription` (lines 85-105). */
  method BatchUpdateInscription(tx: Tx, chain: string, items: seq<Inscription>, order: seq<string>, outcome: Outcome)
    returns (err: Option<Error>)
    requires Enumerates(order, InscriptionFields)
    modifies tx
    ensures |items| == 0 ==> err == None && tx.log == old(tx.log) && tx.db == old(tx.db)
    ensures |items| > 0 ==>
      var s := Batch(Compile(InscriptionsTable, chain, InscriptionFields, order, InscriptionRecords(items)));
      && err == ErrorOf(outcome)
      && tx.log == old(tx.log) + [Submission(s)]
      && tx.db == (if outcome.Done? then Apply(s, old(tx.db)) else old(tx.db))
  {
    if |items| < 1 {
      return None;
    }
    var vals := CollectInscriptionRecords(items);
    assert vals == InscriptionRecords(items);
    var e, _ := BatchUpdatesBySID(tx, chain, InscriptionsTable, InscriptionFields, order, vals, outcome);
    if e.Some? {
      return e;
    }
    return None;
  }

  /** `BatchUpdateInscriptionStats` (lines 136-161). */
  method BatchUpdateInscriptionStats(tx: Tx, chain: string, items: seq<InscriptionStats>, order: seq<string>, outcome: Outcome)
    returns (err: Option<Error>)
    requires Enumerates(order, StatsFields)
    modifies tx
    ensures |items| == 0 ==> err == None && tx.log == old(tx.log) && tx.db == old(tx.db)
    ensures |items| > 0 ==>
      var s := Batch(Compile(InscriptionStatsTable, chain, StatsFields, order, StatsRecords(items)));
      && err == ErrorOf(outcome)
      && tx.log == old(tx.log) + [Submission(s)]
      && tx.db == (if outcome.Done? then Apply(s, old(tx.db)) else old(tx.db))
  {
    if |items| < 1 {
      return None;
    }
    var vals := CollectStatsRecords(items);
    assert vals == StatsRecords(items);
    var e, _ := BatchUpdatesBySID(tx, chain, InscriptionStatsTable, StatsFields, order, vals, outcome);
    if e.Some? {
      return e;
    }
    return None;
  }

  /** `BatchUpdateBalances` (lines 198-221). */
  method BatchUpdateBalances(tx: Tx, chain: string, items: seq<Balance>, order: seq<string>, outcome: Outcome)
    returns (err: Option<Error>)
    requires Enumerates(order, BalanceFields)
    modifies tx
    ensures |items| == 0 ==> err == None && tx.log == old(tx.log) && tx.db == old(tx.db)
    ensures |items| > 0 ==>
      var s := Batch(Compile(BalancesTable, chain, BalanceFields, order, BalanceRecords(items)));
      && err == ErrorOf(outcome)
      && tx.log == old(tx.log) + [Submission(s)]
      && tx.db == (if outcome.Done? then Apply(s, old(tx.db)) else old(tx.db))
  {
    if |items| < 1 {
      return None;
    }
    var vals := CollectBalanceRecords(items);
    assert vals == BalanceRecords(items);
    var e, _ := BatchUpdatesBySID(tx, chain, BalancesTable, BalanceFields, order, vals, outcome);
    if e.Some? {
      return e;
    }
    return None;
  }
}

/**
 * What each adapter's statement does to its table: in a selected row, the
 * whitelisted columns take the values of the first item with the row's sid,
 * decimal strings byte for byte.
 */
module AdapterProps {
  import opened Text
  import opened Sql
  import opened Model
  import opened Batch
  import opened BatchProps
  import opened Adapters

  lemma InscriptionUpdateEffect(chain: string, items: seq<Inscription>, order: seq<string>, t: Table, k: RowKey, j: nat)
    requires Enumerates(order, InscriptionFields)
    requires k in t && k.chain == chain && j < |items| && items[j].sid == k.sid
    requires forall i :: 0 <= i < j ==> items[i].sid != k.sid
    ensures var row := ApplyBatch(Compile(InscriptionsTable, chain, InscriptionFields, order, InscriptionRecords(items)), t)[k];
      "transfer_type" in row && row["transfer_type"] == Text(IntToString(items[j].transferType))
  {
    var vals := InscriptionRecords(items);
    BatchFirstWins(InscriptionsTable, chain, InscriptionFields, order, vals, t, k, "transfer_type", j);
  }

  lemma StatsUpdateEffect(chain: string, items: seq<InscriptionStats>, order: seq<string>, t: Table, k: RowKey, j: nat)
    requires Enumerates(order, StatsFields)
    requires k in t && k.chain == chain && j < |items| && items[j].sid == k.sid
    requires forall i :: 0 <= i < j ==> items[i].sid != k.sid
    ensures var row := ApplyBatch(Compile(InscriptionStatsTable, chain, StatsFields, order, StatsRecords(items)), t)[k];
      && "minted" in row && row["minted"] == Text(IntToString(items[j].minted))
      && "holders" in row && row["holders"] == Text(IntToString(items[j].holders))
      && "tx_cnt" in row && row["tx_cnt"] == Text(IntToString(items[j].txCnt))
  {
    var vals := StatsRecords(items);
    BatchFirstWins(InscriptionStatsTable, chain, StatsFields, order, vals, t, k, "minted", j);
    BatchFirstWins(InscriptionStatsTable, chain, StatsFields, order, vals, t, k, "holders", j);
    BatchFirstWins(InscriptionStatsTable, chain, StatsFields, order, vals, t, k, "tx_cnt", j);
  }

  lemma BalanceUpdateEffect(chain: string, items: seq<Balance>, order: seq<string>, t: Table, k: RowKey, j: nat)
    requires Enumerates(order, BalanceFields)
    requires k in t && k.chain == chain && j < |items| && items[j].sid == k.sid
    requires forall i :: 0 <= i < j ==> items[i].sid != k.sid
    ensures var row := ApplyBatch(Compile(BalancesTable, chain, BalanceFields, order, BalanceRecords(items)), t)[k];
      && "available" in row && row["available"] == Text(items[j].available)
      && "balance" in row && row["balance"] == Text(items[j].balance)
  {
    var vals := BalanceRecords(items);
    BatchFirstWins(BalancesTable, chain, BalanceFields, order, vals, t, k, "available", j);
    BatchFirstWins(BalancesTable, chain, BalanceFields, order, vals, t, k, "balance", j);
  }

  /** Row `k` of `t` exists and holds `c` in `column`. */
  predicate HasCell(t: Table, k: RowKey, column: string, c: Cell) {
    k in t && column in t[k] && t[k][column] == c
  }

  /**
   * Balances (1, "100.5") and (2, "0") on chain "btc": in any table holding
   * those rows, both take their amounts, and the row with sid 1 of chain "eth" is
   * left as it was.
   */
  lemma BalanceScenario(t: Table)
    requires RowKey("btc", 1) in t && RowKey("btc", 2) in t && RowKey("eth", 1) in t
    ensures var items := [Balance(1, "100.5", "100.5"), Balance(2, "0", "7")];
      var t' := ApplyBatch(Compile(BalancesTable, "btc", BalanceFields, ["available", "balance"], BalanceRecords(items)), t);
      && HasCell(t', RowKey("btc", 1), "available", Text("100.5"))
      && HasCell(t', RowKey("btc", 2), "available", Text("0"))
      && HasCell(t', RowKey("btc", 2), "balance", Text("7"))
      && RowKey("eth", 1) in t' && t'[RowKey("eth", 1)] == t[RowKey("eth", 1)]
  {
    var items := [Balance(1, "100.5", "100.5"), Balance(2, "0", "7")];
    var order := ["available", "balance"];
    assert Enumerates(order, BalanceFields);
    assert items[0].sid == 1 && items[1].sid == 2;
    BalanceUpdateEffect("btc", items, order, t, RowKey("btc", 1), 0);
    BalanceUpdateEffect("btc", items, order, t, RowKey("btc", 2), 1);
    BatchUnselectedRow(BalancesTable, "btc", BalanceFields, order, BalanceRecords(items), t, RowKey("eth", 1));
  }
}
