/**
 * The fields of the indexer's entity records that the update paths of
 * storage/common.go read. Decimal amounts of balances are kept as their
 * decimal strings; `Minted` is an integer and `MintCompletedTime` an
 * optional Unix time.
 */
module Model {
  import opened Wrappers

  datatype Inscription = Inscription(sid: nat, transferType: int)

  datatype InscriptionStats = InscriptionStats(
    sid: nat,
    chain: string,
    protocol: string,
    tick: string,
    minted: int,
    mintCompletedTime: Option<int>,
    mintFirstBlock: int,
    mintLastBlock: int,
    holders: int,
    txCnt: int)

  datatype Balance = Balance(sid: nat, available: string, balance: string)

  /**
   * Stand-ins for `TableName()` of the three record types; the names
   * themselves are defined outside the modelled file.
   */
  const InscriptionsTable := "inscriptions"
  const InscriptionStatsTable := "inscriptions_stats"
  const BalancesTable := "balances"
}
