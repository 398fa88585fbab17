/**
 * The caller's transaction handle (`dbTx *gorm.DB`). The storage layer only
 * ever calls `Exec` on it. What the backend answers is not computed here:
 * it is supplied as `outcome`. A failed statement changes nothing; a
 * successful one applies its meaning to the database.
 */
module Db {
  import opened Wrappers
  import opened Sql

  /** An opaque backend error (syntax, constraint, connection). */
  datatype Error = Error(message: string)

  /** What the backend reports for one statement. */
  datatype Outcome = Failed(error: Error) | Done(rowsAffected: nat)

  /** The error a caller sees for an outcome: the backend's error as it came, or nil. */
  function ErrorOf(outcome: Outcome): Option<Error> {
    if outcome.Failed? then Some(outcome.error) else None
  }

  class Tx {
    var db: Database
    var log: seq<Submitted>

    constructor (db: Database)
      ensures this.db == db && log == []
    {
      this.db := db;
      log := [];
    }

    /** `dbTx.Exec(sql, args...)`: submits one statement and reports the backend outcome. */
    method Exec(s: Statement, outcome: Outcome) returns (r: Outcome)
      modifies this
      ensures r == outcome
      ensures log == old(log) + [Submission(s)]
      ensures db == if outcome.Done? then Apply(s, old(db)) else old(db)
    {
      log := log + [Submission(s)];
      if outcome.Done? {
        db := Apply(s, db);
      }
      r := outcome;
    }
  }
}
