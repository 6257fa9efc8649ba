/** A database transaction as the use cases drive it: the statements of the repositories, commit and
    rollback, with nothing else running. */
module Sessions {
  import opened Amounts
  import opened Records
  import opened Tables
  import Domain

  /** `strict` is PostgreSQL's rule: once a statement has failed, every later statement of the
      transaction fails too, and its commit rolls back. Without it the code continues as written. */
  class Session {
    const strict: bool
    var committed: Db
    var done: seq<Write>
    var aborted: bool
    var walletLocks: set<string>
    var rowLocks: set<string>

    constructor (db: Db, strict: bool)
      ensures Idle() && committed == db && this.strict == strict
    {
      this.strict, committed, done, aborted := strict, db, [], false;
      walletLocks, rowLocks := {}, {};
    }

    predicate Valid()
      reads this
    {
      Run(committed, done).Ok? && (aborted ==> strict)
    }

    predicate Idle()
      reads this
    {
      done == [] && !aborted && walletLocks == {} && rowLocks == {}
    }

    /** The tables as the transaction sees them. */
    function View(): Db
      reads this
      requires Valid()
    {
      Run(committed, done).value
    }

    /** The transaction has locked the row that the statement updates. */
    predicate Holds(w: Write)
      reads this
    {
      (w.UpdWallet? ==> w.wallet.id in walletLocks) && (w.UpdTx? ==> w.tx.id in rowLocks)
    }

    /** A write statement: it takes effect, or fails and leaves no trace but the aborted mark. No row is
        ever updated without its lock. */
    method Exec(w: Write) returns (err: Option<Error>)
      requires Valid() && Holds(w)
      modifies this`done, this`aborted
      ensures Valid()
      ensures old(aborted) ==> err == Some(TransactionAborted) && done == old(done) && aborted
      ensures !old(aborted) ==>
                err == Check(old(View()), w) && aborted == (strict && err.Some?)
                && done == if err.Some? then old(done) else old(done) + [w]
    {
      if aborted { return Some(TransactionAborted); }
      RunSnoc(committed, done, w);
      err := Check(View(), w);
      if err.Some? {
        aborted := strict;
      } else {
        done := done + [w];
      }
    }

    method FindByExternalIDTx(key: (string, string)) returns (r: Result<Option<TxRow>, Error>)
      requires Valid()
      ensures r == if aborted then Err(TransactionAborted) else Ok(FindByExternalId(View(), key))
    {
      if aborted { return Err(TransactionAborted); }
      return Ok(FindByExternalId(View(), key));
    }

    method FindByIdempotencyKeyTx(key: string) returns (r: Result<Option<TxRow>, Error>)
      requires Valid()
      ensures r == if aborted then Err(TransactionAborted) else Ok(FindByIdempotencyKey(View(), key))
    {
      if aborted { return Err(TransactionAborted); }
      return Ok(FindByIdempotencyKey(View(), key));
    }

    method FindByIDForUpdate(id: string) returns (r: Result<Option<TxRow>, Error>)
      requires Valid()
      modifies this`rowLocks
      ensures rowLocks == if r.Ok? && r.value.Some? then old(rowLocks) + {id} else old(rowLocks)
      ensures r == if aborted then Err(TransactionAborted) else Ok(if id in View().txs then Some(View().txs[id]) else None)
    {
      if aborted { return Err(TransactionAborted); }
      if id in View().txs {
        rowLocks := rowLocks + {id};
        return Ok(Some(View().txs[id]));
      }
      return Ok(None);
    }

    method FindByIDWithLock(id: string) returns (r: Result<Domain.Wallet, Error>)
      requires Valid()
      modifies this`walletLocks
      ensures walletLocks == if !aborted && id in View().wallets then old(walletLocks) + {id} else old(walletLocks)
      ensures if aborted then r == Err(TransactionAborted)
              else if id !in View().wallets then r == Err(WalletNotFound)
              else if Rehydrates(View().wallets[id]) then r.Ok? && fresh(r.value) && r.value.Value() == View().wallets[id]
              else r.Err? && r.error in {MissingField, NegativeAmount}
    {
      if aborted { return Err(TransactionAborted); }
      if id !in View().wallets { return Err(WalletNotFound); }
      walletLocks := walletLocks + {id};
      r := Domain.Wallet.Rehydrate(View().wallets[id]);
    }

    /** Commits, unless the transaction was aborted. */
    method Commit() returns (err: Option<Error>)
      requires Valid()
      modifies this
      ensures Idle()
      ensures if old(aborted) then err == Some(TransactionAborted) && committed == old(committed)
              else err == None && committed == old(View())
    {
      walletLocks, rowLocks := {}, {};
      if aborted {
        done, aborted := [], false;
        return Some(TransactionAborted);
      }
      committed := View();
      done := [];
      return None;
    }

    method Rollback()
      modifies this
      ensures Idle() && committed == old(committed)
    {
      done, aborted := [], false;
      walletLocks, rowLocks := {}, {};
    }
  }
}
