/** The reconciliation report (internal/usecase/reconciliation_usecase.go): two reads, at two moments,
    and their difference. */
module Reconciliation {
  import opened Amounts
  import opened Records
  import opened Tables
  import opened Invariants
  import opened Evolution
  import opened Interleaving
  import opened Refinement
  import opened Histories

  datatype Report = Report(walletId: string, stored: string, calculated: string, difference: string, currency: string,
                           consistent: bool, checked: int64)

  /** The wallet is unknown, or a total does not scan into an int64. */
  datatype Failure = UnknownWallet | ScanFailed

  function Wrap(n: int): int64 {
    var m := (n - MIN_INT64) % 0x1_0000_0000_0000_0000 + MIN_INT64;
    m as int64
  }

  /** SUM(CASE WHEN direction = ... THEN amount ELSE 0 END). */
  function Total(es: seq<Entry>, dir: Direction): int {
    if es == [] then 0
    else Total(es[..|es| - 1], dir) + if es[|es| - 1].direction == dir then es[|es| - 1].amount as int else 0
  }

  /** CalculateLedgerBalance: the balance and the number of entries. */
  function LedgerBalance(ledger: seq<Entry>, id: string): Result<(int64, int64), Failure> {
    var es := EntriesOf(ledger, id);
    var credits, debits := Total(es, Credit), Total(es, Debit);
    if !Fits(credits) || !Fits(debits) || !Fits(|es|) then Err(ScanFailed) else Ok((Wrap(credits - debits), |es| as int64))
  }

  /** The wallet is read from one committed state and the ledger from another. */
  function Reconcile(first: Db, second: Db, id: string): Result<Report, Failure> {
    if id !in first.wallets then Err(UnknownWallet)
    else
      var balance := first.wallets[id].balance;
      match LedgerBalance(second.ledger, id)
      case Err(e) => Err(e)
      case Ok((calculated, checked)) =>
        var difference := Wrap(balance.amount as int - calculated as int);
        Ok(Report(id, Print(balance.amount), Print(calculated), Print(difference), balance.currency, difference == 0, checked))
  }

  lemma WrapFits(n: int)
    requires Fits(n)
    ensures Wrap(n) as int == n
  {
  }

  lemma {:induction false} TotalsAndSum(es: seq<Entry>)
    ensures Total(es, Credit) - Total(es, Debit) == Sum(es)
  {
    if es != [] { TotalsAndSum(es[..|es| - 1]); }
  }

  lemma {:induction false} TotalOfOthers(es: seq<Entry>, dir: Direction)
    requires forall k :: 0 <= k < |es| ==> es[k].direction != dir
    ensures Total(es, dir) == 0
  {
    if es != [] { TotalOfOthers(es[..|es| - 1], dir); }
  }

  /** Totals add up. */
  lemma {:induction false} TotalAdds(a: seq<Entry>, b: seq<Entry>, dir: Direction)
    ensures Total(a + b, dir) == Total(a, dir) + Total(b, dir)
  {
    if b == [] {
      assert a + b == a;
    } else {
      TotalAdds(a, b[..|b| - 1], dir);
      assert (a + b)[..|a + b| - 1] == a + b[..|b| - 1] && (a + b)[|a + b| - 1] == b[|b| - 1];
    }
  }

  lemma {:induction false} SumAppend(a: seq<Entry>, b: seq<Entry>)
    ensures Sum(a + b) == Sum(a) + Sum(b)
  {
    if b == [] {
      assert a + b == a;
    } else {
      SumAppend(a, b[..|b| - 1]);
      assert (a + b)[..|a + b| - 1] == a + b[..|b| - 1];
    }
  }

  lemma {:induction false} EntriesAppend(a: seq<Entry>, b: seq<Entry>, id: string)
    ensures EntriesOf(a + b, id) == EntriesOf(a, id) + EntriesOf(b, id)
  {
    if b == [] {
      assert a + b == a;
    } else {
      EntriesAppend(a, b[..|b| - 1], id);
      assert (a + b)[..|a + b| - 1] == a + b[..|b| - 1];
    }
  }

  /** The entries of a wallet that were committed between two states. */
  function Between(first: Db, second: Db, id: string): seq<Entry>
    requires first.ledger <= second.ledger
  {
    EntriesOf(second.ledger[|first.ledger|..], id)
  }

  predicate TotalsFit(ledger: seq<Entry>, id: string) {
    var es := EntriesOf(ledger, id);
    Fits(Total(es, Credit)) && Fits(Total(es, Debit)) && Fits(|es|)
  }

  lemma BalancesDiffer(first: Db, second: Db, id: string)
    requires Inv(first) && Inv(second) && Evolves(first, second) && id in first.wallets
    ensures id in second.wallets
    ensures second.wallets[id].balance.amount as int - first.wallets[id].balance.amount as int == Sum(Between(first, second, id))
  {
    hide KeysOk, RowsOk, LedgerOk, WalletsOk, EventsOk, IndexesEvolve;
    Conservation(first, id);
    Conservation(second, id);
    var added := second.ledger[|first.ledger|..];
    assert first.ledger + added == second.ledger;
    EntriesAppend(first.ledger, added, id);
    SumAppend(EntriesOf(first.ledger, id), EntriesOf(added, id));
  }

  /** What the report says of two states, the second later than the first. */
  predicate ReportFits(first: Db, second: Db, id: string, moved: int) {
    match Reconcile(first, second, id)
    case Err(UnknownWallet) => id !in first.wallets
    case Err(ScanFailed) => id in first.wallets && !TotalsFit(second.ledger, id)
    case Ok(r) =>
      && id in first.wallets && id in second.wallets && TotalsFit(second.ledger, id)
      && MIN_INT64 < -moved <= MAX_INT64 && r.difference == Print((-moved) as int64) && (r.consistent <==> moved == 0)
      && r.stored == Print(first.wallets[id].balance.amount) && r.calculated == Print(second.wallets[id].balance.amount)
      && r.checked as int == |EntriesOf(second.ledger, id)|
      && r.walletId == id && r.currency == first.wallets[id].balance.currency
  }

  lemma BalanceIsTotal(db: Db, id: string)
    requires Inv(db) && id in db.wallets && TotalsFit(db.ledger, id)
    ensures LedgerBalance(db.ledger, id) == Ok((db.wallets[id].balance.amount, |EntriesOf(db.ledger, id)| as int64))
    ensures db.wallets[id].balance.amount >= 0
  {
    hide Inv, Total, Sum, EntriesOf, Wrap;
    Conservation(db, id);
    TotalsAndSum(EntriesOf(db.ledger, id));
    WrapFits(db.wallets[id].balance.amount as int);
  }

  lemma ReportOfStates(first: Db, second: Db, id: string)
    requires Inv(first) && Inv(second) && Evolves(first, second)
    ensures ReportFits(first, second, id, Sum(EntriesOf(second.ledger[|first.ledger|..], id)))
  {
    hide Inv, Total, Sum, EntriesOf, Wrap, Print, TablesEvolve, IndexesEvolve;
    if id in first.wallets {
      BalancesDiffer(first, second, id);
      if TotalsFit(second.ledger, id) {
        BalanceIsTotal(second, id);
        Conservation(first, id);
        WrapFits(first.wallets[id].balance.amount as int - second.wallets[id].balance.amount as int);
      }
    }
  }

  lemma LedgerGrows(db: Db, db': Db)
    requires Evolves(db, db')
    ensures db.ledger <= db'.ledger
  {
    hide TablesEvolve, IndexesEvolve;
  }

  /** The report, whatever is committed between its two reads: it fails exactly when the wallet is
      unknown or a total does not fit; otherwise its difference is minus the signed sum of the entries
      committed in between, and no intermediate result overflows. */
  lemma ReportUnderConcurrency(s: Sys, i: nat, j: nat, id: string)
    requires SysOk(s) && i <= j < |s.hist|
    ensures s.hist[i].ledger <= s.hist[j].ledger
    ensures ReportFits(s.hist[i], s.hist[j], id, Sum(Between(s.hist[i], s.hist[j], id)))
  {
    hide SysOk, Inv, InboxOk, ReportFits, Evolves, Sum, EntriesOf;
    StateOk(s, i);
    StateOk(s, j);
    StatesEvolve(s, i, j);
    LedgerGrows(s.hist[i], s.hist[j]);
    ReportOfStates(s.hist[i], s.hist[j], id);
  }

  /** With no commit in between every wallet whose totals fit is found consistent. */
  lemma QuietReportIsConsistent(s: Sys, i: nat, id: string)
    requires SysOk(s) && i < |s.hist| && id in s.hist[i].wallets && TotalsFit(s.hist[i].ledger, id)
    ensures Reconcile(s.hist[i], s.hist[i], id).Ok? && Reconcile(s.hist[i], s.hist[i], id).value.consistent
  {
    hide SysOk, Inv, Reconcile, TotalsFit;
    ReportUnderConcurrency(s, i, i, id);
    var db := s.hist[i];
    assert db.ledger[|db.ledger|..] == [];
  }
}
