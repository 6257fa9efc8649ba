/** The queue consumer itself: process first, delete after
    (internal/infrastructure/transport/sqs_worker.go). */
module SqsWorker {
  import opened Amounts
  import opened Records
  import opened Tables
  import opened Steps
  import opened Invariants
  import opened Preservation
  import opened Evolution
  import opened Usecases
  import opened Delivery

  /** The hash of the body, of which the model keeps the payload that the body carries. */
  function BodyHash(input: Submission, supported: seq<string>): Payload {
    match Prepare(input, supported)
    case Ok(t) => t.hash
    case Err(_) => Payload(input.providerId, input.externalId, input.playerId, input.walletId, input.roundId, input.gameId,
                           Opening, input.amount, input.currency, input.refExternalId)
  }

  lemma {:induction false} RunErrors(db: Db, ws: seq<Write>)
    requires forall k :: 0 <= k < |ws| ==> !ws[k].InsInbox?
    ensures Run(db, ws) != Err(DuplicateMessage)
  {
    hide Check, Apply;
    if ws != [] {
      RunErrors(db, ws[..|ws| - 1]);
      if Run(db, ws[..|ws| - 1]).Ok? { NoDuplicateCheck(Run(db, ws[..|ws| - 1]).value, ws[|ws| - 1]); }
    }
  }

  lemma WagerNeverDuplicate(db: Db, t: TxRow, inbox: Option<Claim>)
    ensures Wager(db, t, inbox) != Err(DuplicateMessage)
  {
    hide Run, Decide, Existing, FreshRead;
    var read := FreshRead(db, t, inbox);
    if !(inbox.Some? && MessageOf(inbox.value) in db.inbox) {
      RunInbox(db, inbox, []);
      if Existing(db, t).Absent? && t.walletId in db.wallets {
        var d := Decide(t, db.wallets[t.walletId], read);
        DecisionErrors(t, db.wallets[t.walletId], read);
        if d.Plan? {
          PlanShape(t, db.wallets[t.walletId], read);
          RunInbox(db, inbox, d.writes);
          RunErrors(WithInbox(db, inbox), d.writes);
        }
      }
    }
  }

  lemma SuccessKeeps(db: Db, t: TxRow, claim: Claim)
    requires Inv(db) && InboxOk(db) && NewRow(t) && claim.payload == t.hash && Wager(db, t, Some(claim)).Ok?
    ensures Inv(Wager(db, t, Some(claim)).value.0) && InboxOk(Wager(db, t, Some(claim)).value.0)
  {
    hide KeysOk, RowsOk, LedgerOk, WalletsOk, EventsOk, WagerStep, FreshRead, OnRecord;
    var read := FreshRead(db, t, Some(claim));
    WagerKeeps(db, t, Some(claim), read);
    WagerKeepsInbox(db, t, Some(claim), read);
  }

  /** A submission that succeeds leaves its row on record if and only if its message id had not been seen
      or the row was there before. */
  lemma SuccessOnRecordWhen(db: Db, t: TxRow, claim: Claim)
    requires Inv(db) && InboxOk(db) && NewRow(t) && claim.payload == t.hash && Wager(db, t, Some(claim)).Ok?
    ensures OnRecord(Wager(db, t, Some(claim)).value.0, t.hash) <==> MessageOf(claim) !in db.inbox || OnRecord(db, t.hash)
  {
    hide KeysOk, RowsOk, LedgerOk, WalletsOk, EventsOk, WagerStep, FreshRead, OnRecord;
    var read := FreshRead(db, t, Some(claim));
    if MessageOf(claim) in db.inbox {
      RepeatIdle(db, t, Some(claim), read);
    } else {
      WagerRecords(db, t, Some(claim), read);
    }
  }

  /** And its message claimed, with its payload unless it was claimed before. */
  lemma SuccessClaims(db: Db, t: TxRow, claim: Claim)
    requires Wager(db, t, Some(claim)).Ok?
    ensures var key, d := (claim.consumer, claim.messageId), Wager(db, t, Some(claim)).value.0;
            d.inbox == if key in db.inbox then db.inbox else db.inbox[key := claim.payload]
  {
    hide WagerStep, FreshRead;
    var read := FreshRead(db, t, Some(claim));
    if MessageOf(claim) in db.inbox { RepeatIdle(db, t, Some(claim), read); } else { WagerInbox(db, t, Some(claim), read); }
  }

  /** A new submission under a message id that has been seen is lost: it is answered, recorded nowhere, and
      changes nothing. */
  lemma LostSubmission(db: Db, t: TxRow, claim: Claim)
    requires MessageOf(claim) in db.inbox && FindByExternalId(db, ExtOf(t)).None? && NewRow(t) && t.walletId in db.wallets
    ensures Wager(db, t, Some(claim)).Ok? && Wager(db, t, Some(claim)).value.0 == db && !OnRecord(db, t.hash)
  {
  }

  /** A message that was processed but not deleted comes again: it has no second effect, and it is
      acknowledged if and only if the code may go on querying after a failed insert. Under PostgreSQL's
      rule it may not, and the message comes back until it is redriven. */
  lemma RedeliveryAcknowledged(db: Db, db': Db, t: TxRow, claim: Claim, strict: bool, r: Result<Output, Error>)
    requires Inv(db) && InboxOk(db) && NewRow(t) && claim.payload == t.hash
    requires MessageOf(claim) in db.inbox && db.inbox[MessageOf(claim)] == claim.payload
    requires Served(db, db', t, Some(claim), strict, r)
    ensures db' == db && (r.Ok? <==> !strict)
  {
    hide Inv, InboxOk, Wager;
    DuplicateFindsRow(db, t, claim);
  }

  lemma PrepareErrors(input: Submission, supported: seq<string>)
    ensures Prepare(input, supported) != Err(DuplicateMessage)
  {
  }

  class Consumer {
    const usecase: WagerUsecase
    var queue: set<string>

    constructor (usecase: WagerUsecase, queue: set<string>)
      ensures this.usecase == usecase && this.queue == queue
    {
      this.usecase, this.queue := usecase, queue;
    }

    /** `reachable` says whether the queue answers the deletion. */
    method DeleteMessage(id: string, reachable: bool)
      modifies this
      ensures queue == if reachable then old(queue) - {id} else old(queue)
    {
      if reachable { queue := queue - {id}; }
    }

    /** The message leaves the queue only when its atomic step has been committed; its row is then on record
        if and only if its id had not been seen or the row was there before. What cannot be decoded, is not
        valid or fails stays. Under PostgreSQL's rule that includes every redelivery of a message that was
        processed but not deleted. */
    method ProcessSQSEnvelope(id: string, body: Body, reachable: bool)
      requires usecase.tx.Idle() && Inv(usecase.tx.committed) && InboxOk(usecase.tx.committed)
      modifies this, usecase.tx
      ensures usecase.tx.Idle() && Inv(usecase.tx.committed) && InboxOk(usecase.tx.committed)
      ensures var db, t := old(usecase.tx.committed), Asked(map[id := body], id, usecase.supported);
              if t.None? || (usecase.tx.strict && ("sqs_wager_consumer", id) in db.inbox) || Wager(db, t.value, Some(ClaimOf(id, t.value))).Err?
              then usecase.tx.committed == db && queue == old(queue)
              else usecase.tx.committed == Wager(db, t.value, Some(ClaimOf(id, t.value))).value.0
                   && (OnRecord(usecase.tx.committed, t.value.hash) <==>
                       ("sqs_wager_consumer", id) !in db.inbox || OnRecord(db, t.value.hash))
                   && (("sqs_wager_consumer", id) !in db.inbox ==>
                         usecase.tx.committed.inbox == db.inbox[("sqs_wager_consumer", id) := t.value.hash])
                   && queue == if reachable then old(queue) - {id} else old(queue)
    {
      hide Inv, InboxOk, Wager, OnRecord, Prepare;
      match body {
        case Garbled => return;
        case Carries(input) =>
          ghost var db, t := usecase.tx.committed, Asked(map[id := body], id, usecase.supported);
          var claim := Claim(CONSUMER, id, BodyHash(input, usecase.supported));
          InvReads(db);
          var r := usecase.ProcessTransactionWithInbox(input, Some(claim));
          if t.Some? {
            PrepareGivesNewRow(input, usecase.supported);
            WagerNeverDuplicate(db, t.value, Some(claim));
            if Wager(db, t.value, Some(claim)).Ok? {
              SuccessKeeps(db, t.value, claim);
              SuccessOnRecordWhen(db, t.value, claim);
              SuccessClaims(db, t.value, claim);
            }
          } else {
            PrepareErrors(input, usecase.supported);
          }
          if r.Err? && r.error != DuplicateMessage { return; }
          DeleteMessage(id, reachable);
      }
    }
  }
}
