/** The invariant of CreditSystem and the proof that every action keeps it. */
module CreditSystemInvariant {
  import opened Foundations
  import opened CreditLedger
  import opened CreditTables
  import opened CreditBooks
  import opened CreditSystem
  import Q = ClaimQueue
  import R = ReservationSweeper

  ghost predicate ClosedIn(t: Tables, w: Wallet, r: Rid) {
    HeldIn(t, w, r).Some? && HeldIn(t, w, r).value.status != OPEN
  }

  ghost predicate NotCharged(held: Option<Hold>) {
    held.Some? ==> held.value.status != COMMITTED
  }

  /** Every hold in any wallet was made by one known run, for that wallet. */
  ghost predicate HoldsOwned(t: Tables, sagas: map<Rid, Saga>) {
    forall w, r :: HeldIn(t, w, r).Some? ==> r in sagas && sagas[r].wallet == w
  }

  ghost predicate BooksOk(t: Tables, sagas: map<Rid, Saga>) {
    forall r <- sagas :: BooksAgree(t, sagas[r].wallet, r, sagas[r].cost)
  }

  ghost predicate NoStrays(t: Tables, sagas: map<Rid, Saga>) {
    forall r :: r !in sagas ==> r !in t.aiQueries && MessagesAbout(t.outbox, r) == []
  }

  /** What each phase of a run knows about its hold. */
  ghost predicate PhaseFits(p: Phase, held: Option<Hold>) {
    match p
    case Reserving => held.None?
    case Returned(answered) => held.Some? && held.value.status == (if answered then COMMITTED else RELEASED)
    case Threw => NotCharged(held)
    case Crashed => true
    case _ => held.Some? && NotCharged(held)
  }

  ghost predicate PhasesOk(t: Tables, sagas: map<Rid, Saga>) {
    forall r <- sagas :: PhaseFits(sagas[r].phase, HeldIn(t, sagas[r].wallet, r))
  }

  ghost predicate SeenHeld(tx: Tx, r: Rid) {
    r in Fold(tx.seen).reservations
  }

  /** An open transaction: whose it is, what it may do, and that its reads are a prefix of
      the committed stream. A run that crashed may have left one behind. */
  ghost predicate TxFits(t: Tables, sagas: map<Rid, Saga>, tx: Tx) {
    && tx.seen <= t.Stream(tx.cmd.wallet)
    && match tx.owner {
      case Api => tx.cmd.GrantCredits? || tx.cmd.SpendCredits? || tx.cmd.RefundCredits?
      case Run(r) => OwnTxFits(t, sagas, tx, r)
      case _ => ForeignReleaseFits(sagas, tx)
    }
  }

  ghost predicate ForeignReleaseFits(sagas: map<Rid, Saga>, tx: Tx) {
    && tx.cmd.ReleaseCreditReservation? && tx.cmd.rid in sagas && sagas[tx.cmd.rid].wallet == tx.cmd.wallet
    && SeenHeld(tx, tx.cmd.rid)
  }

  ghost predicate OwnTxFits(t: Tables, sagas: map<Rid, Saga>, tx: Tx, r: Rid) {
    && r in sagas && IsAbout(tx.cmd, r) && tx.cmd.wallet == sagas[r].wallet
    && (tx.cmd.ReserveCredits? ==>
          && tx.cmd.amount == sagas[r].cost as real && (sagas[r].phase.Reserving? || sagas[r].phase.Crashed?)
          && HeldIn(t, tx.cmd.wallet, r).None?)
    && (tx.cmd.CommitAiQuery? ==>
          tx.cmd.cost == sagas[r].cost && (sagas[r].phase.Charging? || sagas[r].phase.Crashed?) && SeenHeld(tx, r))
    && (tx.cmd.ReleaseCreditReservation? ==>
          (sagas[r].phase.ReleasingEmpty? || sagas[r].phase.Compensating? || sagas[r].phase.Crashed?)
          && SeenHeld(tx, r))
  }

  ghost predicate TxsOk(t: Tables, sagas: map<Rid, Saga>, txs: map<TxId, Tx>) {
    forall x <- txs :: TxFits(t, sagas, txs[x])
  }

  ghost predicate SoleTx(txs: map<TxId, Tx>) {
    forall x, y :: x in txs && y in txs && txs[x].owner.Run? && txs[x].owner == txs[y].owner ==> x == y
  }

  ghost predicate PayloadFits(t: Tables, sagas: map<Rid, Saga>, c: Command) {
    && c.ReleaseCreditReservation? && c.rid in sagas && sagas[c.rid].wallet == c.wallet
    && HeldIn(t, c.wallet, c.rid).Some?
  }

  /** A compensation row that is DONE, and a worker about to mark one, have seen it closed. */
  ghost predicate QueueOk(t: Tables, sagas: map<Rid, Saga>, queue: Q.State, payload: map<Q.RowId, Command>) {
    && (forall row <- payload :: PayloadFits(t, sagas, payload[row]) && row in queue.failedMarks)
    && queue.rows.Keys <= queue.failedMarks.Keys
    && (forall row <- payload :: row in queue.rows && queue.rows[row].status == Q.DONE ==>
                                   ClosedIn(t, payload[row].wallet, payload[row].rid))
    && (forall j <- queue.jobs :: queue.jobs[j].row in queue.failedMarks)
    && (forall j <- queue.jobs :: queue.jobs[j].stage.Succeeded? && queue.jobs[j].row in payload ==>
                                    ClosedIn(t, payload[queue.jobs[j].row].wallet, payload[queue.jobs[j].row].rid))
  }

  ghost predicate Inv(s: State) {
    && LedgerOk(s.db) && HoldsOwned(s.db, s.sagas) && BooksOk(s.db, s.sagas) && NoStrays(s.db, s.sagas)
    && PhasesOk(s.db, s.sagas) && TxsOk(s.db, s.sagas, s.txs) && SoleTx(s.txs)
    && QueueOk(s.db, s.sagas, s.queue, s.payload)
    && s.db == Serial(s.log)
  }

  // -------------------------------------------------------- what a write does to a hold

  lemma SeenMeansHeld(t: Tables, tx: Tx, r: Rid)
    requires LedgerOk(t) && tx.seen <= t.Stream(tx.cmd.wallet) && SeenHeld(tx, r)
    ensures HeldIn(t, tx.cmd.wallet, r).Some?
    ensures Fold(tx.seen).Closed(r) ==> ClosedIn(t, tx.cmd.wallet, r)
  {
    var s := t.Stream(tx.cmd.wallet);
    assert s[..|tx.seen|] == tx.seen;
    ReservationsStable(s, |tx.seen|, r);
  }

  lemma ReservedMeansHeld(t: Tables, w: Wallet, r: Rid)
    requires LedgerOk(t) && HasReservedRow(t, w, r)
    ensures HeldIn(t, w, r).Some?
  {
    R.RowsTellTheFold(t.Stream(w), r);
  }

  /** What TxFits gives a write: ids are fresh, and commands about a run fit that run. */
  lemma TxIsSound(s: State, x: TxId, r: Rid)
    requires Inv(s) && x in s.txs
    ensures FreshFor(s.db, s.txs[x].cmd)
    ensures var c := s.txs[x].cmd;
            IsAbout(c, r) ==> r in s.sagas && c.wallet == s.sagas[r].wallet
                              && (c.ReserveCredits? ==>
                                    c.amount == s.sagas[r].cost as real && HeldIn(s.db, c.wallet, r).None?)
                              && (c.CommitAiQuery? ==> c.cost == s.sagas[r].cost)
                              && (c.ReserveCredits? || c.CommitAiQuery? ==> s.txs[x].owner == Run(r))
                              && (!c.ReserveCredits? ==> SeenHeld(s.txs[x], r) && HeldIn(s.db, c.wallet, r).Some?)
  {
    var tx := s.txs[x];
    assert TxFits(s.db, s.sagas, tx);
    if IsAbout(tx.cmd, r) && !tx.cmd.ReserveCredits? {
      SeenMeansHeld(s.db, tx, r);
    }
  }

  /** Between two moments a hold does not disappear or change its amount, a closed one does
      not change at all, and only `c` can have moved it. */
  ghost predicate HoldGrows(t: Tables, t': Tables, c: Command, w: Wallet, r: Rid) {
    var (held, held') := (HeldIn(t, w, r), HeldIn(t', w, r));
    && (held.Some? ==> held'.Some? && held'.value.amount == held.value.amount)
    && (ClosedIn(t, w, r) ==> held' == held)
    && (held' != held ==>
          && IsAbout(c, r) && c.wallet == w && held'.Some?
          && held'.value.status
             == (if c.ReserveCredits? then OPEN else if c.CommitAiQuery? then COMMITTED else RELEASED))
  }

  lemma HoldsOnlyGrow(s: State, x: TxId, now: int, newId: string, w: Wallet, r: Rid)
    requires Inv(s) && x in s.txs
    ensures HoldGrows(s.db, Execute(s.db, s.txs[x].cmd, s.txs[x].seen, now, newId).0, s.txs[x].cmd, w, r)
  {
    var c, seen := s.txs[x].cmd, s.txs[x].seen;
    assert TxFits(s.db, s.sagas, s.txs[x]);
    var db' := Execute(s.db, c, seen, now, newId).0;
    ExecuteEffect(s.db, c, seen, now, newId);
    TxIsSound(s, x, r);
    if db' != s.db {
      WroteMovesHold(s.db, c, Decide(Fold(s.db.Stream(c.wallet)), OpOf(c)).event, db', w, r);
    }
  }

  ghost predicate HoldsGrow(t: Tables, t': Tables, c: Command) {
    forall w, r :: HoldGrows(t, t', c, w, r)
  }

  ghost predicate StreamsGrow(t: Tables, t': Tables) {
    forall w :: t.Stream(w) <= t'.Stream(w)
  }

  /** The answer fits what the transaction did to the hold it is about. */
  ghost predicate ReplyFits(sagas: map<Rid, Saga>, tx: Tx, db': Tables, reply: Reply) {
    && (reply.ReleaseReply? && tx.cmd.ReleaseCreditReservation? ==> ClosedIn(db', tx.cmd.wallet, tx.cmd.rid))
    && (tx.owner.Run? && tx.owner.rid in sagas && Dispatching(sagas[tx.owner.rid].phase) ==>
          PhaseFits(OnReply(sagas[tx.owner.rid].phase, reply), HeldIn(db', sagas[tx.owner.rid].wallet, tx.owner.rid)))
  }

  /** All that the rest of the proof needs to know about the outcome of a transaction. */
  ghost predicate Outcome(s: State, tx: Tx, db': Tables, reply: Reply) {
    HoldsGrow(s.db, db', tx.cmd) && StreamsGrow(s.db, db') && ReplyFits(s.sagas, tx, db', reply)
  }

  lemma FinishReplyFits(s: State, x: TxId, now: int, newId: string)
    requires Inv(s) && x in s.txs
    ensures var (db', reply) := Execute(s.db, s.txs[x].cmd, s.txs[x].seen, now, newId);
            ReplyFits(s.sagas, s.txs[x], db', reply)
  {
    var tx := s.txs[x];
    var (db', reply) := Execute(s.db, tx.cmd, tx.seen, now, newId);
    assert TxFits(s.db, s.sagas, tx);
    if reply.ReleaseReply? && tx.cmd.ReleaseCreditReservation? {
      ReleaseAnswerMeansClosed(s.db, tx.cmd, tx.seen, now, newId);
    }
    if tx.owner.Run? && tx.owner.rid in s.sagas && Dispatching(s.sagas[tx.owner.rid].phase) {
      HoldsOnlyGrow(s, x, now, newId, s.sagas[tx.owner.rid].wallet, tx.owner.rid);
      assert PhaseFits(s.sagas[tx.owner.rid].phase, HeldIn(s.db, s.sagas[tx.owner.rid].wallet, tx.owner.rid));
      OwnReply(s.db, s.sagas, tx, now, newId, tx.owner.rid);
    }
  }

  lemma FinishHasOutcome(s: State, x: TxId, now: int, newId: string)
    requires Inv(s) && x in s.txs
    ensures var (db', reply) := Execute(s.db, s.txs[x].cmd, s.txs[x].seen, now, newId);
            Outcome(s, s.txs[x], db', reply)
  {
    var tx := s.txs[x];
    var (db', reply) := Execute(s.db, tx.cmd, tx.seen, now, newId);
    forall w, r
      ensures HoldGrows(s.db, db', tx.cmd, w, r)
    {
      HoldsOnlyGrow(s, x, now, newId, w, r);
    }
    assert TxFits(s.db, s.sagas, tx);
    ExecuteEffect(s.db, tx.cmd, tx.seen, now, newId);
    FinishReplyFits(s, x, now, newId);
  }

  lemma OwnReply(t: Tables, sagas: map<Rid, Saga>, tx: Tx, now: int, newId: string, r: Rid)
    requires LedgerOk(t) && TxFits(t, sagas, tx) && tx.owner == Run(r)
    requires r in sagas && Dispatching(sagas[r].phase) && PhaseFits(sagas[r].phase, HeldIn(t, sagas[r].wallet, r))
    requires HoldGrows(t, Execute(t, tx.cmd, tx.seen, now, newId).0, tx.cmd, sagas[r].wallet, r)
    ensures var (t', reply) := Execute(t, tx.cmd, tx.seen, now, newId);
            PhaseFits(OnReply(sagas[r].phase, reply), HeldIn(t', sagas[r].wallet, r))
  {
    if tx.cmd.ReleaseCreditReservation? {
      if Execute(t, tx.cmd, tx.seen, now, newId).1.ReleaseReply? {
        ReleaseAnswerMeansClosed(t, tx.cmd, tx.seen, now, newId);
      }
    } else {
      AnswerMeansWritten(t, tx.cmd, tx.seen, now, newId);
    }
  }

  // ------------------------------------------------------------------ finishing: the tables

  lemma FinishKeepsTables(s: State, x: TxId, now: int, newId: string)
    requires Inv(s) && x in s.txs
    ensures var db' := Execute(s.db, s.txs[x].cmd, s.txs[x].seen, now, newId).0;
            LedgerOk(db') && HoldsOwned(db', s.sagas) && BooksOk(db', s.sagas) && NoStrays(db', s.sagas)
  {
    var c, seen := s.txs[x].cmd, s.txs[x].seen;
    assert TxFits(s.db, s.sagas, s.txs[x]);
    var db' := Execute(s.db, c, seen, now, newId).0;
    if db' != s.db {
      ExecuteEffect(s.db, c, seen, now, newId);
      var e := Decide(Fold(s.db.Stream(c.wallet)), OpOf(c)).event;
      TxIsSound(s, x, "");
      WroteKeepsLedgerOk(s.db, c, e, db');
      forall w, r | HeldIn(db', w, r).Some?
        ensures r in s.sagas && s.sagas[r].wallet == w
      {
        TxIsSound(s, x, r);
        HoldsOnlyGrow(s, x, now, newId, w, r);
      }
      forall r | r in s.sagas
        ensures BooksAgree(db', s.sagas[r].wallet, r, s.sagas[r].cost)
      {
        TxIsSound(s, x, r);
        WroteKeepsBooks(s.db, c, e, db', s.sagas[r].wallet, r, s.sagas[r].cost);
      }
      forall r | r !in s.sagas
        ensures r !in db'.aiQueries && MessagesAbout(db'.outbox, r) == []
      {
        TxIsSound(s, x, r);
        WroteMessages(s.db, c, e, db', r);
      }
    }
  }

  lemma FinishKeepsSerial(s: State, x: TxId, now: int, newId: string)
    requires LedgerOk(s.db) && s.db == Serial(s.log)
    requires x in s.txs && s.txs[x].seen <= s.db.Stream(s.txs[x].cmd.wallet)
    ensures var (db', log) := (Execute(s.db, s.txs[x].cmd, s.txs[x].seen, now, newId).0,
                               s.log + [Logged(s.txs[x].cmd, now, newId)]);
            db' != s.db ==> db' == Serial(log)
  {
    var tx := s.txs[x];
    WritesAreSerial(s.db, tx.cmd, tx.seen, now, newId);
    assert (s.log + [Logged(tx.cmd, now, newId)])[..|s.log|] == s.log;
  }

  // ----------------------------------------------------------- finishing: runs and workers

  /** A transaction cannot invalidate what the phase of another run, or of a crashed one,
      says about its hold. */
  lemma BystanderFits(t: Tables, sagas: map<Rid, Saga>, tx: Tx, t': Tables, r: Rid)
    requires LedgerOk(t) && TxFits(t, sagas, tx) && r in sagas
    requires PhaseFits(sagas[r].phase, HeldIn(t, sagas[r].wallet, r))
    requires HoldGrows(t, t', tx.cmd, sagas[r].wallet, r)
    requires tx.owner != Run(r) || sagas[r].phase.Crashed?
    ensures PhaseFits(sagas[r].phase, HeldIn(t', sagas[r].wallet, r))
  {
    if IsAbout(tx.cmd, r) && !tx.cmd.ReserveCredits? {
      SeenMeansHeld(t, tx, r);
    }
  }

  /** Only the owner of the transaction moves, and as its hold did. */
  lemma DeliveredPhase(t: Tables, sagas: map<Rid, Saga>, tx: Tx, t': Tables, reply: Reply, r: Rid)
    requires LedgerOk(t) && r in sagas && TxFits(t, sagas, tx)
    requires PhaseFits(sagas[r].phase, HeldIn(t, sagas[r].wallet, r))
    requires HoldGrows(t, t', tx.cmd, sagas[r].wallet, r) && ReplyFits(sagas, tx, t', reply)
    ensures var sagas' := DeliveredToRun(sagas, tx.owner, reply);
            && sagas'.Keys == sagas.Keys && sagas'[r] == sagas[r].(phase := sagas'[r].phase)
            && PhaseFits(sagas'[r].phase, HeldIn(t', sagas[r].wallet, r))
            && (tx.owner != Run(r) || sagas[r].phase.Crashed? ==> sagas'[r] == sagas[r])
  {
    if tx.owner != Run(r) || sagas[r].phase.Crashed? {
      BystanderFits(t, sagas, tx, t', r);
    }
  }

  lemma DeliveredPhases(s: State, tx: Tx, db': Tables, reply: Reply)
    requires LedgerOk(s.db) && PhasesOk(s.db, s.sagas) && TxFits(s.db, s.sagas, tx) && Outcome(s, tx, db', reply)
    ensures var sagas' := DeliveredToRun(s.sagas, tx.owner, reply);
            && PhasesOk(db', sagas') && sagas'.Keys == s.sagas.Keys
            && forall r <- s.sagas :: sagas'[r].wallet == s.sagas[r].wallet && sagas'[r].cost == s.sagas[r].cost
  {
    var sagas' := DeliveredToRun(s.sagas, tx.owner, reply);
    forall r | r in s.sagas
      ensures sagas'[r] == s.sagas[r].(phase := sagas'[r].phase)
      ensures PhaseFits(sagas'[r].phase, HeldIn(db', s.sagas[r].wallet, r))
    {
      assert HoldGrows(s.db, db', tx.cmd, s.sagas[r].wallet, r);
      DeliveredPhase(s.db, s.sagas, tx, db', reply, r);
    }
  }

  lemma DeliveredTx(s: State, x: TxId, db': Tables, reply: Reply, y: TxId)
    requires PhasesOk(s.db, s.sagas) && TxsOk(s.db, s.sagas, s.txs) && SoleTx(s.txs) && LedgerOk(s.db)
    requires x in s.txs && y in s.txs && y != x && Outcome(s, s.txs[x], db', reply)
    ensures TxFits(db', DeliveredToRun(s.sagas, s.txs[x].owner, reply), s.txs[y])
  {
    var tx := s.txs[y];
    assert TxFits(s.db, s.sagas, tx) && TxFits(s.db, s.sagas, s.txs[x]);
    assert s.db.Stream(tx.cmd.wallet) <= db'.Stream(tx.cmd.wallet);
    if !tx.owner.Api? {
      var r := tx.cmd.rid;
      assert HoldGrows(s.db, db', s.txs[x].cmd, tx.cmd.wallet, r);
      DeliveredPhase(s.db, s.sagas, s.txs[x], db', reply, r);
      if IsAbout(s.txs[x].cmd, r) && !s.txs[x].cmd.ReserveCredits? {
        SeenMeansHeld(s.db, s.txs[x], r);
      }
    }
  }

  lemma DeliveredTxs(s: State, x: TxId, db': Tables, reply: Reply)
    requires PhasesOk(s.db, s.sagas) && TxsOk(s.db, s.sagas, s.txs) && SoleTx(s.txs) && LedgerOk(s.db)
    requires x in s.txs && Outcome(s, s.txs[x], db', reply)
    ensures TxsOk(db', DeliveredToRun(s.sagas, s.txs[x].owner, reply), s.txs - {x}) && SoleTx(s.txs - {x})
  {
    forall y | y in s.txs - {x}
      ensures TxFits(db', DeliveredToRun(s.sagas, s.txs[x].owner, reply), (s.txs - {x})[y])
    {
      DeliveredTx(s, x, db', reply, y);
    }
  }

  /** QueueOk looks at the tables only for holds that exist or are closed. */
  lemma QueueOkGrows(t: Tables, t': Tables, sagas: map<Rid, Saga>, sagas': map<Rid, Saga>, queue: Q.State,
                     payload: map<Q.RowId, Command>)
    requires QueueOk(t, sagas, queue, payload)
    requires forall r <- sagas :: r in sagas' && sagas'[r].wallet == sagas[r].wallet
    requires forall w, r :: HeldIn(t, w, r).Some? ==> HeldIn(t', w, r).Some?
    requires forall w, r :: ClosedIn(t, w, r) ==> ClosedIn(t', w, r)
    ensures QueueOk(t', sagas', queue, payload)
  {
  }

  lemma SucceedKeepsQueueOk(t: Tables, sagas: map<Rid, Saga>, queue: Q.State, payload: map<Q.RowId, Command>,
                            j: Q.JobId)
    requires QueueOk(t, sagas, queue, payload) && j in queue.jobs && queue.jobs[j].stage.Ready?
    requires queue.jobs[j].row in payload ==>
               ClosedIn(t, payload[queue.jobs[j].row].wallet, payload[queue.jobs[j].row].rid)
    ensures QueueOk(t, sagas, Q.Do(queue, Q.RunSucceeds(j), 1), payload)
  {
  }

  lemma DeliveredQueue(s: State, tx: Tx, db': Tables, reply: Reply)
    requires QueueOk(s.db, s.sagas, s.queue, s.payload) && HoldsGrow(s.db, db', tx.cmd)
             && ReplyFits(s.sagas, tx, db', reply)
    ensures QueueOk(db', s.sagas, DeliveredToWorker(s, tx, reply), s.payload)
  {
    forall w, r
      ensures HeldIn(s.db, w, r).Some? ==> HeldIn(db', w, r).Some?
      ensures ClosedIn(s.db, w, r) ==> ClosedIn(db', w, r)
    {
      assert HoldGrows(s.db, db', tx.cmd, w, r);
    }
    QueueOkGrows(s.db, db', s.sagas, s.sagas, s.queue, s.payload);
    if DeliveredToWorker(s, tx, reply) != s.queue {
      WorkedOnRelease(s, tx.owner.job, tx.cmd);
      SucceedKeepsQueueOk(db', s.sagas, s.queue, s.payload, tx.owner.job);
    }
  }

  lemma WorkedOnRelease(s: State, j: Q.JobId, c: Command)
    requires QueueOk(s.db, s.sagas, s.queue, s.payload) && WorksOn(s, j, c)
    ensures c.ReleaseCreditReservation?
  {
  }

  /** The parts of the invariant that look at runs only for their wallet and cost. */
  lemma SameOwners(t: Tables, sagas: map<Rid, Saga>, sagas': map<Rid, Saga>)
    requires HoldsOwned(t, sagas) && BooksOk(t, sagas) && NoStrays(t, sagas)
    requires sagas'.Keys == sagas.Keys
    requires forall r <- sagas :: sagas'[r].wallet == sagas[r].wallet && sagas'[r].cost == sagas[r].cost
    ensures HoldsOwned(t, sagas') && BooksOk(t, sagas') && NoStrays(t, sagas')
  {
  }

  lemma FinishKeepsInv(s: State, x: TxId, now: int, newId: string)
    requires Inv(s) && x in s.txs
    ensures Inv(Finished(s, x, now, newId))
  {
    var tx := s.txs[x];
    assert TxFits(s.db, s.sagas, tx);
    var (db', reply) := Execute(s.db, tx.cmd, tx.seen, now, newId);
    var log := if db' == s.db then s.log else s.log + [Logged(tx.cmd, now, newId)];
    FinishKeepsTables(s, x, now, newId);
    FinishKeepsSerial(s, x, now, newId);
    FinishHasOutcome(s, x, now, newId);
    DeliveredKeepsInv(s, x, db', reply, log);
  }

  lemma DeliveredKeepsInv(s: State, x: TxId, db': Tables, reply: Reply, log: seq<Logged>)
    requires Inv(s) && x in s.txs && Outcome(s, s.txs[x], db', reply)
    requires LedgerOk(db') && HoldsOwned(db', s.sagas) && BooksOk(db', s.sagas) && NoStrays(db', s.sagas)
    requires db' == Serial(log)
    ensures Inv(State(db', DeliveredToRun(s.sagas, s.txs[x].owner, reply), s.txs - {x},
                      DeliveredToWorker(s, s.txs[x], reply),
                      s.payload, log))
  {
    var tx := s.txs[x];
    assert TxFits(s.db, s.sagas, tx);
    DeliveredPhases(s, tx, db', reply);
    DeliveredTxs(s, x, db', reply);
    DeliveredQueue(s, tx, db', reply);
    var sagas' := DeliveredToRun(s.sagas, tx.owner, reply);
    SameOwners(db', s.sagas, sagas');
    QueueOkGrows(db', db', s.sagas, sagas', DeliveredToWorker(s, tx, reply), s.payload);
  }

  // ------------------------------------------------------------------- the other actions

  lemma AskKeepsTables(t: Tables, sagas: map<Rid, Saga>, r: Rid, saga: Saga)
    requires r !in sagas && saga.phase.Reserving?
    requires HoldsOwned(t, sagas) && BooksOk(t, sagas) && NoStrays(t, sagas) && PhasesOk(t, sagas)
    ensures var sagas' := sagas[r := saga];
            HoldsOwned(t, sagas') && BooksOk(t, sagas') && NoStrays(t, sagas') && PhasesOk(t, sagas')
  {
    assert HeldIn(t, saga.wallet, r).None?;
    assert BooksAgree(t, saga.wallet, r, saga.cost);
  }

  lemma AskKeepsTxs(t: Tables, sagas: map<Rid, Saga>, txs: map<TxId, Tx>, r: Rid, saga: Saga)
    requires r !in sagas && TxsOk(t, sagas, txs)
    ensures TxsOk(t, sagas[r := saga], txs)
  {
    forall x | x in txs
      ensures TxFits(t, sagas[r := saga], txs[x])
    {
      assert TxFits(t, sagas, txs[x]);
    }
  }

  lemma AskKeepsInv(s: State, r: Rid, w: Wallet, question: string, cost: int)
    requires Inv(s) && r !in s.sagas
    ensures Inv(s.(sagas := s.sagas[r := Saga(w, question, cost, Reserving)]))
  {
    var saga := Saga(w, question, cost, Reserving);
    AskKeepsTables(s.db, s.sagas, r, saga);
    AskKeepsTxs(s.db, s.sagas, s.txs, r, saga);
    QueueOkGrows(s.db, s.db, s.sagas, s.sagas[r := saga], s.queue, s.payload);
  }

  lemma BeginKeepsInv(s: State, x: TxId, owner: Owner, cmd: Command)
    requires Inv(s) && x !in s.txs && CanBegin(s, owner, cmd)
    ensures Inv(s.(txs := s.txs[x := Tx(cmd, owner, s.db.Stream(cmd.wallet))]))
  {
    var tx := Tx(cmd, owner, s.db.Stream(cmd.wallet));
    if owner.Sweeper? {
      ReservedMeansHeld(s.db, cmd.wallet, cmd.rid);
    }
    if owner.Run? {
      assert PhaseFits(s.sagas[owner.rid].phase, HeldIn(s.db, s.sagas[owner.rid].wallet, owner.rid));
    }
    assert TxFits(s.db, s.sagas, tx);
    var s' := s.(txs := s.txs[x := tx]);
    forall y | y in s'.txs
      ensures TxFits(s'.db, s'.sagas, s'.txs[y])
    {
      assert y != x ==> TxFits(s.db, s.sagas, s.txs[y]);
    }
  }

  lemma MoveKeepsInv(s: State, r: Rid, p: Phase)
    requires Inv(s) && r in s.sagas && PhaseFits(p, HeldIn(s.db, s.sagas[r].wallet, r))
    requires p.Crashed? || NoTxOf(s, r)
    ensures Inv(Moved(s, r, p))
  {
    var s' := Moved(s, r, p);
    forall x | x in s'.txs
      ensures TxFits(s'.db, s'.sagas, s'.txs[x])
    {
      assert TxFits(s.db, s.sagas, s.txs[x]);
    }
    SameOwners(s.db, s.sagas, s'.sagas);
    QueueOkGrows(s.db, s.db, s.sagas, s'.sagas, s.queue, s.payload);
  }

  lemma IdleHasNoTx(s: State, r: Rid)
    requires TxsOk(s.db, s.sagas, s.txs) && r in s.sagas && (s.sagas[r].phase.Asking? || s.sagas[r].phase.Recording?)
    ensures NoTxOf(s, r)
  {
    forall x | x in s.txs
      ensures s.txs[x].owner != Run(r)
    {
      assert TxFits(s.db, s.sagas, s.txs[x]);
    }
  }

  lemma QueueStepKeepsQueueOk(t: Tables, sagas: map<Rid, Saga>, queue: Q.State, payload: map<Q.RowId, Command>,
                              q: Q.Action, maxAttempts: int)
    requires QueueOk(t, sagas, queue, payload) && Q.Enabled(queue, q)
    requires q.RunSucceeds? ==> queue.jobs[q.job].row !in payload
    ensures QueueOk(t, sagas, Q.Do(queue, q, maxAttempts), payload)
  {
    if q.Claim? {
      ClaimKeepsQueueOk(t, sagas, queue, payload, q.batch, q.now, maxAttempts);
    }
  }

  lemma ClaimKeepsQueueOk(t: Tables, sagas: map<Rid, Saga>, queue: Q.State, payload: map<Q.RowId, Command>,
                          batch: map<Q.JobId, Q.RowId>, now: int, maxAttempts: int)
    requires QueueOk(t, sagas, queue, payload) && Q.Enabled(queue, Q.Claim(batch, now))
    ensures QueueOk(t, sagas, Q.Do(queue, Q.Claim(batch, now), maxAttempts), payload)
  {
    forall j | j in batch
      ensures batch[j] in queue.rows
    {
    }
  }

  lemma RecordKeepsQueueOk(t: Tables, sagas: map<Rid, Saga>, queue: Q.State, payload: map<Q.RowId, Command>,
                           row: Q.RowId, c: Command, now: int, maxAttempts: int)
    requires QueueOk(t, sagas, queue, payload) && Q.Enabled(queue, Q.Enqueue(row, now, None))
    requires PayloadFits(t, sagas, c)
    ensures QueueOk(t, sagas, Q.Do(queue, Q.Enqueue(row, now, None), maxAttempts), payload[row := c])
  {
  }

  lemma RecordKeepsInv(s: State, r: Rid, row: Q.RowId, now: int, maxAttempts: int)
    requires Inv(s) && Enabled(s, RecordCompensation(r, row, now))
    ensures Inv(Do(s, RecordCompensation(r, row, now), maxAttempts))
  {
    IdleHasNoTx(s, r);
    assert PhaseFits(s.sagas[r].phase, HeldIn(s.db, s.sagas[r].wallet, r));
    MoveKeepsInv(s, r, Threw);
    var s1 := Moved(s, r, Threw);
    var c := ReleaseCreditReservation(s.sagas[r].wallet, r, s.sagas[r].question, "AI_UNAVAILABLE");
    RecordKeepsQueueOk(s1.db, s1.sagas, s1.queue, s1.payload, row, c, now, maxAttempts);
  }

  lemma RollBackKeepsInv(s: State, x: TxId)
    requires Inv(s) && x in s.txs
    ensures Inv(s.(txs := s.txs - {x}))
  {
  }

  /** A run whose phase changes without a transaction. */
  lemma RunStepKeepsInv(s: State, a: Action, maxAttempts: int)
    requires Inv(s) && Enabled(s, a)
    requires a.DispatchRejects? || a.RagReplies? || a.RecordingFails?
    ensures Inv(Do(s, a, maxAttempts))
  {
    assert PhaseFits(s.sagas[a.rid].phase, HeldIn(s.db, s.sagas[a.rid].wallet, a.rid));
    if !a.DispatchRejects? {
      IdleHasNoTx(s, a.rid);
    }
    MoveKeepsInv(s, a.rid, if a.DispatchRejects? then OnReject(s.sagas[a.rid].phase)
                           else if a.RagReplies? then OnRag(a.outcome) else Threw);
  }

  lemma TxStepKeepsInv(s: State, a: Action, maxAttempts: int)
    requires Inv(s) && Enabled(s, a) && (a.Begin? || a.Finish? || a.RollBack?)
    ensures Inv(Do(s, a, maxAttempts))
  {
    if a.Begin? {
      BeginKeepsInv(s, a.tx, a.owner, a.cmd);
    } else if a.Finish? {
      FinishKeepsInv(s, a.tx, a.now, a.newId);
    } else {
      RollBackKeepsInv(s, a.tx);
    }
  }

  lemma QueueStepKeepsInv(s: State, q: Q.Action, maxAttempts: int)
    requires Inv(s) && Enabled(s, Queue(q))
    ensures Inv(Do(s, Queue(q), maxAttempts))
  {
    QueueStepKeepsQueueOk(s.db, s.sagas, s.queue, s.payload, q, maxAttempts);
  }

  lemma StepKeepsInv(s: State, a: Action, maxAttempts: int)
    requires Inv(s) && Enabled(s, a)
    ensures Inv(Do(s, a, maxAttempts))
  {
    if a.Begin? || a.Finish? || a.RollBack? {
      TxStepKeepsInv(s, a, maxAttempts);
    } else if a.Queue? {
      QueueStepKeepsInv(s, a.step, maxAttempts);
    } else if a.Ask? {
      AskKeepsInv(s, a.rid, a.wallet, a.question, a.cost);
    } else if a.RecordCompensation? {
      RecordKeepsInv(s, a.rid, a.row, a.now, maxAttempts);
    } else if a.Crash? {
      MoveKeepsInv(s, a.rid, Crashed);
    } else {
      RunStepKeepsInv(s, a, maxAttempts);
    }
  }

  lemma {:induction false} AlwaysInv(acts: seq<Action>, maxAttempts: int)
    requires Exec(acts, maxAttempts).Some?
    ensures Inv(Exec(acts, maxAttempts).value)
  {
    if acts == [] {
      assert forall w :: Init.db.Stream(w) == [];
    } else {
      AlwaysInv(acts[..|acts| - 1], maxAttempts);
      StepKeepsInv(Exec(acts[..|acts| - 1], maxAttempts).value, acts[|acts| - 1], maxAttempts);
    }
  }
}
