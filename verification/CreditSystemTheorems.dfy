/** What holds in every state any interleaving of CreditSystem can reach. */
module CreditSystemTheorems {
  import opened Foundations
  import opened CreditLedger
  import opened CreditTables
  import opened CreditBooks
  import opened CreditSystem
  import opened CreditSystemInvariant
  import Q = ClaimQueue
  import R = ReservationSweeper

  // -------------------------------------------------------------------- one story

  /** Ledger, row and outbox about one run, down to the single events and messages. */
  ghost predicate OneStory(t: Tables, w: Wallet, r: Rid, cost: int) {
    var es, ms := About(t.Stream(w), r), MessagesAbout(t.outbox, r);
    && (forall v :: v != w ==> About(t.Stream(v), r) == [])
    && match Fold(t.Stream(w)).StatusOf(r) {
      case None =>
        es == [] && ms == [] && r !in t.aiQueries
      case Some(OPEN) =>
        && |es| == 1 && Is(es[0], CreditReserved, r, cost)
        && ms == [] && r !in t.aiQueries
      case Some(COMMITTED) =>
        && |es| == 2 && Is(es[0], CreditReserved, r, cost) && Is(es[1], CreditReservationCommitted, r, cost)
        && r in t.aiQueries && t.aiQueries[r].wallet == w
        && t.aiQueries[r].status == ANSWERED && t.aiQueries[r].creditCost == cost
        && |ms| == 1 && ms[0].Spent? && ms[0].wallet == w && ms[0].amount == cost
           && ms[0].aiQueryId == t.aiQueries[r].id
      case Some(RELEASED) =>
        && |es| == 2 && Is(es[0], CreditReserved, r, cost) && Is(es[1], CreditReservationReleased, r, cost)
        && r in t.aiQueries && t.aiQueries[r].wallet == w
        && t.aiQueries[r].status == FAILED && t.aiQueries[r].creditCost == 0
        && |ms| == 1 && ms[0].Released? && ms[0].wallet == w && ms[0].amount == cost
           && ms[0].aiQueryId == t.aiQueries[r].id
    }
  }

  /** In every reachable state the tables tell one story about every run. */
  lemma TablesAgree(acts: seq<Action>, maxAttempts: int, r: Rid)
    requires Exec(acts, maxAttempts).Some? && r in Exec(acts, maxAttempts).value.sagas
    ensures var s := Exec(acts, maxAttempts).value;
            OneStory(s.db, s.sagas[r].wallet, r, s.sagas[r].cost)
  {
    AlwaysInv(acts, maxAttempts);
    var s := Exec(acts, maxAttempts).value;
    forall w | s.sagas[r].wallet != w
      ensures About(s.db.Stream(w), r) == []
    {
      LegalLifecycle(s.db.Stream(w), r);
      assert HeldIn(s.db, w, r).None?;
    }
    LegalLifecycle(s.db.Stream(s.sagas[r].wallet), r);
    assert BooksAgree(s.db, s.sagas[r].wallet, r, s.sagas[r].cost);
  }

  /** And no table knows an id that no run made. */
  lemma NoStrayIds(acts: seq<Action>, maxAttempts: int, s: State, r: Rid, w: Wallet)
    requires Exec(acts, maxAttempts) == Some(s) && r !in s.sagas
    ensures r !in s.db.aiQueries && MessagesAbout(s.db.outbox, r) == [] && About(s.db.Stream(w), r) == []
  {
    AlwaysInv(acts, maxAttempts);
    LegalLifecycle(s.db.Stream(w), r);
    assert HeldIn(s.db, w, r).None?;
  }

  // -------------------------------------------------------------- optimistic concurrency

  /** Any interleaving of transactions leaves exactly the tables that running the committed
      ones one after the other would. */
  lemma InterleavingsAreSerial(acts: seq<Action>, maxAttempts: int, s: State)
    requires Exec(acts, maxAttempts) == Some(s)
    ensures s.db == Serial(s.log)
  {
    AlwaysInv(acts, maxAttempts);
  }

  /** In every wallet, versions are 1 to n, every event is legal on the fold of its own
      prefix, and `0 <= reserved <= balance` at every prefix. */
  lemma {:induction false} EveryPrefixIsSound(acts: seq<Action>, maxAttempts: int, s: State, w: Wallet)
    requires Exec(acts, maxAttempts) == Some(s)
    ensures var stream := s.db.Stream(w);
            && LegalStream(stream)
            && (forall i :: 0 <= i < |stream| ==> stream[i].version == i + 1)
            && (forall n :: 0 <= n <= |stream| ==>
                  var a := Fold(stream[..n]); 0 <= a.Reserved() <= a.balance && a.Available() >= 0)
  {
    AlwaysInv(acts, maxAttempts);
    LegalStreamIsSound(s.db.Stream(w));
  }

  lemma LegalStreamIsSound(stream: seq<Event>)
    requires LegalStream(stream)
    ensures forall i :: 0 <= i < |stream| ==> stream[i].version == i + 1
    ensures forall n :: 0 <= n <= |stream| ==>
                          var a := Fold(stream[..n]); 0 <= a.Reserved() <= a.balance && a.Available() >= 0
  {
    forall n | 0 <= n <= |stream|
      ensures Solvent(Fold(stream[..n])) && Fold(stream[..n]).Available() >= 0
    {
      LegalStreamSolvent(stream, n);
    }
    LegalStreamSolvent(stream, |stream|);
  }

  /** What an open transaction has read lags behind or is current, never anything else, and
      if it goes on to write it is turned away exactly when it lags behind. */
  lemma StaleWritersAreRefused(acts: seq<Action>, maxAttempts: int, s: State, x: TxId, now: int, newId: string)
    requires Exec(acts, maxAttempts) == Some(s) && x in s.txs
    ensures var (c, seen) := (s.txs[x].cmd, s.txs[x].seen);
            && seen <= s.db.Stream(c.wallet)
            && (Execute(s.db, c, seen, now, newId).1.ConcurrencyConflict? <==>
                  !(c.GrantCredits? && !c.recipientIsMember) && Decide(Fold(seen), OpOf(c)).Raised?
                  && seen != s.db.Stream(c.wallet))
  {
    AlwaysInv(acts, maxAttempts);
    assert TxFits(s.db, s.sagas, s.txs[x]);
    ConflictIffStale(s.db, s.txs[x].cmd, s.txs[x].seen, now, newId);
  }

  // --------------------------------------------------------------------- saga accounting

  predicate Settled(s: State, r: Rid) {
    r in s.sagas && (s.sagas[r].phase.Returned? || s.sagas[r].phase.Threw?)
  }

  lemma {:induction false} SettledForGood(acts: seq<Action>, more: seq<Action>, maxAttempts: int, r: Rid)
    requires Exec(acts, maxAttempts).Some? && Exec(acts + more, maxAttempts).Some?
    requires Settled(Exec(acts, maxAttempts).value, r)
    ensures Settled(Exec(acts + more, maxAttempts).value, r)
    ensures Exec(acts + more, maxAttempts).value.sagas[r] == Exec(acts, maxAttempts).value.sagas[r]
    decreases |more|
  {
    if more == [] {
      assert acts + more == acts;
    } else {
      var before := more[..|more| - 1];
      assert (acts + more)[..|acts + more| - 1] == acts + before;
      SettledForGood(acts, before, maxAttempts, r);
      StepKeepsSettled(Exec(acts + before, maxAttempts).value, (acts + more)[|acts + more| - 1], maxAttempts, r);
    }
  }

  lemma StepKeepsSettled(s: State, a: Action, maxAttempts: int, r: Rid)
    requires Settled(s, r) && Enabled(s, a)
    ensures Settled(Do(s, a, maxAttempts), r) && Do(s, a, maxAttempts).sagas[r] == s.sagas[r]
  {
    if a.Finish? {
      var tx := s.txs[a.tx];
      var reply := Execute(s.db, tx.cmd, tx.seen, a.now, a.newId).1;
      assert Do(s, a, maxAttempts).sagas == DeliveredToRun(s.sagas, tx.owner, reply);
    }
  }

  /** Accounting: what a run that returned reports as its cost is the whole drop in balance
      its reservation ever causes, at that moment and after anything that happens later. A
      run that threw never causes any, even if the sweeper released its hold first or the
      release is still to come. */
  lemma ReportedCostIsTheWholeCharge(acts: seq<Action>, more: seq<Action>, maxAttempts: int, r: Rid)
    requires Exec(acts, maxAttempts).Some? && Exec(acts + more, maxAttempts).Some?
    requires Settled(Exec(acts, maxAttempts).value, r)
    ensures var (run, later) := (Exec(acts, maxAttempts).value.sagas[r], Exec(acts + more, maxAttempts).value);
            && BalanceDrop(later.db.Stream(run.wallet), r) == (if run.phase.Returned? then ReportedCost(run) else 0)
            && forall v :: v != run.wallet ==> BalanceDrop(later.db.Stream(v), r) == 0
  {
    SettledForGood(acts, more, maxAttempts, r);
    AlwaysInv(acts + more, maxAttempts);
    var s := Exec(acts + more, maxAttempts).value;
    var run := s.sagas[r];
    assert PhaseFits(run.phase, HeldIn(s.db, run.wallet, r)) && BooksAgree(s.db, run.wallet, r, run.cost);
    forall v
      ensures BalanceDrop(s.db.Stream(v), r)
              == (if HeldIn(s.db, v, r).Some? && HeldIn(s.db, v, r).value.status == COMMITTED
                                                 then HeldIn(s.db, v, r).value.amount else 0)
      ensures v != run.wallet ==> HeldIn(s.db, v, r).None?
    {
      DropIsTheCharge(s.db.Stream(v), r);
    }
  }

  // ------------------------------------------------------------------ no hold is stuck

  /** What releasing an OPEN hold does to the tables. */
  ghost predicate Freed(t: Tables, t': Tables, w: Wallet, r: Rid) {
    && HeldIn(t, w, r).Some? && HeldIn(t', w, r) == Some(Hold(HeldIn(t, w, r).value.amount, RELEASED))
    && (forall v :: Fold(t'.Stream(v)).balance == Fold(t.Stream(v)).balance)
    && Fold(t'.Stream(w)).Available() == Fold(t.Stream(w)).Available() + HeldIn(t, w, r).value.amount
    && forall v :: v != w ==> t'.Stream(v) == t.Stream(v)
  }

  lemma ReleaseFrees(t: Tables, w: Wallet, r: Rid, now: int, newId: string)
    requires LedgerOk(t) && Fold(t.Stream(w)).StatusOf(r) == Some(OPEN)
    ensures Freed(t, Execute(t, ReleaseCreditReservation(w, r, "", "EXPIRED"), t.Stream(w), now, newId).0, w, r)
  {
    var h, a := R.StaleRow(w, r), Fold(t.Stream(w));
    var e := Event(CreditReservationReleased, a.version + 1, a.reservations[r].amount, "EXPIRED", Some(r));
    R.OpenReleaseWrites(t, h, now, newId);
    var t' := Execute(t, R.ReleaseOf(h), t.Stream(w), now, newId).0;
    assert t'.Stream(w) == t.Stream(w) + [e];
    FoldSnoc(t.Stream(w), e);
    R.ReleasedAccount(a, r, e);
  }

  lemma ExecSnoc(acts: seq<Action>, maxAttempts: int, s: State, a: Action)
    requires Exec(acts, maxAttempts) == Some(s) && Enabled(s, a)
    ensures Exec(acts + [a], maxAttempts) == Some(Do(s, a, maxAttempts))
  {
    assert (acts + [a])[..|acts|] == acts;
  }

  lemma OpenHasReservedRow(t: Tables, w: Wallet, r: Rid)
    requires LedgerOk(t) && r in Fold(t.Stream(w)).reservations
    ensures HasReservedRow(t, w, r)
  {
    R.RowsTellTheFold(t.Stream(w), r);
  }

  /** From every reachable state in which a hold is OPEN, whatever became of its run, the
      sweeper can begin and finish one transaction, and that closes it: nothing is charged, no
      balance moves, and the wallet has the held credit available again. */
  lemma NoHoldIsStuck(acts: seq<Action>, maxAttempts: int, s: State, w: Wallet, r: Rid, x: TxId, now: int,
                      newId: string)
    returns (acts': seq<Action>, s': State)
    requires Exec(acts, maxAttempts) == Some(s) && Fold(s.db.Stream(w)).StatusOf(r) == Some(OPEN) && x !in s.txs
    ensures acts' == acts + [Begin(x, Sweeper, ReleaseCreditReservation(w, r, "", "EXPIRED"))] + [Finish(x, now, newId)]
    ensures Exec(acts', maxAttempts) == Some(s') && Freed(s.db, s'.db, w, r)
  {
    AlwaysInv(acts, maxAttempts);
    OpenHasReservedRow(s.db, w, r);
    var begin := Begin(x, Sweeper, ReleaseCreditReservation(w, r, "", "EXPIRED"));
    ExecSnoc(acts, maxAttempts, s, begin);
    var s1 := Do(s, begin, maxAttempts);
    ExecSnoc(acts + [begin], maxAttempts, s1, Finish(x, now, newId));
    acts', s' := acts + [begin] + [Finish(x, now, newId)], Do(s1, Finish(x, now, newId), maxAttempts);
    ReleaseFrees(s.db, w, r, now, newId);
  }

  // ----------------------------------------------------- at-least-once, effect exactly once

  /** For any schedule of claims, reaps, stale and duplicate workers, a release row that is
      DONE has its reservation closed, and running it again any number of times would change
      no table. */
  lemma DoneMeansClosed(acts: seq<Action>, maxAttempts: int, row: Q.RowId, times: nat, now: int, newId: string)
    requires Exec(acts, maxAttempts).Some?
    requires row in Exec(acts, maxAttempts).value.payload && row in Exec(acts, maxAttempts).value.queue.rows
    requires Exec(acts, maxAttempts).value.queue.rows[row].status == Q.DONE
    ensures var s := Exec(acts, maxAttempts).value;
            var c := s.payload[row];
            c.ReleaseCreditReservation? && ClosedIn(s.db, c.wallet, c.rid) && Rerun(s.db, c, times, now, newId) == s.db
  {
    AlwaysInv(acts, maxAttempts);
    var s := Exec(acts, maxAttempts).value;
    var c := s.payload[row];
    assert PayloadFits(s.db, s.sagas, c);
    if times > 0 {
      RerunReleaseIsIdempotent(s.db, c, times, now, newId);
    }
  }
}
