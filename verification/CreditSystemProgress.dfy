/** What the system can always do: from every reachable state a new run that the wallet can
    pay for goes through, and ends as the answer of the AI service says. */
module CreditSystemProgress {
  import opened Foundations
  import opened CreditLedger
  import opened CreditTables
  import opened CreditBooks
  import opened CreditSystem
  import opened CreditSystemInvariant
  import T = CreditSystemTheorems
  import C = CreditCommands
  import Q = ClaimQueue

  /** More has happened, and nobody has crashed. */
  ghost predicate GoesOn(acts: seq<Action>, acts': seq<Action>) {
    acts <= acts' && forall i :: |acts| <= i < |acts'| ==> !acts'[i].Crash?
  }

  lemma GoesOnAndOn(acts: seq<Action>, acts': seq<Action>, acts'': seq<Action>)
    requires GoesOn(acts, acts') && GoesOn(acts', acts'')
    ensures GoesOn(acts, acts'')
  {
  }

  lemma PutTwice(sagas: map<Rid, Saga>, r: Rid, first: Saga, second: Saga)
    ensures sagas[r := first][r := second] == sagas[r := second]
  {
  }

  /** A run begins its next dispatch and finishes it before anything else happens. */
  lemma Dispatches(acts: seq<Action>, maxAttempts: int, s: State, r: Rid, x: TxId, now: int, newId: string)
    returns (acts': seq<Action>, s': State)
    requires Exec(acts, maxAttempts) == Some(s) && x !in s.txs
    requires r in s.sagas && Dispatching(s.sagas[r].phase) && NoTxOf(s, r)
    ensures GoesOn(acts, acts') && Exec(acts', maxAttempts) == Some(s')
    ensures var c := Dispatched(r, s.sagas[r]);
            var (db, reply) := Execute(s.db, c, s.db.Stream(c.wallet), now, newId);
            && s'.db == db && s'.txs == s.txs
            && s'.sagas == s.sagas[r := s.sagas[r].(phase := OnReply(s.sagas[r].phase, reply))]
  {
    var begin, finish := Begin(x, Run(r), Dispatched(r, s.sagas[r])), Finish(x, now, newId);
    T.ExecSnoc(acts, maxAttempts, s, begin);
    var s1 := Do(s, begin, maxAttempts);
    T.ExecSnoc(acts + [begin], maxAttempts, s1, finish);
    acts', s' := acts + [begin, finish], Do(s1, finish, maxAttempts);
    assert acts' == acts + [begin] + [finish];
    assert s1.txs - {x} == s.txs;
  }

  lemma ReachableLedgerOk(acts: seq<Action>, maxAttempts: int, s: State)
    requires Exec(acts, maxAttempts) == Some(s)
    ensures LedgerOk(s.db)
  {
    AlwaysInv(acts, maxAttempts);
  }

  /** A new id is one no table, hold or open transaction knows. */
  lemma NewIdIsFresh(acts: seq<Action>, maxAttempts: int, s: State, r: Rid, w: Wallet)
    requires Exec(acts, maxAttempts) == Some(s) && r !in s.sagas
    ensures LedgerOk(s.db) && r !in s.db.aiQueries && NoTxOf(s, r) && r !in Fold(s.db.Stream(w)).reservations
  {
    AlwaysInv(acts, maxAttempts);
    assert forall y <- s.txs :: TxFits(s.db, s.sagas, s.txs[y]);
    assert HeldIn(s.db, w, r).None?;
  }

  /** A run asks. */
  lemma Asks(acts: seq<Action>, maxAttempts: int, s: State, r: Rid, w: Wallet, question: string, cost: int)
    returns (acts': seq<Action>, s': State)
    requires Exec(acts, maxAttempts) == Some(s) && r !in s.sagas
    ensures GoesOn(acts, acts') && Exec(acts', maxAttempts) == Some(s')
    ensures s' == s.(sagas := s.sagas[r := Saga(w, question, cost, Reserving)])
  {
    acts', s' := acts + [Ask(r, w, question, cost)], Do(s, Ask(r, w, question, cost), maxAttempts);
    T.ExecSnoc(acts, maxAttempts, s, Ask(r, w, question, cost));
  }

  /** Under an id that nothing knows. */
  lemma AsksAfresh(acts: seq<Action>, maxAttempts: int, s: State, r: Rid, w: Wallet, question: string, cost: int)
    returns (acts': seq<Action>, s': State)
    requires Exec(acts, maxAttempts) == Some(s) && r !in s.sagas
    ensures GoesOn(acts, acts') && Exec(acts', maxAttempts) == Some(s')
    ensures s'.sagas == s.sagas[r := Saga(w, question, cost, Reserving)] && s'.db == s.db && s'.txs == s.txs
    ensures NoTxOf(s', r) && r !in s.db.aiQueries && r !in Fold(s.db.Stream(w)).reservations
  {
    NewIdIsFresh(acts, maxAttempts, s, r, w);
    acts', s' := Asks(acts, maxAttempts, s, r, w, question, cost);
  }

  lemma ReserveIsHeld(t: Tables, r: Rid, w: Wallet, cost: int, now: int, newId: string)
    requires LedgerOk(t) && 0 < cost <= Fold(t.Stream(w)).Available()
    ensures var (t', reply) := Execute(t, ReserveCredits(w, r, cost as real, "AI query"), t.Stream(w), now, newId);
            C.HoldsNow(t, t', w, r, cost, "AI query", now) && reply.Held?
  {
    C.ReserveHolds(t, w, r, cost as real, "AI query", t.Stream(w), now, newId);
  }

  /** And its reserve holds the cost. */
  lemma Reserves(acts: seq<Action>, maxAttempts: int, s: State, r: Rid, w: Wallet, question: string, cost: int, x: TxId,
                 now: int, newId: string)
    returns (acts': seq<Action>, s': State)
    requires Exec(acts, maxAttempts) == Some(s) && r in s.sagas && x !in s.txs && NoTxOf(s, r)
    requires s.sagas[r] == Saga(w, question, cost, Reserving)
    requires 0 < cost <= Fold(s.db.Stream(w)).Available()
    ensures GoesOn(acts, acts') && Exec(acts', maxAttempts) == Some(s')
    ensures s'.sagas == s.sagas[r := Saga(w, question, cost, Asking)] && s'.txs == s.txs && LedgerOk(s'.db)
    ensures C.HoldsNow(s.db, s'.db, w, r, cost, "AI query", now)
  {
    ReachableLedgerOk(acts, maxAttempts, s);
    acts', s' := Dispatches(acts, maxAttempts, s, r, x, now, newId);
    ReserveIsHeld(s.db, r, w, cost, now, newId);
    ReachableLedgerOk(acts', maxAttempts, s');
  }

  /** The AI service replies. */
  lemma Hears(acts: seq<Action>, maxAttempts: int, s: State, r: Rid, outcome: RagOutcome)
    returns (acts': seq<Action>, s': State)
    requires Exec(acts, maxAttempts) == Some(s) && r in s.sagas && s.sagas[r].phase.Asking?
    ensures GoesOn(acts, acts') && Exec(acts', maxAttempts) == Some(s')
    ensures s' == s.(sagas := s.sagas[r := s.sagas[r].(phase := OnRag(outcome))])
  {
    acts', s' := acts + [RagReplies(r, outcome)], Do(s, RagReplies(r, outcome), maxAttempts);
    T.ExecSnoc(acts, maxAttempts, s, RagReplies(r, outcome));
  }

  /** What a wallet has in figures. */
  ghost predicate Has(t: Tables, w: Wallet, balance: int, available: int) {
    Fold(t.Stream(w)).balance == balance && Fold(t.Stream(w)).Available() == available
  }

  /** What a run leaves in the tables once it is over: the balance is down by what was paid,
      nothing is held any more, no other wallet is touched, and its row is written. */
  ghost predicate Paid(t: Tables, t': Tables, w: Wallet, r: Rid, paid: int, row: AiQuery) {
    && Has(t', w, Fold(t.Stream(w)).balance - paid, Fold(t.Stream(w)).Available() - paid)
    && (forall v :: v != w ==> t'.Stream(v) == t.Stream(v))
    && t'.aiQueries == t.aiQueries[r := row]
  }

  lemma OneWalletOnly(t: Tables, t1: Tables, t': Tables, w: Wallet, e1: Event, e2: Event, now: int)
    requires C.Adds(t, t1, w, e1, now) && C.Adds(t1, t', w, e2, now)
    ensures forall v :: v != w ==> t'.Stream(v) == t.Stream(v)
  {
    C.AddsToStream(t, t1, w, e1, now);
    C.AddsToStream(t1, t', w, e2, now);
  }

  lemma HoldFigures(t: Tables, t1: Tables, w: Wallet, r: Rid, n: int, b: int, a: int, now: int)
    requires r !in Fold(t.Stream(w)).reservations && C.HoldsNow(t, t1, w, r, n, "AI query", now) && Has(t, w, b, a)
    ensures t1.aiQueries == t.aiQueries && HeldOpen(t1, w, r, n) && Has(t1, w, b, a - n)
  {
  }

  ghost predicate HeldOpen(t: Tables, w: Wallet, r: Rid, n: int) {
    r in Fold(t.Stream(w)).reservations && Fold(t.Stream(w)).reservations[r] == Hold(n, OPEN)
  }

  lemma ChargeFigures(t: Tables, t': Tables, w: Wallet, r: Rid, n: int, row: AiQuery, b: int, a: int, now: int)
    requires HeldOpen(t, w, r, n) && C.ChargedFor(t, t', w, r, row, "AI query", now) && Has(t, w, b, a)
    ensures Has(t', w, b - n, a) && t'.aiQueries == t.aiQueries[r := row]
    ensures C.Adds(t, t', w, Event(CreditReservationCommitted, |t.Stream(w)| + 1, n, "AI query", Some(r)), now)
  {
  }

  lemma GiveBackFigures(t: Tables, t': Tables, w: Wallet, r: Rid, n: int, question: string, id: string, why: string,
                        b: int, a: int, now: int)
    requires HeldOpen(t, w, r, n) && C.GaveBack(t, t', w, r, question, id, why, now) && Has(t, w, b, a)
    ensures Has(t', w, b, a + n)
    ensures t'.aiQueries == t.aiQueries[r := AiQuery(id, w, question, None, [], 0, FAILED)]
    ensures C.Adds(t, t', w, Event(CreditReservationReleased, |t.Stream(w)| + 1, n, why, Some(r)), now)
  {
  }

  lemma PaysNow(t: Tables, t': Tables, w: Wallet, r: Rid, b: int, a: int, paid: int, row: AiQuery)
    requires Has(t, w, b, a) && Has(t', w, b - paid, a - paid) && t'.aiQueries == t.aiQueries[r := row]
    requires forall v :: v != w ==> t'.Stream(v) == t.Stream(v)
    ensures Paid(t, t', w, r, paid, row)
  {
  }

  lemma HeldThenCharged(t: Tables, t1: Tables, t': Tables, w: Wallet, r: Rid, n: int, row: AiQuery, b: int, a: int,
                        now: int)
    requires r !in Fold(t.Stream(w)).reservations && C.HoldsNow(t, t1, w, r, n, "AI query", now)
    requires C.ChargedFor(t1, t', w, r, row, "AI query", now) && Has(t, w, b, a)
    ensures Paid(t, t', w, r, n, row)
  {
    HoldFigures(t, t1, w, r, n, b, a, now);
    ChargeFigures(t1, t', w, r, n, row, b, a - n, now);
    var e1 := Event(CreditReserved, |t.Stream(w)| + 1, n, "AI query", Some(r));
    OneWalletOnly(t, t1, t', w, e1, Event(CreditReservationCommitted, |t1.Stream(w)| + 1, n, "AI query", Some(r)), now);
    PaysNow(t, t', w, r, b, a, n, row);
  }

  lemma HeldThenGivenBack(t: Tables, t1: Tables, t': Tables, w: Wallet, r: Rid, n: int, question: string, id: string,
                          why: string, b: int, a: int, now: int)
    requires r !in Fold(t.Stream(w)).reservations && C.HoldsNow(t, t1, w, r, n, "AI query", now)
    requires C.GaveBack(t1, t', w, r, question, id, why, now) && Has(t, w, b, a)
    ensures Paid(t, t', w, r, 0, AiQuery(id, w, question, None, [], 0, FAILED))
  {
    HoldFigures(t, t1, w, r, n, b, a, now);
    GiveBackFigures(t1, t', w, r, n, question, id, why, b, a - n, now);
    var e1 := Event(CreditReserved, |t.Stream(w)| + 1, n, "AI query", Some(r));
    OneWalletOnly(t, t1, t', w, e1, Event(CreditReservationReleased, |t1.Stream(w)| + 1, n, why, Some(r)), now);
    PaysNow(t, t', w, r, b, a, 0, AiQuery(id, w, question, None, [], 0, FAILED));
  }

  /** The commit of a held answer. */
  lemma ClosesAnswered(t: Tables, t1: Tables, r: Rid, w: Wallet, question: string, cost: int, summary: string,
                       sources: seq<Source>, now: int, newId: string)
    requires LedgerOk(t1) && C.HoldsNow(t, t1, w, r, cost, "AI query", now)
    requires r !in Fold(t.Stream(w)).reservations && r !in t.aiQueries
    ensures var c := CommitAiQuery(w, r, question, summary, sources, cost, "AI query");
            var (t', reply) := Execute(t1, c, t1.Stream(w), now, newId);
            reply.Charged?
            && Paid(t, t', w, r, cost, AiQuery(newId, w, question, Some(summary), sources, cost, ANSWERED))
  {
    C.CommitCharges(t1, w, r, question, summary, sources, cost, "AI query", t1.Stream(w), now, newId);
    var c := CommitAiQuery(w, r, question, summary, sources, cost, "AI query");
    HeldThenCharged(t, t1, Execute(t1, c, t1.Stream(w), now, newId).0, w, r, cost,
                    AiQuery(newId, w, question, Some(summary), sources, cost, ANSWERED), Fold(t.Stream(w)).balance,
                    Fold(t.Stream(w)).Available(), now);
  }

  /** The release of a hold that delivered nothing. */
  lemma ClosesUnanswered(t: Tables, t1: Tables, r: Rid, w: Wallet, question: string, cost: int, why: string, now: int,
                         newId: string)
    requires LedgerOk(t1) && C.HoldsNow(t, t1, w, r, cost, "AI query", now)
    requires r !in Fold(t.Stream(w)).reservations && r !in t.aiQueries
    ensures var (t', reply) := Execute(t1, ReleaseCreditReservation(w, r, question, why), t1.Stream(w), now, newId);
            reply.ReleaseReply? && Paid(t, t', w, r, 0, AiQuery(newId, w, question, None, [], 0, FAILED))
  {
    C.ReleaseGivesBack(t1, w, r, question, why, t1.Stream(w), now, newId);
    var t' := Execute(t1, ReleaseCreditReservation(w, r, question, why), t1.Stream(w), now, newId).0;
    HeldThenGivenBack(t, t1, t', w, r, cost, question, newId, why, Fold(t.Stream(w)).balance,
                      Fold(t.Stream(w)).Available(), now);
  }

  /** How a run ends that nothing goes wrong with: it answers, answers that there is nothing, or
      throws, as the AI service replied, and pays for an answer alone. */
  function Ended(outcome: RagOutcome): Phase {
    if outcome.Answered? then Returned(true) else if outcome.NoResults? then Returned(false) else Threw
  }

  function PaysFor(outcome: RagOutcome, cost: int): int {
    if outcome.Answered? then cost else 0
  }

  function RowOf(outcome: RagOutcome, w: Wallet, question: string, cost: int, id: string): AiQuery {
    if outcome.Answered? then AiQuery(id, w, question, Some(outcome.summary), outcome.sources, cost, ANSWERED)
    else AiQuery(id, w, question, None, [], 0, FAILED)
  }

  /** The command a run closes with. */
  function Closing(outcome: RagOutcome, r: Rid, w: Wallet, question: string, cost: int): Command {
    if outcome.Answered? then
      CommitAiQuery(w, r, question, outcome.summary, outcome.sources, cost, "AI query")
    else
      ReleaseCreditReservation(w, r, question, if outcome.NoResults? then "NO_RESULTS" else "AI_UNAVAILABLE")
  }

  lemma DispatchesClosing(outcome: RagOutcome, r: Rid, w: Wallet, question: string, cost: int)
    ensures Dispatched(r, Saga(w, question, cost, OnRag(outcome))) == Closing(outcome, r, w, question, cost)
  {
  }

  lemma EndsOnReply(outcome: RagOutcome, reply: Reply)
    requires if outcome.Answered? then reply.Charged? else reply.ReleaseReply?
    ensures OnReply(OnRag(outcome), reply) == Ended(outcome)
  {
  }

  /** Tables and run once the last dispatch is through. */
  ghost predicate WellOver(t: Tables, t': Tables, r: Rid, w: Wallet, question: string, cost: int, outcome: RagOutcome,
                           phase: Phase, newId: string) {
    phase == Ended(outcome) && Paid(t, t', w, r, PaysFor(outcome, cost), RowOf(outcome, w, question, cost, newId))
  }

  lemma Closes(t: Tables, t1: Tables, t': Tables, reply: Reply, r: Rid, w: Wallet, question: string, cost: int,
               outcome: RagOutcome, now: int, newId: string)
    requires LedgerOk(t1) && C.HoldsNow(t, t1, w, r, cost, "AI query", now)
    requires r !in Fold(t.Stream(w)).reservations && r !in t.aiQueries
    requires Execute(t1, Closing(outcome, r, w, question, cost), t1.Stream(w), now, newId) == (t', reply)
    ensures WellOver(t, t', r, w, question, cost, outcome, OnReply(OnRag(outcome), reply), newId)
  {
    if outcome.Answered? {
      ClosesAnswered(t, t1, r, w, question, cost, outcome.summary, outcome.sources, now, newId);
    } else {
      var why := if outcome.NoResults? then "NO_RESULTS" else "AI_UNAVAILABLE";
      ClosesUnanswered(t, t1, r, w, question, cost, why, now, newId);
    }
    EndsOnReply(outcome, reply);
  }

  /** From every reachable state a new run for what the wallet has available can go through
      without a crash or a conflict, whatever the AI service replies, and is charged exactly
      for an answer. */
  lemma RunGoesThrough(acts: seq<Action>, maxAttempts: int, s: State, r: Rid, w: Wallet, question: string, cost: int,
                       outcome: RagOutcome, x: TxId, now: int, newId: string)
    returns (acts': seq<Action>, s': State)
    requires Exec(acts, maxAttempts) == Some(s) && r !in s.sagas && x !in s.txs
    requires 0 < cost <= Fold(s.db.Stream(w)).Available()
    ensures GoesOn(acts, acts') && Exec(acts', maxAttempts) == Some(s') && s'.txs == s.txs
    ensures s'.sagas == s.sagas[r := Saga(w, question, cost, Ended(outcome))]
    ensures Paid(s.db, s'.db, w, r, PaysFor(outcome, cost), RowOf(outcome, w, question, cost, newId))
  {
    var acts1, s1 := AsksAfresh(acts, maxAttempts, s, r, w, question, cost);
    acts', s' := AskedGoesThrough(acts1, maxAttempts, s1, r, w, question, cost, outcome, x, now, newId);
    GoesOnAndOn(acts, acts1, acts');
    PutTwice(s.sagas, r, s1.sagas[r], s'.sagas[r]);
  }

  /** The same once it has asked. */
  lemma AskedGoesThrough(acts: seq<Action>, maxAttempts: int, s: State, r: Rid, w: Wallet, question: string, cost: int,
                         outcome: RagOutcome, x: TxId, now: int, newId: string)
    returns (acts': seq<Action>, s': State)
    requires Exec(acts, maxAttempts) == Some(s) && x !in s.txs && NoTxOf(s, r)
    requires r in s.sagas && s.sagas[r] == Saga(w, question, cost, Reserving)
    requires r !in Fold(s.db.Stream(w)).reservations && r !in s.db.aiQueries
    requires 0 < cost <= Fold(s.db.Stream(w)).Available()
    ensures GoesOn(acts, acts') && Exec(acts', maxAttempts) == Some(s') && s'.txs == s.txs
    ensures s'.sagas == s.sagas[r := Saga(w, question, cost, Ended(outcome))]
    ensures Paid(s.db, s'.db, w, r, PaysFor(outcome, cost), RowOf(outcome, w, question, cost, newId))
  {
    var acts1, s1 := Reserves(acts, maxAttempts, s, r, w, question, cost, x, now, newId);
    acts', s' := HearsAndEnds(s.db, acts1, maxAttempts, s1, r, w, question, cost, outcome, x, now, newId);
    GoesOnAndOn(acts, acts1, acts');
    PutTwice(s.sagas, r, s1.sagas[r], s'.sagas[r]);
  }

  /** From the tables `t` before its reserve a run goes on to its end. */
  lemma HearsAndEnds(t: Tables, acts: seq<Action>, maxAttempts: int, s: State, r: Rid, w: Wallet, question: string,
                     cost: int, outcome: RagOutcome, x: TxId, now: int, newId: string)
    returns (acts': seq<Action>, s': State)
    requires Exec(acts, maxAttempts) == Some(s) && r in s.sagas && x !in s.txs && NoTxOf(s, r) && LedgerOk(s.db)
    requires s.sagas[r] == Saga(w, question, cost, Asking)
    requires C.HoldsNow(t, s.db, w, r, cost, "AI query", now)
    requires r !in Fold(t.Stream(w)).reservations && r !in t.aiQueries
    ensures GoesOn(acts, acts') && Exec(acts', maxAttempts) == Some(s') && s'.txs == s.txs
    ensures s'.sagas == s.sagas[r := Saga(w, question, cost, Ended(outcome))]
    ensures Paid(t, s'.db, w, r, PaysFor(outcome, cost), RowOf(outcome, w, question, cost, newId))
  {
    acts', s' := HearsAndCloses(acts, maxAttempts, s, r, w, question, cost, outcome, x, now, newId);
    var (db, reply) := Execute(s.db, Closing(outcome, r, w, question, cost), s.db.Stream(w), now, newId);
    Closes(t, s.db, db, reply, r, w, question, cost, outcome, now, newId);
  }

  lemma HearsAndCloses(acts: seq<Action>, maxAttempts: int, s: State, r: Rid, w: Wallet, question: string, cost: int,
                       outcome: RagOutcome, x: TxId, now: int, newId: string)
    returns (acts': seq<Action>, s': State)
    requires Exec(acts, maxAttempts) == Some(s) && r in s.sagas && x !in s.txs && NoTxOf(s, r)
    requires s.sagas[r] == Saga(w, question, cost, Asking)
    ensures GoesOn(acts, acts') && Exec(acts', maxAttempts) == Some(s') && s'.txs == s.txs
    ensures var (db, reply) := Execute(s.db, Closing(outcome, r, w, question, cost), s.db.Stream(w), now, newId);
            s'.db == db && s'.sagas == s.sagas[r := Saga(w, question, cost, OnReply(OnRag(outcome), reply))]
  {
    var s1;
    acts', s1 := Hears(acts, maxAttempts, s, r, outcome);
    DispatchesClosing(outcome, r, w, question, cost);
    acts', s' := Dispatches(acts', maxAttempts, s1, r, x, now, newId);
  }

  // --------------------------------------------------------- a recorded release gets done

  /** A worker claims one row. */
  lemma ClaimsRow(acts: seq<Action>, maxAttempts: int, s: State, row: Q.RowId, j: Q.JobId, now: int)
    returns (acts': seq<Action>, s': State)
    requires Exec(acts, maxAttempts) == Some(s) && j !in s.queue.jobs
    requires row in s.queue.rows && s.queue.rows[row].status == Q.PENDING
    ensures GoesOn(acts, acts') && Exec(acts', maxAttempts) == Some(s')
    ensures s' == s.(queue := s'.queue) && row in s'.queue.rows
    ensures j in s'.queue.jobs && s'.queue.jobs[j] == Q.Job(row, Q.Stage.Claiming)
  {
    var claim := Queue(Q.Claim(map[j := row], now));
    T.ExecSnoc(acts, maxAttempts, s, claim);
    acts', s' := acts + [claim], Do(s, claim, maxAttempts);
  }

  /** And reads it back. */
  lemma ReadsRow(acts: seq<Action>, maxAttempts: int, s: State, row: Q.RowId, j: Q.JobId)
    returns (acts': seq<Action>, s': State)
    requires Exec(acts, maxAttempts) == Some(s) && row in s.queue.rows
    requires j in s.queue.jobs && s.queue.jobs[j] == Q.Job(row, Q.Stage.Claiming)
    ensures GoesOn(acts, acts') && Exec(acts', maxAttempts) == Some(s')
    ensures s' == s.(queue := s'.queue) && row in s'.queue.rows
    ensures j in s'.queue.jobs && s'.queue.jobs[j].row == row && s'.queue.jobs[j].stage.Ready?
  {
    T.ExecSnoc(acts, maxAttempts, s, Queue(Q.ReadBack(j)));
    acts', s' := acts + [Queue(Q.ReadBack(j))], Do(s, Queue(Q.ReadBack(j)), maxAttempts);
  }

  /** A release on current reads is always answered, and moves no balance. */
  lemma ReleaseIsAnswered(t: Tables, c: Command, now: int, newId: string)
    requires LedgerOk(t) && c.ReleaseCreditReservation?
    ensures var (t', reply) := Execute(t, c, t.Stream(c.wallet), now, newId);
            reply.ReleaseReply? && forall v :: Fold(t'.Stream(v)).balance == Fold(t.Stream(v)).balance
  {
    C.ReleaseGivesBack(t, c.wallet, c.rid, c.question, c.reason, t.Stream(c.wallet), now, newId);
    var t' := Execute(t, c, t.Stream(c.wallet), now, newId).0;
    forall v
      ensures Fold(t'.Stream(v)).balance == Fold(t.Stream(v)).balance
    {
      assert v != c.wallet ==> t'.Rows(v) == t.Rows(v);
    }
  }

  /** It begins what the row asks for. */
  lemma BeginsRow(acts: seq<Action>, maxAttempts: int, s: State, j: Q.JobId, x: TxId, c: Command)
    returns (acts': seq<Action>, s': State)
    requires Exec(acts, maxAttempts) == Some(s) && x !in s.txs && WorksOn(s, j, c)
    ensures GoesOn(acts, acts') && Exec(acts', maxAttempts) == Some(s')
    ensures s' == s.(txs := s.txs[x := Tx(c, Worker(j), s.db.Stream(c.wallet))])
  {
    T.ExecSnoc(acts, maxAttempts, s, Begin(x, Worker(j), c));
    acts', s' := acts + [Begin(x, Worker(j), c)], Do(s, Begin(x, Worker(j), c), maxAttempts);
  }

  lemma FinishesRow(acts: seq<Action>, maxAttempts: int, s: State, j: Q.JobId, x: TxId, c: Command, now: int,
                    newId: string)
    returns (acts': seq<Action>, s': State)
    requires Exec(acts, maxAttempts) == Some(s) && WorksOn(s, j, c) && c.ReleaseCreditReservation? && LedgerOk(s.db)
    requires x in s.txs && s.txs[x] == Tx(c, Worker(j), s.db.Stream(c.wallet))
    ensures GoesOn(acts, acts') && Exec(acts', maxAttempts) == Some(s')
    ensures s'.payload == s.payload && s'.queue == Q.Do(s.queue, Q.RunSucceeds(j), 1) && s'.sagas == s.sagas
    ensures forall v :: Fold(s'.db.Stream(v)).balance == Fold(s.db.Stream(v)).balance
  {
    T.ExecSnoc(acts, maxAttempts, s, Finish(x, now, newId));
    ReleaseIsAnswered(s.db, c, now, newId);
    acts', s' := acts + [Finish(x, now, newId)], Do(s, Finish(x, now, newId), maxAttempts);
  }

  /** And its runner succeeds. */
  lemma RunsRow(acts: seq<Action>, maxAttempts: int, s: State, row: Q.RowId, j: Q.JobId, x: TxId, now: int,
                newId: string)
    returns (acts': seq<Action>, s': State)
    requires Exec(acts, maxAttempts) == Some(s) && x !in s.txs && row in s.queue.rows && LedgerOk(s.db)
    requires j in s.queue.jobs && s.queue.jobs[j].row == row && s.queue.jobs[j].stage.Ready?
    requires row in s.payload && s.payload[row].ReleaseCreditReservation?
    ensures GoesOn(acts, acts') && Exec(acts', maxAttempts) == Some(s')
    ensures s'.payload == s.payload && s'.queue.rows == s.queue.rows && s'.sagas == s.sagas
    ensures j in s'.queue.jobs && s'.queue.jobs[j].row == row && s'.queue.jobs[j].stage.Succeeded?
    ensures forall v :: Fold(s'.db.Stream(v)).balance == Fold(s.db.Stream(v)).balance
  {
    var c := s.payload[row];
    var acts1, s1 := BeginsRow(acts, maxAttempts, s, j, x, c);
    acts', s' := FinishesRow(acts1, maxAttempts, s1, j, x, c, now, newId);
    GoesOnAndOn(acts, acts1, acts');
  }

  /** And marks the row. */
  lemma MarksRow(acts: seq<Action>, maxAttempts: int, s: State, row: Q.RowId, j: Q.JobId, now: int)
    returns (acts': seq<Action>, s': State)
    requires Exec(acts, maxAttempts) == Some(s) && row in s.queue.rows
    requires j in s.queue.jobs && s.queue.jobs[j].row == row && s.queue.jobs[j].stage.Succeeded?
    ensures GoesOn(acts, acts') && Exec(acts', maxAttempts) == Some(s') && s' == s.(queue := s'.queue)
    ensures row in s'.queue.rows && s'.queue.rows[row].status == Q.DONE
  {
    T.ExecSnoc(acts, maxAttempts, s, Queue(Q.MarkProcessed(j, now)));
    acts', s' := acts + [Queue(Q.MarkProcessed(j, now))], Do(s, Queue(Q.MarkProcessed(j, now)), maxAttempts);
  }

  lemma PayloadIsRelease(acts: seq<Action>, maxAttempts: int, s: State, row: Q.RowId)
    requires Exec(acts, maxAttempts) == Some(s) && row in s.payload
    ensures LedgerOk(s.db) && s.payload[row].ReleaseCreditReservation?
  {
    AlwaysInv(acts, maxAttempts);
    assert PayloadFits(s.db, s.sagas, s.payload[row]);
  }

  /** A worker with the row in hand finishes it. */
  lemma WorksRow(acts: seq<Action>, maxAttempts: int, s: State, row: Q.RowId, j: Q.JobId, x: TxId, now: int,
                 newId: string)
    returns (acts': seq<Action>, s': State)
    requires Exec(acts, maxAttempts) == Some(s) && x !in s.txs && row in s.queue.rows && row in s.payload
    requires j in s.queue.jobs && s.queue.jobs[j].row == row && s.queue.jobs[j].stage.Ready?
    ensures GoesOn(acts, acts') && Exec(acts', maxAttempts) == Some(s') && s'.payload == s.payload
    ensures row in s'.queue.rows && s'.queue.rows[row].status == Q.DONE && s'.sagas == s.sagas
    ensures forall v :: Fold(s'.db.Stream(v)).balance == Fold(s.db.Stream(v)).balance
  {
    PayloadIsRelease(acts, maxAttempts, s, row);
    var s1;
    acts', s1 := RunsRow(acts, maxAttempts, s, row, j, x, now, newId);
    acts', s' := MarksRow(acts', maxAttempts, s1, row, j, now);
  }

  /** From every reachable state a release row that is PENDING can be carried through by one
      worker: it ends DONE, its reservation is closed, and no balance has moved. */
  lemma ReleaseRowGetsDone(acts: seq<Action>, maxAttempts: int, s: State, row: Q.RowId, j: Q.JobId, x: TxId, now: int,
                           newId: string)
    returns (acts': seq<Action>, s': State)
    requires Exec(acts, maxAttempts) == Some(s) && row in s.payload && row in s.queue.rows
    requires s.queue.rows[row].status == Q.PENDING && j !in s.queue.jobs && x !in s.txs
    ensures GoesOn(acts, acts') && Exec(acts', maxAttempts) == Some(s')
    ensures row in s'.queue.rows && s'.queue.rows[row].status == Q.DONE && s'.sagas == s.sagas
    ensures s.payload[row].ReleaseCreditReservation? && ClosedIn(s'.db, s.payload[row].wallet, s.payload[row].rid)
    ensures forall v :: Fold(s'.db.Stream(v)).balance == Fold(s.db.Stream(v)).balance
  {
    var s1;
    acts', s1 := ClaimsRow(acts, maxAttempts, s, row, j, now);
    acts', s1 := ReadsRow(acts', maxAttempts, s1, row, j);
    acts', s' := WorksRow(acts', maxAttempts, s1, row, j, x, now, newId);
    T.DoneMeansClosed(acts', maxAttempts, row, 0, now, newId);
  }
}
