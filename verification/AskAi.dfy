/** The saga as the handler runs it, statement by statement, on tables that everybody else
    keeps writing to. Ordered effects, early return and throw; the context remembers what to
    undo, and the bus undoes it when the handler throws. */
module AskAi {
  import opened Foundations
  import opened CreditLedger
  import opened CreditTables
  import opened CreditBooks
  import C = CreditCommands
  import opened CreditSystem
  import opened CreditSystemInvariant

  // ------------------------------------------------------------- what others may do

  ghost predicate OnlyIn(t: Tables, w: Wallet, r: Rid) {
    forall v :: v != w ==> HeldIn(t, v, r).None?
  }

  /** What a run can count on about its own reservation. */
  ghost predicate Sound(t: Tables, w: Wallet, r: Rid, cost: int) {
    LedgerOk(t) && OnlyIn(t, w, r) && BooksAgree(t, w, r, cost)
  }

  predicate HeldMoves(held: Option<Hold>, held': Option<Hold>) {
    held' == held || (held.Some? && held.value.status == OPEN && held' == Some(Hold(held.value.amount, RELEASED)))
  }

  /** Others may write whatever keeps the tables sound, and may close the run's hold by
      releasing it. They neither make it nor charge it. */
  ghost predicate Rely(t: Tables, t': Tables, w: Wallet, r: Rid, cost: int) {
    Sound(t, w, r, cost) ==>
      && Sound(t', w, r, cost) && StreamsGrow(t, t')
      && HeldMoves(HeldIn(t, w, r), HeldIn(t', w, r))
  }

  lemma RelyComposes(t: Tables, u: Tables, v: Tables, w: Wallet, r: Rid, cost: int)
    requires Rely(t, u, w, r, cost) && Rely(u, v, w, r, cost)
    ensures Rely(t, v, w, r, cost)
  {
    if Sound(t, w, r, cost) {
      forall x
        ensures t.Stream(x) <= v.Stream(x)
      {
        assert t.Stream(x) <= u.Stream(x) <= v.Stream(x);
      }
    }
  }

  lemma WroteKeepsOnlyIn(t: Tables, c: Command, e: Event, t': Tables, w: Wallet, r: Rid)
    requires Wrote(t, c, e, t') && OnlyIn(t, w, r)
    requires IsAbout(c, r) && c.ReserveCredits? ==> c.wallet == w
    ensures OnlyIn(t', w, r)
    ensures IsAbout(c, r) ==> c.wallet == w
  {
    forall v
      ensures v != w ==> HeldIn(t', v, r).None?
      ensures IsAbout(c, r) && c.wallet == v ==> v == w
    {
      WroteMovesHold(t, c, e, t', v, r);
    }
    WroteMovesHold(t, c, e, t', c.wallet, r);
  }

  /** Any write that fits the run, its own or another's, keeps the tables sound for it. */
  lemma WroteKeepsSound(t: Tables, c: Command, e: Event, t': Tables, w: Wallet, r: Rid, cost: int)
    requires Sound(t, w, r, cost) && Wrote(t, c, e, t') && FreshFor(t, c)
    requires IsAbout(c, r) && c.ReserveCredits? ==> c.wallet == w && c.amount == cost as real
    requires IsAbout(c, r) && c.CommitAiQuery? ==> c.cost == cost
    ensures Sound(t', w, r, cost) && (IsAbout(c, r) ==> c.wallet == w)
  {
    WroteKeepsLedgerOk(t, c, e, t');
    WroteKeepsOnlyIn(t, c, e, t', w, r);
    WroteKeepsBooks(t, c, e, t', w, r, cost);
  }

  lemma WroteGrows(t: Tables, c: Command, e: Event, t': Tables)
    requires Wrote(t, c, e, t')
    ensures StreamsGrow(t, t')
  {
  }

  lemma WroteRely(t: Tables, c: Command, e: Event, t': Tables, w: Wallet, r: Rid, cost: int)
    requires Sound(t, w, r, cost) && Wrote(t, c, e, t') && FreshFor(t, c)
    requires IsAbout(c, r) ==> c.ReleaseCreditReservation?
    ensures Rely(t, t', w, r, cost)
  {
    WroteKeepsSound(t, c, e, t', w, r, cost);
    WroteGrows(t, c, e, t');
    WroteMovesHold(t, c, e, t', w, r);
  }

  /** Every transaction of everybody else is of that kind, on current reads or on old ones,
      the sweeper's and the compensation worker's release of this very hold included. */
  lemma OthersKeepRely(t: Tables, c: Command, seen: seq<Event>, now: int, newId: string, w: Wallet, r: Rid, cost: int)
    requires seen <= t.Stream(c.wallet) && FreshFor(t, c)
    requires IsAbout(c, r) ==> c.ReleaseCreditReservation?
    ensures Rely(t, Execute(t, c, seen, now, newId).0, w, r, cost)
  {
    var t' := Execute(t, c, seen, now, newId).0;
    if Sound(t, w, r, cost) && t' != t {
      ExecuteEffect(t, c, seen, now, newId);
      WroteRely(t, c, Decide(Fold(t.Stream(c.wallet)), OpOf(c)).event, t', w, r, cost);
    }
  }

  // A transaction of somebody else, and what its load returned.
  datatype Foreign = Foreign(cmd: Command, seen: seq<Event>, now: int, newId: string)

  ghost function Committed(t: Tables, others: seq<Foreign>): Tables {
    if others == [] then t
    else
      var f := others[|others| - 1];
      Execute(Committed(t, others[..|others| - 1]), f.cmd, f.seen, f.now, f.newId).0
  }

  /** Each read some prefix of the stream it commits to, uses fresh ids of its own, and neither
      makes nor charges the hold of `r`. */
  ghost predicate OthersOk(t: Tables, others: seq<Foreign>, r: Rid) {
    others == [] ||
    (var before, f := Committed(t, others[..|others| - 1]), others[|others| - 1];
     && OthersOk(t, others[..|others| - 1], r)
     && f.seen <= before.Stream(f.cmd.wallet) && FreshFor(before, f.cmd)
     && (IsAbout(f.cmd, r) ==> f.cmd.ReleaseCreditReservation?))
  }

  /** However many of them commit in a row, a run can rely on it. */
  lemma {:induction false} ManyOthersKeepRely(t: Tables, others: seq<Foreign>, w: Wallet, r: Rid, cost: int)
    requires OthersOk(t, others, r)
    ensures Rely(t, Committed(t, others), w, r, cost)
  {
    if others != [] {
      var before, f := Committed(t, others[..|others| - 1]), others[|others| - 1];
      ManyOthersKeepRely(t, others[..|others| - 1], w, r, cost);
      OthersKeepRely(before, f.cmd, f.seen, f.now, f.newId, w, r, cost);
      RelyComposes(t, before, Committed(t, others), w, r, cost);
    }
  }

  lemma OthersKeepPhase(p: Phase, held: Option<Hold>, held': Option<Hold>)
    requires PhaseFits(p, held) && HeldMoves(held, held')
    ensures PhaseFits(p, held')
  {
  }

  // ------------------------------------------------------------ one transaction of the run

  lemma OwnHoldGrows(t: Tables, tx: Tx, now: int, newId: string, w: Wallet, r: Rid)
    requires LedgerOk(t) && tx.seen <= t.Stream(tx.cmd.wallet) && FreshFor(t, tx.cmd)
    ensures HoldGrows(t, Execute(t, tx.cmd, tx.seen, now, newId).0, tx.cmd, w, r)
  {
    var t' := Execute(t, tx.cmd, tx.seen, now, newId).0;
    ExecuteEffect(t, tx.cmd, tx.seen, now, newId);
    if t' != t {
      WroteMovesHold(t, tx.cmd, Decide(Fold(t.Stream(tx.cmd.wallet)), OpOf(tx.cmd)).event, t', w, r);
    }
  }

  lemma OwnKeepsSound(t: Tables, c: Command, seen: seq<Event>, now: int, newId: string, w: Wallet, r: Rid, cost: int)
    requires Sound(t, w, r, cost) && seen <= t.Stream(c.wallet) && FreshFor(t, c)
    requires IsAbout(c, r) && c.wallet == w
    requires c.ReserveCredits? ==> c.amount == cost as real
    requires c.CommitAiQuery? ==> c.cost == cost
    ensures Sound(Execute(t, c, seen, now, newId).0, w, r, cost)
  {
    var t' := Execute(t, c, seen, now, newId).0;
    if t' != t {
      ExecuteEffect(t, c, seen, now, newId);
      WroteKeepsSound(t, c, Decide(Fold(t.Stream(c.wallet)), OpOf(c)).event, t', w, r, cost);
    }
  }

  /** A transaction of the run itself keeps the tables sound, and its answer takes the run to
      a phase that fits its hold. */
  lemma OwnTransaction(t: Tables, saga: Saga, r: Rid, seen: seq<Event>, now: int, newId: string)
    requires Sound(t, saga.wallet, r, saga.cost) && seen <= t.Stream(saga.wallet)
    requires Dispatching(saga.phase) && PhaseFits(saga.phase, HeldIn(t, saga.wallet, r))
    requires !saga.phase.Reserving? ==> r in Fold(seen).reservations
    ensures var (t', reply) := Execute(t, Dispatched(r, saga), seen, now, newId);
            AnsweredFits(t', saga, r, Some(reply))
  {
    var tx := Tx(Dispatched(r, saga), Run(r), seen);
    OwnKeepsSound(t, tx.cmd, seen, now, newId, saga.wallet, r, saga.cost);
    OwnHoldGrows(t, tx, now, newId, saga.wallet, r);
    OwnReply(t, map[r := saga], tx, now, newId, r);
    OwnAnswer(t, saga, r, seen, now, newId);
  }

  /** The balance a release answers with is that of what it read, and if it released
      anything itself, the current one. */
  lemma ReleaseReports(t: Tables, c: Command, seen: seq<Event>, now: int, newId: string)
    requires LedgerOk(t) && seen <= t.Stream(c.wallet) && c.ReleaseCreditReservation?
    requires Execute(t, c, seen, now, newId).1.ReleaseReply?
    ensures var (t', reply) := Execute(t, c, seen, now, newId);
            && BalanceOnceWas(t'.Stream(c.wallet), reply.balance)
            && (reply.failedQueryId.Some? ==>
                  && Fold(t.Stream(c.wallet)).StatusOf(c.rid) == Some(OPEN)
                  && reply.balance == Fold(t'.Stream(c.wallet)).balance
                  && C.GaveBack(t, t', c.wallet, c.rid, c.question, reply.failedQueryId.value, c.reason, now))
  {
    C.ReleaseGivesBack(t, c.wallet, c.rid, c.question, c.reason, seen, now, newId);
    var t', stream := Execute(t, c, seen, now, newId).0, t.Stream(c.wallet);
    assert stream[..|seen|] == seen;
    assert t'.Stream(c.wallet)[..|t'.Stream(c.wallet)|] == t'.Stream(c.wallet);
  }

  lemma FirstMessage(t: Tables, t': Tables, m: Message, r: Rid)
    requires t'.outbox == t.outbox + [m] && MessagesAbout(t.outbox, r) == [] && Concerns(m, r)
    ensures MessagesAbout(t'.outbox, r) == [m]
  {
    MessagesSnoc(t.outbox, m, r);
  }

  lemma ReleaseTells(t: Tables, t': Tables, w: Wallet, r: Rid, cost: int, question: string, id: string, why: string,
                     now: int)
    requires Sound(t, w, r, cost) && Fold(t.Stream(w)).StatusOf(r) == Some(OPEN)
    requires C.GaveBack(t, t', w, r, question, id, why, now)
    ensures FailedRow(t', w, r, cost, question, id, why)
  {
    FirstMessage(t, t', t'.outbox[|t.outbox|], r);
  }

  lemma ChargeTells(t: Tables, t': Tables, w: Wallet, r: Rid, row: AiQuery, why: string, now: int)
    requires Sound(t, w, r, row.creditCost) && Fold(t.Stream(w)).StatusOf(r) == Some(OPEN)
    requires C.ChargedFor(t, t', w, r, row, why, now)
    ensures AnsweredRow(t', w, r, row, why)
  {
    FirstMessage(t, t', t'.outbox[|t.outbox|], r);
  }

  /** The row of a query that failed, and the one message about it. */
  ghost predicate FailedRow(t: Tables, w: Wallet, r: Rid, cost: int, question: string, id: string, why: string) {
    var snippet := if |question| <= 140 then question else question[..140];
    && r in t.aiQueries && t.aiQueries[r] == AiQuery(id, w, question, None, [], 0, FAILED)
    && MessagesAbout(t.outbox, r) == [Released(w, cost, r, id, why, snippet)]
  }

  /** The row of one that was answered and charged, and the one message about it. */
  ghost predicate AnsweredRow(t: Tables, w: Wallet, r: Rid, row: AiQuery, why: string) {
    && r in t.aiQueries && t.aiQueries[r] == row
    && MessagesAbout(t.outbox, r) == [Spent(w, row.creditCost, why, Fold(t.Stream(w)).balance, r, row.id)]
  }

  lemma OwnAnswer(t: Tables, saga: Saga, r: Rid, seen: seq<Event>, now: int, newId: string)
    requires Sound(t, saga.wallet, r, saga.cost) && seen <= t.Stream(saga.wallet)
    requires Dispatching(saga.phase) && PhaseFits(saga.phase, HeldIn(t, saga.wallet, r))
    requires !saga.phase.Reserving? ==> r in Fold(seen).reservations
    ensures var (t', reply) := Execute(t, Dispatched(r, saga), seen, now, newId);
            && (saga.phase.Reserving? && !reply.Held? ==> HeldIn(t', saga.wallet, r).None?)
            && (reply.Held? ==> Fold(t'.Stream(saga.wallet)).StatusOf(r) == Some(OPEN))
            && (reply.ReleaseReply? && !saga.phase.Reserving? && !saga.phase.Charging? ==>
                  ReleaseFits(t', saga, r, reply))
            && (reply.Charged? && saga.phase.Charging? ==> ChargeFits(t', saga, r, reply))
  {
    var c := Dispatched(r, saga);
    var (t', reply) := Execute(t, c, seen, now, newId);
    if c.ReleaseCreditReservation? {
      if reply.ReleaseReply? {
        ReleaseAnswerMeansClosed(t, c, seen, now, newId);
        ReleaseReports(t, c, seen, now, newId);
        if reply.failedQueryId.Some? {
          ReleaseTells(t, t', saga.wallet, r, saga.cost, saga.question, reply.failedQueryId.value, c.reason, now);
        }
      }
    } else {
      AnswerMeansWritten(t, c, seen, now, newId);
      if c.CommitAiQuery? && reply.Charged? {
        ChargedRow(t, c, seen, now, newId);
        ChargeTells(t, t', saga.wallet, r, t'.aiQueries[r], c.reason, now);
      }
    }
  }

  /** The same with others committing before the reads and again before the writes. */
  lemma AttemptFits(start: Tables, view: Tables, t: Tables, saga: Saga, r: Rid, now: int, newId: string)
    requires Sound(start, saga.wallet, r, saga.cost) && PhaseFits(saga.phase, HeldIn(start, saga.wallet, r))
    requires Rely(start, view, saga.wallet, r, saga.cost) && Rely(view, t, saga.wallet, r, saga.cost)
    requires Dispatching(saga.phase)
    ensures AnsweredFits(t, saga, r, None)
    ensures var (t', reply) := Execute(t, Dispatched(r, saga), view.Stream(saga.wallet), now, newId);
            AnsweredFits(t', saga, r, Some(reply))
  {
    OthersKeepPhase(saga.phase, HeldIn(start, saga.wallet, r), HeldIn(view, saga.wallet, r));
    OthersKeepPhase(saga.phase, HeldIn(view, saga.wallet, r), HeldIn(t, saga.wallet, r));
    assert view.Stream(saga.wallet) <= t.Stream(saga.wallet);
    OwnTransaction(t, saga, r, view.Stream(saga.wallet), now, newId);
  }

  /** What a charge answered is what the row and the ledger now say. */
  lemma ChargedRow(t: Tables, c: Command, seen: seq<Event>, now: int, newId: string)
    requires LedgerOk(t) && seen <= t.Stream(c.wallet) && c.CommitAiQuery?
    requires Execute(t, c, seen, now, newId).1.Charged?
    ensures var (t', reply) := Execute(t, c, seen, now, newId);
            && Fold(t.Stream(c.wallet)).StatusOf(c.rid) == Some(OPEN)
            && c.rid in t'.aiQueries
            && t'.aiQueries[c.rid]
               == AiQuery(reply.aiQueryId, c.wallet, c.question, Some(c.answer), c.sources, c.cost, ANSWERED)
            && reply.balance == Fold(t'.Stream(c.wallet)).balance
            && C.ChargedFor(t, t', c.wallet, c.rid, t'.aiQueries[c.rid], c.reason, now)
  {
    C.CommitCharges(t, c.wallet, c.rid, c.question, c.answer, c.sources, c.cost, c.reason, seen, now, newId);
  }

  // ----------------------------------------------------------------------- the context

  // One attempt at a dispatch: what others commit before it reads and before it writes, and
  // whether its transaction is lost.
  datatype Turn = Turn(before: Tables -> Tables, between: Tables -> Tables, lost: bool, now: int, newId: string)

  ghost predicate TurnsOk(turns: seq<Turn>, w: Wallet, r: Rid, cost: int) {
    forall i, t :: 0 <= i < |turns| ==>
      Rely(t, turns[i].before(t), w, r, cost) && Rely(t, turns[i].between(t), w, r, cost)
  }

  function OnOutcome(p: Phase, reply: Option<Reply>): Phase {
    if reply.Some? then OnReply(p, reply.value) else OnReject(p)
  }

  /** The balance at some moment of a wallet's committed history. */
  ghost predicate BalanceOnceWas(stream: seq<Event>, balance: int) {
    exists n :: 0 <= n <= |stream| && Fold(stream[..n]).balance == balance
  }

  /** What a release answered: the hold is closed; and if this run closed it, the row and the
      one message say so, with the run's own reason, and the balance is the current one. */
  ghost predicate ReleaseFits(t: Tables, saga: Saga, r: Rid, reply: Reply)
    requires reply.ReleaseReply?
  {
    && ClosedIn(t, saga.wallet, r) && BalanceOnceWas(t.Stream(saga.wallet), reply.balance)
    && (reply.failedQueryId.Some? ==>
          && FailedRow(t, saga.wallet, r, saga.cost, saga.question, reply.failedQueryId.value,
                       if saga.phase.ReleasingEmpty? then "NO_RESULTS" else "AI_UNAVAILABLE")
          && reply.balance == Fold(t.Stream(saga.wallet)).balance)
  }

  /** What a charge answered is what row, message and ledger say. */
  ghost predicate ChargeFits(t: Tables, saga: Saga, r: Rid, reply: Reply)
    requires reply.Charged? && saga.phase.Charging?
  {
    && AnsweredRow(t, saga.wallet, r, AiQuery(reply.aiQueryId, saga.wallet, saga.question, Some(saga.phase.answer),
                                              saga.phase.sources, saga.cost, ANSWERED), "AI query")
    && reply.balance == Fold(t.Stream(saga.wallet)).balance
  }

  /** After a dispatch: the tables are sound, the answer takes the run to a phase that fits
      its hold, a reserve that made no hold says so, a release that answered left the hold
      closed, and what a charge answered is what the row and the ledger say. */
  ghost predicate AnsweredFits(t: Tables, saga: Saga, r: Rid, reply: Option<Reply>) {
    && Sound(t, saga.wallet, r, saga.cost)
    && PhaseFits(OnOutcome(saga.phase, reply), HeldIn(t, saga.wallet, r))
    && (saga.phase.Reserving? && !(reply.Some? && reply.value.Held?) ==> HeldIn(t, saga.wallet, r).None?)
    && (reply.Some? && reply.value.Held? ==> Fold(t.Stream(saga.wallet)).StatusOf(r) == Some(OPEN))
    && (reply.Some? && reply.value.ReleaseReply? && !saga.phase.Reserving? && !saga.phase.Charging? ==>
          ReleaseFits(t, saga, r, reply.value))
    && (reply.Some? && reply.value.Charged? && saga.phase.Charging? ==> ChargeFits(t, saga, r, reply.value))
  }

  // --------------------------------------------------------------------------- progress

  /** In this turn nobody else touches the run's wallet, and its transaction is not lost. */
  ghost predicate Clear(turn: Turn, w: Wallet) {
    && !turn.lost
    && forall t :: turn.before(t).Stream(w) == t.Stream(w) && turn.between(t).Stream(w) == t.Stream(w)
  }

  ghost predicate StartsClear(turns: seq<Turn>, w: Wallet) {
    turns != [] && Clear(turns[0], w)
  }

  /** The wallet allows what is dispatched in `p`: the credit is there to hold, or the hold is
      there to charge. A release is always allowed. */
  ghost predicate Allowed(p: Phase, stream: seq<Event>, r: Rid, cost: int) {
    match p
    case Reserving => 0 < cost <= Fold(stream).Available()
    case Charging(_, _) => Fold(stream).StatusOf(r) == Some(OPEN)
    case _ => true
  }

  predicate WentThrough(p: Phase, reply: Reply) {
    match p
    case Reserving => reply.Held?
    case Charging(_, _) => reply.Charged?
    case _ => reply.ReleaseReply?
  }

  /** On current reads a dispatch does not conflict, and goes through exactly if allowed. */
  lemma GoesThroughIff(t: Tables, saga: Saga, r: Rid, now: int, newId: string)
    requires Sound(t, saga.wallet, r, saga.cost) && Dispatching(saga.phase)
    ensures var reply := Execute(t, Dispatched(r, saga), t.Stream(saga.wallet), now, newId).1;
            && !reply.ConcurrencyConflict?
            && (WentThrough(saga.phase, reply) <==> Allowed(saga.phase, t.Stream(saga.wallet), r, saga.cost))
  {
    var s := t.Stream(saga.wallet);
    match saga.phase {
      case Reserving => C.ReserveHolds(t, saga.wallet, r, saga.cost as real, "AI query", s, now, newId);
      case Charging(answer, sources) =>
        C.CommitCharges(t, saga.wallet, r, saga.question, answer, sources, saga.cost, "AI query", s, now, newId);
      case ReleasingEmpty => C.ReleaseGivesBack(t, saga.wallet, r, saga.question, "NO_RESULTS", s, now, newId);
      case Compensating => C.ReleaseGivesBack(t, saga.wallet, r, saga.question, "AI_UNAVAILABLE", s, now, newId);
    }
  }

  class SagaContext {
    const db: Database
    // What to undo, and what of it was recorded for later because undoing it failed.
    var compensations: seq<Command>
    var recorded: seq<Command>

    constructor (db: Database)
      ensures this.db == db && compensations == [] && recorded == []
    {
      this.db := db;
      compensations, recorded := [], [];
    }

    method OnCompensate(c: Command)
      modifies this`compensations
      ensures compensations == old(compensations) + [c]
    {
      compensations := compensations + [c];
    }

    method OthersCommit(effect: Tables -> Tables)
      modifies db
      ensures db.View() == effect(old(db.View()))
    {
      var t := effect(db.View());
      db.ledger, db.aiQueries, db.outbox := t.ledger, t.aiQueries, t.outbox;
    }

    method Perform(tx: Transaction, c: Command) returns (reply: Reply)
      modifies tx.db
      ensures tx.Executed(old(tx.db.View()), c, reply)
    {
      match c
      case GrantCredits(w, amount, reason, isMember) => reply := tx.Grant(w, amount, reason, isMember);
      case SpendCredits(w, amount, reason) => reply := tx.Spend(w, amount, reason);
      case RefundCredits(w, amount, reason) => reply := tx.Refund(w, amount, reason);
      case ReserveCredits(w, r, amount, reason) => reply := tx.Reserve(w, r, amount, reason);
      case CommitAiQuery(w, r, q, answer, sources, cost, reason) =>
        reply := tx.CommitQuery(w, r, q, answer, sources, cost, reason);
      case ReleaseCreditReservation(w, r, q, reason) => reply := tx.Release(w, r, q, reason);
    }

    /** A dispatch: a transaction of its own, retried from scratch on a version conflict for
        as many turns as the bus gives it. None if the dispatch rejects without an answer. */
    method Dispatch(ghost saga: Saga, ghost r: Rid, c: Command, turns: seq<Turn>) returns (reply: Option<Reply>)
      requires Dispatching(saga.phase) && c == Dispatched(r, saga)
      requires Sound(db.View(), saga.wallet, r, saga.cost) && PhaseFits(saga.phase, HeldIn(db.View(), saga.wallet, r))
      requires TurnsOk(turns, saga.wallet, r, saga.cost)
      modifies db
      ensures AnsweredFits(db.View(), saga, r, reply)
      ensures reply.Some? ==> !reply.value.ConcurrencyConflict?
      ensures StartsClear(turns, saga.wallet) ==>
                && reply.Some?
                && (WentThrough(saga.phase, reply.value) <==>
                      Allowed(saga.phase, old(db.View()).Stream(saga.wallet), r, saga.cost))
    {
      var k := 0;
      while k < |turns|
        invariant 0 <= k <= |turns|
        invariant k == 0 ==> db.View() == old(db.View())
        invariant k > 0 ==> !StartsClear(turns, saga.wallet)
        invariant Sound(db.View(), saga.wallet, r, saga.cost)
                  && PhaseFits(saga.phase, HeldIn(db.View(), saga.wallet, r))
      {
        var answer := Attempt(saga, r, c, turns[k]);
        if answer.None? || !answer.value.ConcurrencyConflict? { return answer; }
        k := k + 1;
      }
      reply := None;
    }

    method Attempt(ghost saga: Saga, ghost r: Rid, c: Command, turn: Turn) returns (reply: Option<Reply>)
      requires Dispatching(saga.phase) && c == Dispatched(r, saga)
      requires Sound(db.View(), saga.wallet, r, saga.cost) && PhaseFits(saga.phase, HeldIn(db.View(), saga.wallet, r))
      requires TurnsOk([turn], saga.wallet, r, saga.cost)
      modifies db
      ensures AnsweredFits(db.View(), saga, r, reply)
      ensures Clear(turn, saga.wallet) ==>
                && reply.Some? && !reply.value.ConcurrencyConflict?
                && (WentThrough(saga.phase, reply.value) <==>
                      Allowed(saga.phase, old(db.View()).Stream(saga.wallet), r, saga.cost))
    {
      assert [turn][0] == turn;
      ghost var start := db.View();
      OthersCommit(turn.before);
      var view := db.View();
      OthersCommit(turn.between);
      AttemptFits(start, view, db.View(), saga, r, turn.now, turn.newId);
      if turn.lost { return None; }
      var tx := new Transaction(db, view, turn.now, turn.newId);
      ghost var t := db.View();
      var answer := Perform(tx, c);
      if Clear(turn, saga.wallet) {
        GoesThroughIff(t, saga, r, turn.now, turn.newId);
      }
      reply := Some(answer);
    }

    /** What the bus does when a saga throws: undo what was registered, latest first, and
        record what cannot be undone now (unless that fails as well). */
    method Compensate(ghost saga: Saga, ghost r: Rid, turns: seq<Turn>, recordingFails: bool)
      requires saga.phase == Compensating && compensations == [Dispatched(r, saga)] && recorded == []
      requires Sound(db.View(), saga.wallet, r, saga.cost) && PhaseFits(saga.phase, HeldIn(db.View(), saga.wallet, r))
      requires TurnsOk(turns, saga.wallet, r, saga.cost)
      modifies db, this`compensations, this`recorded
      ensures Sound(db.View(), saga.wallet, r, saga.cost) && NotCharged(HeldIn(db.View(), saga.wallet, r))
      ensures compensations == []
      ensures recorded == [] || (recorded == [Dispatched(r, saga)] && !recordingFails)
      ensures ClosedIn(db.View(), saga.wallet, r) || recorded == [Dispatched(r, saga)] || recordingFails
      ensures StartsClear(turns, saga.wallet) ==> ClosedIn(db.View(), saga.wallet, r) && recorded == []
    {
      var c := compensations[|compensations| - 1];
      compensations := compensations[..|compensations| - 1];
      var reply := Dispatch(saga, r, c, turns);
      if reply.None? || !reply.value.ReleaseReply? {
        if !recordingFails { recorded := recorded + [c]; }
      }
    }
  }

  // ----------------------------------------------------------------------- the handler

  datatype AskAiResult = AskAiResult(aiQueryId: Option<string>, answer: Option<string>, sources: seq<Source>,
                                     creditCost: int, balance: int)

  // What the environment does to one run.
  datatype Script = Script(reserve: seq<Turn>, rag: RagOutcome, close: seq<Turn>, undo: seq<Turn>, recordingFails: bool)

  ghost predicate ScriptOk(script: Script, w: Wallet, r: Rid, cost: int) {
    TurnsOk(script.reserve, w, r, cost) && TurnsOk(script.close, w, r, cost) && TurnsOk(script.undo, w, r, cost)
  }

  /** What a caller is told, against what the tables say: an answer was charged exactly what
      is reported, and is the one stored; without one nothing was charged, and the balance is
      the current one if this run released the hold, else one the wallet has had. */
  ghost predicate ReportFits(t: Tables, w: Wallet, r: Rid, question: string, cost: int, rag: RagOutcome,
                             result: AskAiResult) {
    && BalanceDrop(t.Stream(w), r) == result.creditCost
    && r in t.aiQueries
    && match rag {
      case Answered(summary, sources) =>
        && result.aiQueryId.Some? && result.answer == Some(summary) && result.sources == sources
           && result.creditCost == cost
        && AnsweredRow(t, w, r, AiQuery(result.aiQueryId.value, w, question, Some(summary), sources, cost, ANSWERED),
                       "AI query")
        && Fold(t.Stream(w)).StatusOf(r) == Some(COMMITTED)
        && result.balance == Fold(t.Stream(w)).balance
      case NoResults =>
        && result.answer == None && result.sources == [] && result.creditCost == 0
        && t.aiQueries[r].status == FAILED && t.aiQueries[r].creditCost == 0
        && BalanceOnceWas(t.Stream(w), result.balance)
        && (result.aiQueryId.Some? ==>
              && FailedRow(t, w, r, cost, question, result.aiQueryId.value, "NO_RESULTS")
              && result.balance == Fold(t.Stream(w)).balance)
        && Fold(t.Stream(w)).StatusOf(r) == Some(RELEASED)
      case _ => false
    }
  }

  /** The credit is there, and there is an answer or nothing to answer from. */
  predicate Answers(rag: RagOutcome, cost: int, available: int) {
    0 < cost <= available && (rag.Answered? || rag.NoResults?)
  }

  lemma DropFits(t: Tables, w: Wallet, r: Rid, cost: int)
    requires Sound(t, w, r, cost)
    ensures BalanceDrop(t.Stream(w), r) == (if Fold(t.Stream(w)).StatusOf(r) == Some(COMMITTED) then cost else 0)
    ensures forall v :: v != w ==> BalanceDrop(t.Stream(v), r) == 0
  {
    DropIsTheCharge(t.Stream(w), r);
    forall v | v != w
      ensures BalanceDrop(t.Stream(v), r) == 0
    {
      DropIsTheCharge(t.Stream(v), r);
      assert HeldIn(t, v, r).None?;
    }
  }

  class AskAiHandler {
    const creditCost: int

    constructor (creditCost: int)
      ensures this.creditCost == creditCost
    {
      this.creditCost := creditCost;
    }

    /** None is a throw. The compensation is registered the moment the hold exists, so a throw
        with nothing registered has made no hold. If nobody gets in the way, a run returns
        exactly if the credit was there and the knowledge base was not down. */
    method Execute(ctx: SagaContext, r: Rid, w: Wallet, question: string, script: Script)
      returns (result: Option<AskAiResult>)
      requires Sound(ctx.db.View(), w, r, creditCost) && HeldIn(ctx.db.View(), w, r).None?
      requires ScriptOk(script, w, r, creditCost) && ctx.compensations == []
      modifies ctx.db, ctx`compensations
      ensures Sound(ctx.db.View(), w, r, creditCost)
      ensures result.Some? ==> ReportFits(ctx.db.View(), w, r, question, creditCost, script.rag, result.value)
      ensures result.None? ==>
                if ctx.compensations == [] then HeldIn(ctx.db.View(), w, r).None?
                else ctx.compensations == [ReleaseCreditReservation(w, r, question, "AI_UNAVAILABLE")]
                     && PhaseFits(Compensating, HeldIn(ctx.db.View(), w, r))
      ensures StartsClear(script.reserve, w) ==>
                (ctx.compensations == [] <==> !(0 < creditCost <= Fold(old(ctx.db.View()).Stream(w)).Available()))
      ensures StartsClear(script.reserve, w) && StartsClear(script.close, w) ==>
                (result.Some? <==> Answers(script.rag, creditCost, Fold(old(ctx.db.View()).Stream(w)).Available()))
    {
      ghost var saga := Saga(w, question, creditCost, Reserving);
      var reply := ctx.Dispatch(saga, r, ReserveCredits(w, r, creditCost as real, "AI query"), script.reserve);
      if reply.None? || !reply.value.Held? { return None; }

      ctx.OnCompensate(ReleaseCreditReservation(w, r, question, "AI_UNAVAILABLE"));

      match script.rag
      case NoResults =>
        reply := ctx.Dispatch(saga.(phase := ReleasingEmpty), r,
                              ReleaseCreditReservation(w, r, question, "NO_RESULTS"), script.close);
        if reply.None? || !reply.value.ReleaseReply? { return None; }
        DropFits(ctx.db.View(), w, r, creditCost);
        result := Some(AskAiResult(reply.value.failedQueryId, None, [], 0, reply.value.balance));
      case Answered(summary, sources) =>
        reply := ctx.Dispatch(saga.(phase := Charging(summary, sources)), r,
                              CommitAiQuery(w, r, question, summary, sources, creditCost, "AI query"), script.close);
        if reply.None? || !reply.value.Charged? { return None; }
        DropFits(ctx.db.View(), w, r, creditCost);
        result := Some(AskAiResult(Some(reply.value.aiQueryId), Some(summary), sources, creditCost,
                                   reply.value.balance));
      case AiUnavailable => return None;
      case RagFailed => return None;
    }
  }

  /** A whole run under the bus. What it reports is what its reservation took from the balance,
      in this wallet and any other; if it throws, that is nothing, and a hold that is still
      open has its release on record, unless recording it failed too and only the sweeper is
      left. If nobody gets in the way it returns whenever it can, and leaves no hold open. */
  method RunSaga(handler: AskAiHandler, ctx: SagaContext, r: Rid, w: Wallet, question: string, script: Script)
    returns (result: Option<AskAiResult>)
    requires Sound(ctx.db.View(), w, r, handler.creditCost) && HeldIn(ctx.db.View(), w, r).None?
    requires ScriptOk(script, w, r, handler.creditCost) && ctx.compensations == [] && ctx.recorded == []
    modifies ctx.db, ctx
    ensures Sound(ctx.db.View(), w, r, handler.creditCost)
    ensures result.Some? ==> ReportFits(ctx.db.View(), w, r, question, handler.creditCost, script.rag, result.value)
    ensures BalanceDrop(ctx.db.View().Stream(w), r) == if result.Some? then result.value.creditCost else 0
    ensures forall v :: v != w ==> BalanceDrop(ctx.db.View().Stream(v), r) == 0
    ensures result.None? && Fold(ctx.db.View().Stream(w)).StatusOf(r) == Some(OPEN) ==>
              script.recordingFails || ctx.recorded == [ReleaseCreditReservation(w, r, question, "AI_UNAVAILABLE")]
    ensures StartsClear(script.reserve, w) && StartsClear(script.close, w) ==>
              (result.Some? <==>
                 Answers(script.rag, handler.creditCost, Fold(old(ctx.db.View()).Stream(w)).Available()))
    ensures StartsClear(script.undo, w) ==>
              Fold(ctx.db.View().Stream(w)).StatusOf(r) != Some(OPEN) && ctx.recorded == []
  {
    result := handler.Execute(ctx, r, w, question, script);
    if result.None? && ctx.compensations != [] {
      ctx.Compensate(Saga(w, question, handler.creditCost, Compensating), r, script.undo, script.recordingFails);
    }
    DropFits(ctx.db.View(), w, r, handler.creditCost);
  }
}
