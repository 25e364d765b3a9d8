/** The tables the credit commands share (ledger, ai_queries, outbox) and what each command's
    transaction does to them. `Execute` is the specification as values; the handlers below it
    do the same work step by step on a `Transaction`. */
module CreditTables {
  import opened Foundations
  import opened CreditLedger
  import opened CreditAccounts

  datatype Source = Source(knowledgeItemId: string, title: string)

  datatype QueryStatus = ANSWERED | FAILED

  datatype AiQuery = AiQuery(id: string, wallet: Wallet, question: string, answer: Option<string>,
                             sources: seq<Source>, creditCost: int, status: QueryStatus)

  datatype Message =
    | Awarded(wallet: Wallet, granted: real, reason: string, balance: int)
    | Spent(wallet: Wallet, amount: int, reason: string, balance: int, reservationId: Rid, aiQueryId: string)
    | Released(wallet: Wallet, amount: int, reservationId: Rid, aiQueryId: string, reason: string,
               questionSnippet: string)

  const QUESTION_SNIPPET_MAX := 140

  function Snippet(question: string): string {
    if |question| <= QUESTION_SNIPPET_MAX then question else question[..QUESTION_SNIPPET_MAX]
  }

  datatype Tables = Tables(ledger: map<Wallet, seq<Row>>, aiQueries: map<Rid, AiQuery>, outbox: seq<Message>) {
    function Rows(w: Wallet): seq<Row> {
      if w in ledger then ledger[w] else []
    }

    function Stream(w: Wallet): seq<Event> {
      Events(Rows(w))
    }
  }

  const NoTables := Tables(map[], map[], [])

  datatype Command =
    | GrantCredits(wallet: Wallet, amount: real, reason: string, recipientIsMember: bool)
    | SpendCredits(wallet: Wallet, amount: real, reason: string)
    | RefundCredits(wallet: Wallet, amount: real, reason: string)
    | ReserveCredits(wallet: Wallet, rid: Rid, amount: real, reason: string)
    | CommitAiQuery(wallet: Wallet, rid: Rid, question: string, answer: string, sources: seq<Source>,
                    cost: int, reason: string)
    | ReleaseCreditReservation(wallet: Wallet, rid: Rid, question: string, reason: string)

  datatype Reply =
    | Balance(balance: int)
    | SpentReply(balance: int, spent: real)
    | Held(available: int)
    | Charged(aiQueryId: string, balance: int)
    | ReleaseReply(released: bool, balance: int, failedQueryId: Option<string>)
    | Rejected(error: Error)
    | MembershipNotFound
    | ConcurrencyConflict

  function OpOf(c: Command): Op {
    match c
    case GrantCredits(_, amount, reason, _) => Grant(amount, reason)
    case SpendCredits(_, amount, reason) => Spend(amount, reason)
    case RefundCredits(_, amount, reason) => Refund(amount, reason)
    case ReserveCredits(_, rid, amount, reason) => Reserve(rid, amount, reason)
    case CommitAiQuery(_, rid, _, _, _, _, reason) => CommitReservation(rid, reason)
    case ReleaseCreditReservation(_, rid, _, reason) => ReleaseReservation(rid, reason)
  }

  // -------------------------------------------------------------- single table writes

  /** The unique key on (aggregate, version): some row already has one of these versions. */
  predicate Clashes(rows: seq<Row>, events: seq<Event>) {
    exists i, j :: 0 <= i < |rows| && 0 <= j < |events| && rows[i].event.version == events[j].version
  }

  function Stamp(events: seq<Event>, now: int): seq<Row> {
    seq(|events|, i requires 0 <= i < |events| => Row(events[i], now))
  }

  function Appended(t: Tables, w: Wallet, events: seq<Event>, now: int): Tables {
    t.(ledger := t.ledger[w := t.Rows(w) + Stamp(events, now)])
  }

  /** Upsert keyed by reservation id: an existing row keeps its own id. */
  function Recorded(t: Tables, r: Rid, row: AiQuery): Tables {
    t.(aiQueries := t.aiQueries[r := if r in t.aiQueries then row.(id := t.aiQueries[r].id) else row])
  }

  function Sent(t: Tables, m: Message): Tables {
    t.(outbox := t.outbox + [m])
  }

  // ------------------------------------------------------------- one whole transaction

  /** What the transaction of `c` does to the tables `t` it commits against when its reads
      returned `seen`, and what it answers. Nothing of a failed one is kept. */
  ghost function Execute(t: Tables, c: Command, seen: seq<Event>, now: int, newId: string): (Tables, Reply) {
    var a := Fold(seen);
    if c.GrantCredits? && !c.recipientIsMember then (t, MembershipNotFound)
    else
      match Decide(a, OpOf(c))
      case Refused(error) => (t, Rejected(error))
      case NothingToDo => (t, ReleaseReply(false, a.balance, None))
      case Raised(e) =>
        if Clashes(t.Rows(c.wallet), [e]) then (t, ConcurrencyConflict)
        else Follow(Appended(t, c.wallet, [e], now), c, Apply(a, e), e.amount, newId)
  }

  /** The writes that share a transaction with the ledger append. */
  ghost function Follow(t: Tables, c: Command, after: Account, amount: int, newId: string): (Tables, Reply) {
    match c
    case GrantCredits(w, granted, reason, _) =>
      (Sent(t, Awarded(w, granted, reason, after.balance)), Balance(after.balance))
    case SpendCredits(_, spent, _) =>
      (t, SpentReply(after.balance, spent))
    case RefundCredits(_, _, _) =>
      (t, Balance(after.balance))
    case ReserveCredits(_, _, _, _) =>
      (t, Held(after.Available()))
    case CommitAiQuery(w, r, question, answer, sources, cost, reason) =>
      var t' := Recorded(t, r, AiQuery(newId, w, question, Some(answer), sources, cost, ANSWERED));
      var id := t'.aiQueries[r].id;
      (Sent(t', Spent(w, cost, reason, after.balance, r, id)), Charged(id, after.balance))
    case ReleaseCreditReservation(_, _, _, _) =>
      ReleaseFollows(t, c, after.balance, amount, newId)
  }

  function ReleaseFollows(t: Tables, c: Command, balance: int, amount: int, newId: string): (Tables, Reply)
    requires c.ReleaseCreditReservation?
  {
    var t' := Recorded(t, c.rid, AiQuery(newId, c.wallet, c.question, None, [], 0, FAILED));
    var id := t'.aiQueries[c.rid].id;
    (Sent(t', Released(c.wallet, amount, c.rid, id, c.reason, Snippet(c.question))),
     ReleaseReply(true, balance, Some(id)))
  }

  /** What the transaction of a command that decided to write does. */
  lemma AcceptedExecutes(t: Tables, c: Command, seen: seq<Event>, now: int, newId: string)
    requires Decide(Fold(seen), OpOf(c)).Raised? && (c.GrantCredits? ==> c.recipientIsMember)
    ensures var (raised, after) := (RaisedBy(Fold(seen), OpOf(c)), After(Fold(seen), OpOf(c)));
            && |raised| == 1
            && Execute(t, c, seen, now, newId) ==
               if Clashes(t.Rows(c.wallet), raised) then (t, ConcurrencyConflict)
               else Follow(Appended(t, c.wallet, raised, now), c, after, raised[0].amount, newId)
  {
  }

  lemma ReserveExecutes(t: Tables, c: Command, seen: seq<Event>, now: int, newId: string)
    requires c.ReserveCredits? && !Decide(Fold(seen), OpOf(c)).Refused?
    ensures var (raised, after) := (RaisedBy(Fold(seen), OpOf(c)), After(Fold(seen), OpOf(c)));
            && raised != []
            && Execute(t, c, seen, now, newId) ==
               if Clashes(t.Rows(c.wallet), raised) then (t, ConcurrencyConflict)
               else (Appended(t, c.wallet, raised, now), Held(after.Available()))
  {
    AcceptedExecutes(t, c, seen, now, newId);
  }

  lemma ReleaseExecutes(t: Tables, c: Command, seen: seq<Event>, now: int, newId: string)
    requires c.ReleaseCreditReservation? && Fold(seen).StatusOf(c.rid) == Some(OPEN)
    ensures var (raised, after) := (RaisedBy(Fold(seen), OpOf(c)), After(Fold(seen), OpOf(c)));
            && raised != [] && c.rid in after.reservations
            && Execute(t, c, seen, now, newId) ==
               if Clashes(t.Rows(c.wallet), raised) then (t, ConcurrencyConflict)
               else ReleaseFollows(Appended(t, c.wallet, raised, now), c, after.balance,
                                   after.reservations[c.rid].amount, newId)
  {
    AcceptedExecutes(t, c, seen, now, newId);
  }

  // ---------------------------------------------------------------- the same, in place

  class Database {
    var ledger: map<Wallet, seq<Row>>
    var aiQueries: map<Rid, AiQuery>
    var outbox: seq<Message>

    function View(): Tables
      reads this
    {
      Tables(ledger, aiQueries, outbox)
    }

    constructor ()
      ensures View() == NoTables
    {
      ledger, aiQueries, outbox := map[], map[], [];
    }
  }

  /** An open transaction. Its reads return the committed tables of some earlier moment,
      `view`; its writes meet the unique keys of the tables as they are now, `db`. */
  class Transaction {
    const db: Database
    const view: Tables
    const now: int
    const newId: string

    constructor (db: Database, view: Tables, now: int, newId: string)
      ensures this.db == db && this.view == view && this.now == now && this.newId == newId
    {
      this.db, this.view, this.now, this.newId := db, view, now, newId;
    }

    method LoadOrOpen(w: Wallet) returns (account: CreditAccount)
      ensures fresh(account) && account.Valid() && account.wallet == w
      ensures account.stored == view.Stream(w) && account.uncommitted == []
      ensures account.State() == Fold(view.Stream(w))
    {
      account := CreditAccount.Rehydrate(w, view.Stream(w));
    }

    /** Appends what the account raised, or reports that another writer has taken one of
        the versions and writes nothing. */
    method Save(account: CreditAccount) returns (ok: bool)
      modifies db
      ensures ok <==> !Clashes(old(db.View()).Rows(account.wallet), account.uncommitted)
      ensures db.View() == if !ok || account.uncommitted == [] then old(db.View())
                           else Appended(old(db.View()), account.wallet, account.uncommitted, now)
    {
      var events := account.uncommitted;
      if events == [] { return true; }
      if Clashes(db.View().Rows(account.wallet), events) { return false; }
      db.ledger := db.ledger[account.wallet := db.View().Rows(account.wallet) + Stamp(events, now)];
      ok := true;
    }

    method Record(r: Rid, row: AiQuery) returns (id: string)
      modifies db
      ensures db.View() == Recorded(old(db.View()), r, row) && id == db.aiQueries[r].id
    {
      if r in db.aiQueries {
        db.aiQueries := db.aiQueries[r := row.(id := db.aiQueries[r].id)];
      } else {
        db.aiQueries := db.aiQueries[r := row];
      }
      id := db.aiQueries[r].id;
    }

    method AppendOutbox(m: Message)
      modifies db
      ensures db.View() == Sent(old(db.View()), m)
    {
      db.outbox := db.outbox + [m];
    }

    ghost predicate Executed(before: Tables, c: Command, reply: Reply)
      reads this, db
    {
      (db.View(), reply) == Execute(before, c, view.Stream(c.wallet), now, newId)
    }

    // -------------------------------------------------------------------- handlers

    method Grant(wallet: Wallet, amount: real, reason: string, recipientIsMember: bool) returns (reply: Reply)
      modifies db
      ensures Executed(old(db.View()), GrantCredits(wallet, amount, reason, recipientIsMember), reply)
    {
      if !recipientIsMember { return MembershipNotFound; }
      var account := LoadOrOpen(wallet);
      var error := account.Grant(amount, reason);
      if error != None { return Rejected(error.value); }
      AcceptedExecutes(db.View(), GrantCredits(wallet, amount, reason, recipientIsMember), view.Stream(wallet), now,
                       newId);
      var ok := Save(account);
      if !ok { return ConcurrencyConflict; }
      AppendOutbox(Awarded(wallet, amount, reason, account.balance));
      reply := Balance(account.balance);
    }

    method Spend(wallet: Wallet, amount: real, reason: string) returns (reply: Reply)
      modifies db
      ensures Executed(old(db.View()), SpendCredits(wallet, amount, reason), reply)
    {
      var account := LoadOrOpen(wallet);
      var error := account.Spend(amount, reason);
      if error != None { return Rejected(error.value); }
      AcceptedExecutes(db.View(), SpendCredits(wallet, amount, reason), view.Stream(wallet), now, newId);
      var ok := Save(account);
      if !ok { return ConcurrencyConflict; }
      reply := SpentReply(account.balance, amount);
    }

    method Refund(wallet: Wallet, amount: real, reason: string) returns (reply: Reply)
      modifies db
      ensures Executed(old(db.View()), RefundCredits(wallet, amount, reason), reply)
    {
      var account := LoadOrOpen(wallet);
      var error := account.Refund(amount, reason);
      if error != None { return Rejected(error.value); }
      AcceptedExecutes(db.View(), RefundCredits(wallet, amount, reason), view.Stream(wallet), now, newId);
      var ok := Save(account);
      if !ok { return ConcurrencyConflict; }
      reply := Balance(account.balance);
    }

    method Reserve(wallet: Wallet, rid: Rid, amount: real, reason: string) returns (reply: Reply)
      modifies db
      ensures Executed(old(db.View()), ReserveCredits(wallet, rid, amount, reason), reply)
    {
      var account := LoadOrOpen(wallet);
      var error := account.Reserve(rid, amount, reason);
      if error != None { return Rejected(error.value); }
      ReserveExecutes(db.View(), ReserveCredits(wallet, rid, amount, reason), view.Stream(wallet), now, newId);
      var ok := Save(account);
      if !ok { return ConcurrencyConflict; }
      var available := account.Available();
      reply := Held(available);
    }

    method CommitQuery(wallet: Wallet, rid: Rid, question: string, answer: string, sources: seq<Source>,
                       cost: int, reason: string)
      returns (reply: Reply)
      modifies db
      ensures Executed(old(db.View()), CommitAiQuery(wallet, rid, question, answer, sources, cost, reason), reply)
    {
      var account := LoadOrOpen(wallet);
      var error := account.CommitReservation(rid, reason);
      if error != None { return Rejected(error.value); }
      AcceptedExecutes(db.View(), CommitAiQuery(wallet, rid, question, answer, sources, cost, reason),
                       view.Stream(wallet), now, newId);
      var ok := Save(account);
      if !ok { return ConcurrencyConflict; }
      var id := Record(rid, AiQuery(newId, wallet, question, Some(answer), sources, cost, ANSWERED));
      AppendOutbox(Spent(wallet, cost, reason, account.balance, rid, id));
      reply := Charged(id, account.balance);
    }

    method Release(wallet: Wallet, rid: Rid, question: string, reason: string) returns (reply: Reply)
      modifies db
      ensures Executed(old(db.View()), ReleaseCreditReservation(wallet, rid, question, reason), reply)
    {
      ghost var t, c := db.View(), ReleaseCreditReservation(wallet, rid, question, reason);
      var account := LoadOrOpen(wallet);
      var released := account.ReleaseReservation(rid, reason);
      if !released { return ReleaseReply(false, account.balance, None); }
      ReleaseExecutes(t, c, view.Stream(wallet), now, newId);
      ghost var raised := account.uncommitted;
      var ok := Save(account);
      if !ok { return ConcurrencyConflict; }
      var held := if rid in account.reservations then account.reservations[rid].amount else 0;
      var id := Record(rid, AiQuery(newId, wallet, question, None, [], 0, FAILED));
      AppendOutbox(Released(wallet, held, rid, id, reason, Snippet(question)));
      reply := ReleaseReply(true, account.balance, Some(id));
      assert (db.View(), reply) == ReleaseFollows(Appended(t, wallet, raised, now), c, account.balance, held, newId);
    }
  }
}
