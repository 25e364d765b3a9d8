/** What each command does, told in events, balances, rows and messages: when it goes through,
    what it leaves in every table, and what it answers. None of this mentions how a command is
    decided; reads may be outdated. */
module CreditCommands {
  import opened Foundations
  import opened CreditLedger
  import opened CreditTables
  import opened CreditBooks

  /** One row is added to the ledger of `w`, stamped `now`, and no other ledger changes. */
  ghost predicate Adds(t: Tables, t': Tables, w: Wallet, e: Event, now: int) {
    t'.Rows(w) == t.Rows(w) + [Row(e, now)] && forall v :: v != w ==> t'.Rows(v) == t.Rows(v)
  }

  lemma AddsToStream(t: Tables, t': Tables, w: Wallet, e: Event, now: int)
    requires Adds(t, t', w, e, now)
    ensures t'.Stream(w) == t.Stream(w) + [e] && Fold(t'.Stream(w)) == Apply(Fold(t.Stream(w)), e)
    ensures forall v :: v != w ==> t'.Stream(v) == t.Stream(v)
  {
    FoldSnoc(t.Stream(w), e);
  }

  lemma AppendAdds(t: Tables, w: Wallet, e: Event, now: int)
    ensures Adds(t, Appended(t, w, [e], now), w, e, now)
  {
    assert Stamp([e], now) == [Row(e, now)];
  }

  /** A command that decided to write gets through exactly on current reads. */
  lemma WriteOrConflict(t: Tables, c: Command, seen: seq<Event>, now: int, newId: string, e: Event)
    requires LedgerOk(t) && seen <= t.Stream(c.wallet) && (c.GrantCredits? ==> c.recipientIsMember)
    requires Decide(Fold(seen), OpOf(c)) == Raised(e)
    ensures seen != t.Stream(c.wallet) ==> Execute(t, c, seen, now, newId) == (t, ConcurrencyConflict)
    ensures seen == t.Stream(c.wallet) ==>
              var t1 := Appended(t, c.wallet, [e], now);
              && Execute(t, c, seen, now, newId) == Follow(t1, c, Apply(Fold(seen), e), e.amount, newId)
              && Adds(t, t1, c.wallet, e, now) && t1.aiQueries == t.aiQueries && t1.outbox == t.outbox
              && Fold(t1.Stream(c.wallet)) == Apply(Fold(seen), e)
              && e.version == |t.Stream(c.wallet)| + 1
  {
    AcceptedExecutes(t, c, seen, now, newId);
    NoClashMeansCurrent(t, c.wallet, seen, e);
    AppendAdds(t, c.wallet, e, now);
    AddsToStream(t, Appended(t, c.wallet, [e], now), c.wallet, e, now);
    LegalStreamSolvent(t.Stream(c.wallet), |t.Stream(c.wallet)|);
    assert t.Stream(c.wallet)[..|t.Stream(c.wallet)|] == t.Stream(c.wallet);
  }

  lemma PlainEvent(a: Account, e: Event)
    requires e.eventType in {CreditGranted, CreditRefunded, CreditSpent}
    ensures var b, n := Apply(a, e), (if e.eventType == CreditSpent then -e.amount else e.amount);
            b.balance == a.balance + n && b.Available() == a.Available() + n && b.reservations == a.reservations
  {
    assert Apply(a, e).OpenHolds() == a.OpenHolds();
  }

  lemma HoldEvent(a: Account, e: Event, r: Rid)
    requires e.reservationId == Some(r)
    requires e.eventType in {CreditReserved, CreditReservationCommitted, CreditReservationReleased}
    ensures Apply(a, e).Reserved() == a.Reserved()
            - (if a.StatusOf(r) == Some(OPEN) then a.reservations[r].amount else 0)
            + (if e.eventType == CreditReserved then e.amount else 0)
  {
    var hold := Apply(a, e).reservations[r];
    ReservedAfterNote(a, r, hold);
    assert Apply(a, e).OpenHolds() == Account(a.version, a.balance, a.reservations[r := hold]).OpenHolds();
  }

  /** A command that was refused has written nothing. */
  lemma RefusedExecutes(t: Tables, c: Command, seen: seq<Event>, now: int, newId: string, error: Error)
    requires Decide(Fold(seen), OpOf(c)) == Refused(error) && (c.GrantCredits? ==> c.recipientIsMember)
    ensures Execute(t, c, seen, now, newId) == (t, Rejected(error))
  {
  }

  lemma WholeAmount(x: real)
    ensures PositiveInteger(x) <==> x == x.Floor as real && x.Floor > 0
  {
  }

  // --------------------------------------------------------------------- grant and refund

  /** `n` credits have been added to the wallet by one event of type `kind`; nothing else about
      it has changed, and no row is written. */
  ghost predicate Gave(t: Tables, t': Tables, w: Wallet, kind: EventType, n: int, why: string, now: int) {
    var (before, after) := (Fold(t.Stream(w)), Fold(t'.Stream(w)));
    && Adds(t, t', w, Event(kind, |t.Stream(w)| + 1, n, why, None), now) && t'.aiQueries == t.aiQueries
    && after.balance == before.balance + n && after.Available() == before.Available() + n
    && after.reservations == before.reservations
  }

  lemma GrantWrites(t: Tables, w: Wallet, x: real, why: string, seen: seq<Event>, now: int, newId: string)
    requires LedgerOk(t) && seen <= t.Stream(w) && x == x.Floor as real && x.Floor > 0
    ensures var (t', reply) := Execute(t, GrantCredits(w, x, why, true), seen, now, newId);
            if seen == t.Stream(w) then
              var balance := Fold(t'.Stream(w)).balance;
              && Gave(t, t', w, CreditGranted, x.Floor, why, now)
              && t'.outbox == t.outbox + [Awarded(w, x, why, balance)] && reply == Balance(balance)
            else t' == t && reply == ConcurrencyConflict
  {
    var e := Event(CreditGranted, Fold(seen).version + 1, x.Floor, why, None);
    WholeAmount(x);
    WriteOrConflict(t, GrantCredits(w, x, why, true), seen, now, newId, e);
    PlainEvent(Fold(seen), e);
  }

  /** A grant adds what it says to a member's wallet, on current reads, and tells so. */
  lemma GrantGives(t: Tables, w: Wallet, x: real, why: string, isMember: bool, seen: seq<Event>, now: int,
                   newId: string)
    requires LedgerOk(t) && seen <= t.Stream(w)
    ensures var (t', reply) := Execute(t, GrantCredits(w, x, why, isMember), seen, now, newId);
            if isMember && x == x.Floor as real && x.Floor > 0 && seen == t.Stream(w) then
              var balance := Fold(t'.Stream(w)).balance;
              && Gave(t, t', w, CreditGranted, x.Floor, why, now)
              && t'.outbox == t.outbox + [Awarded(w, x, why, balance)] && reply == Balance(balance)
            else
              && t' == t
              && reply == if !isMember then MembershipNotFound
                          else if x != x.Floor as real || x.Floor <= 0 then Rejected(InvalidCreditAmount)
                          else ConcurrencyConflict
  {
    WholeAmount(x);
    if isMember {
      if x == x.Floor as real && x.Floor > 0 {
        GrantWrites(t, w, x, why, seen, now, newId);
      } else {
        RefusedExecutes(t, GrantCredits(w, x, why, true), seen, now, newId, InvalidCreditAmount);
      }
    }
  }

  /** A refund adds what it says. */
  lemma RefundGivesBack(t: Tables, w: Wallet, x: real, why: string, seen: seq<Event>, now: int, newId: string)
    requires LedgerOk(t) && seen <= t.Stream(w)
    ensures var (t', reply) := Execute(t, RefundCredits(w, x, why), seen, now, newId);
            if x == x.Floor as real && x.Floor > 0 && seen == t.Stream(w) then
              && Gave(t, t', w, CreditRefunded, x.Floor, why, now) && t'.outbox == t.outbox
              && reply == Balance(Fold(t'.Stream(w)).balance)
            else
              && t' == t
              && reply == if x != x.Floor as real || x.Floor <= 0 then Rejected(InvalidCreditAmount)
                          else ConcurrencyConflict
  {
    WholeAmount(x);
    if x == x.Floor as real && x.Floor > 0 {
      RefundWrites(t, w, x, why, seen, now, newId);
    } else {
      RefusedExecutes(t, RefundCredits(w, x, why), seen, now, newId, InvalidCreditAmount);
    }
  }

  lemma RefundWrites(t: Tables, w: Wallet, x: real, why: string, seen: seq<Event>, now: int, newId: string)
    requires LedgerOk(t) && seen <= t.Stream(w) && x == x.Floor as real && x.Floor > 0
    ensures var (t', reply) := Execute(t, RefundCredits(w, x, why), seen, now, newId);
            if seen == t.Stream(w) then
              && Gave(t, t', w, CreditRefunded, x.Floor, why, now) && t'.outbox == t.outbox
              && reply == Balance(Fold(t'.Stream(w)).balance)
            else t' == t && reply == ConcurrencyConflict
  {
    var e := Event(CreditRefunded, Fold(seen).version + 1, x.Floor, why, None);
    WholeAmount(x);
    WriteOrConflict(t, RefundCredits(w, x, why), seen, now, newId, e);
    PlainEvent(Fold(seen), e);
  }

  // ------------------------------------------------------------------- spend and reserve

  /** Why an amount cannot be taken or held, if it cannot. */
  function Objection(x: real, available: int): Option<Error> {
    if x != x.Floor as real || x.Floor <= 0 then Some(InvalidCreditAmount)
    else if x.Floor > available then Some(InsufficientCredits(available, x))
    else None
  }

  lemma Objected(a: Account, x: real, op: Op)
    requires (op.Spend? || op.Reserve?) && op.amount == x && Objection(x, a.Available()) != None
    ensures Decide(a, op) == Refused(Objection(x, a.Available()).value)
  {
    WholeAmount(x);
  }

  /** `n` credits have been taken from the wallet by one CreditSpent event, and no row or
      message is written. */
  ghost predicate Took(t: Tables, t': Tables, w: Wallet, n: int, why: string, now: int) {
    var (before, after) := (Fold(t.Stream(w)), Fold(t'.Stream(w)));
    && Adds(t, t', w, Event(CreditSpent, |t.Stream(w)| + 1, n, why, None), now)
    && t'.aiQueries == t.aiQueries && t'.outbox == t.outbox
    && after.balance == before.balance - n && after.Available() == before.Available() - n
    && after.reservations == before.reservations
  }

  /** What a spend of `x` on reads `seen` may leave and answer: it took the amount, on current
      reads that showed enough; or it wrote nothing, and says why. */
  ghost predicate SpendFits(t: Tables, t': Tables, reply: Reply, w: Wallet, x: real, why: string, seen: seq<Event>,
                            now: int) {
    var (n, available) := (x.Floor, Fold(seen).Available());
    if x == n as real && 0 < n <= available && seen == t.Stream(w) then
      Took(t, t', w, n, why, now) && reply == SpentReply(Fold(t'.Stream(w)).balance, x)
    else
      && t' == t
      && reply == if x != n as real || n <= 0 then Rejected(InvalidCreditAmount)
                  else if n > available then Rejected(InsufficientCredits(available, x))
                  else ConcurrencyConflict
  }

  lemma SpendWrites(t: Tables, w: Wallet, x: real, why: string, seen: seq<Event>, now: int, newId: string)
    requires LedgerOk(t) && seen <= t.Stream(w) && Objection(x, Fold(seen).Available()) == None
    ensures var (t', reply) := Execute(t, SpendCredits(w, x, why), seen, now, newId);
            SpendFits(t, t', reply, w, x, why, seen, now)
  {
    var e := Event(CreditSpent, Fold(seen).version + 1, x.Floor, why, None);
    WholeAmount(x);
    WriteOrConflict(t, SpendCredits(w, x, why), seen, now, newId, e);
    PlainEvent(Fold(seen), e);
  }

  lemma SpendObjectedFits(t: Tables, w: Wallet, x: real, why: string, seen: seq<Event>, now: int)
    requires Objection(x, Fold(seen).Available()) != None
    ensures SpendFits(t, t, Rejected(Objection(x, Fold(seen).Available()).value), w, x, why, seen, now)
  {
  }

  lemma SpendRefused(t: Tables, w: Wallet, x: real, why: string, seen: seq<Event>, now: int, newId: string)
    requires Objection(x, Fold(seen).Available()) != None
    ensures var (t', reply) := Execute(t, SpendCredits(w, x, why), seen, now, newId);
            SpendFits(t, t', reply, w, x, why, seen, now)
  {
    var error := Objection(x, Fold(seen).Available()).value;
    Objected(Fold(seen), x, Spend(x, why));
    SpendObjectedFits(t, w, x, why, seen, now);
    RefusedExecutes(t, SpendCredits(w, x, why), seen, now, newId, error);
  }

  /** A spend takes what it says if that much was available to it, and not otherwise. */
  lemma SpendTakes(t: Tables, w: Wallet, x: real, why: string, seen: seq<Event>, now: int, newId: string)
    requires LedgerOk(t) && seen <= t.Stream(w)
    ensures var (t', reply) := Execute(t, SpendCredits(w, x, why), seen, now, newId);
            SpendFits(t, t', reply, w, x, why, seen, now)
  {
    if Objection(x, Fold(seen).Available()) == None {
      SpendWrites(t, w, x, why, seen, now, newId);
    } else {
      SpendRefused(t, w, x, why, seen, now, newId);
    }
  }

  /** `n` credits are held OPEN under `r`, and nothing is written but the one event. */
  ghost predicate HoldsNow(t: Tables, t': Tables, w: Wallet, r: Rid, n: int, why: string, now: int) {
    var (before, after) := (Fold(t.Stream(w)), Fold(t'.Stream(w)));
    && Adds(t, t', w, Event(CreditReserved, |t.Stream(w)| + 1, n, why, Some(r)), now)
    && t'.aiQueries == t.aiQueries && t'.outbox == t.outbox
    && after.balance == before.balance && after.reservations == before.reservations[r := Hold(n, OPEN)]
    && (r !in before.reservations ==> after.Available() == before.Available() - n)
  }

  /** What a reserve may leave and answer, in the same way. */
  ghost predicate ReserveFits(t: Tables, t': Tables, reply: Reply, w: Wallet, r: Rid, x: real, why: string,
                              seen: seq<Event>, now: int) {
    var (n, available) := (x.Floor, Fold(seen).Available());
    if x == n as real && 0 < n <= available && seen == t.Stream(w) then
      HoldsNow(t, t', w, r, n, why, now) && reply == Held(Fold(t'.Stream(w)).Available())
    else
      && t' == t
      && reply == if x != n as real || n <= 0 then Rejected(InvalidCreditAmount)
                  else if n > available then Rejected(InsufficientCredits(available, x))
                  else ConcurrencyConflict
  }

  lemma ReserveWrites(t: Tables, w: Wallet, r: Rid, x: real, why: string, seen: seq<Event>, now: int, newId: string)
    requires LedgerOk(t) && seen <= t.Stream(w) && Objection(x, Fold(seen).Available()) == None
    ensures var (t', reply) := Execute(t, ReserveCredits(w, r, x, why), seen, now, newId);
            ReserveFits(t, t', reply, w, r, x, why, seen, now)
  {
    var e := Event(CreditReserved, Fold(seen).version + 1, x.Floor, why, Some(r));
    WholeAmount(x);
    WriteOrConflict(t, ReserveCredits(w, r, x, why), seen, now, newId, e);
    HoldEvent(Fold(seen), e, r);
  }

  lemma ReserveObjectedFits(t: Tables, w: Wallet, r: Rid, x: real, why: string, seen: seq<Event>, now: int)
    requires Objection(x, Fold(seen).Available()) != None
    ensures ReserveFits(t, t, Rejected(Objection(x, Fold(seen).Available()).value), w, r, x, why, seen, now)
  {
  }

  lemma ReserveRefused(t: Tables, w: Wallet, r: Rid, x: real, why: string, seen: seq<Event>, now: int, newId: string)
    requires Objection(x, Fold(seen).Available()) != None
    ensures var (t', reply) := Execute(t, ReserveCredits(w, r, x, why), seen, now, newId);
            ReserveFits(t, t', reply, w, r, x, why, seen, now)
  {
    var error := Objection(x, Fold(seen).Available()).value;
    Objected(Fold(seen), x, Reserve(r, x, why));
    ReserveObjectedFits(t, w, r, x, why, seen, now);
    RefusedExecutes(t, ReserveCredits(w, r, x, why), seen, now, newId, error);
  }

  /** A reserve holds what it says if that much was available: the balance stays, the hold is
      OPEN under its id, and under a fresh id that much less is available. */
  lemma ReserveHolds(t: Tables, w: Wallet, r: Rid, x: real, why: string, seen: seq<Event>, now: int, newId: string)
    requires LedgerOk(t) && seen <= t.Stream(w)
    ensures var (t', reply) := Execute(t, ReserveCredits(w, r, x, why), seen, now, newId);
            ReserveFits(t, t', reply, w, r, x, why, seen, now)
  {
    if Objection(x, Fold(seen).Available()) == None {
      ReserveWrites(t, w, r, x, why, seen, now, newId);
    } else {
      ReserveRefused(t, w, r, x, why, seen, now, newId);
    }
  }

  // ------------------------------------------------------------------ commit and release

  /** The id of the row about `r` once it has been recorded. */
  function RowId(t: Tables, r: Rid, newId: string): string {
    if r in t.aiQueries then t.aiQueries[r].id else newId
  }

  /** The held amount `n` has been charged by one event and the row holds the answer; what is
      available has not changed, since the amount was held already. */
  ghost predicate ChargedFor(t: Tables, t': Tables, w: Wallet, r: Rid, row: AiQuery, why: string, now: int)
    requires r in Fold(t.Stream(w)).reservations
  {
    var (before, after) := (Fold(t.Stream(w)), Fold(t'.Stream(w)));
    var n := before.reservations[r].amount;
    && Adds(t, t', w, Event(CreditReservationCommitted, |t.Stream(w)| + 1, n, why, Some(r)), now)
    && after.balance == before.balance - n && after.Available() == before.Available()
    && after.reservations == before.reservations[r := Hold(n, COMMITTED)]
    && t'.aiQueries == t.aiQueries[r := row]
    && t'.outbox == t.outbox + [Spent(w, row.creditCost, why, after.balance, r, row.id)]
  }

  /** The writes beside the ledger append leave the ledger alone. */
  lemma SameLedgerAdds(t: Tables, t1: Tables, t': Tables, w: Wallet, e: Event, now: int)
    requires Adds(t, t1, w, e, now) && t'.ledger == t1.ledger
    ensures Adds(t, t', w, e, now) && t'.Stream(w) == t1.Stream(w)
  {
    assert forall v :: t'.Rows(v) == t1.Rows(v);
  }

  lemma CommitFollows(t: Tables, c: Command, after: Account, amount: int, newId: string)
    requires c.CommitAiQuery?
    ensures var ((t', reply), id) := (Follow(t, c, after, amount, newId), RowId(t, c.rid, newId));
            && t'.ledger == t.ledger
            && t'.aiQueries
               == t.aiQueries[c.rid := AiQuery(id, c.wallet, c.question, Some(c.answer), c.sources, c.cost, ANSWERED)]
            && t'.outbox == t.outbox + [Spent(c.wallet, c.cost, c.reason, after.balance, c.rid, id)]
            && reply == Charged(id, after.balance)
  {
  }

  lemma ReleaseFollowed(t: Tables, c: Command, after: Account, amount: int, newId: string)
    requires c.ReleaseCreditReservation?
    ensures var ((t', reply), id) := (Follow(t, c, after, amount, newId), RowId(t, c.rid, newId));
            var snippet := if |c.question| <= 140 then c.question else c.question[..140];
            && t'.ledger == t.ledger
            && t'.aiQueries == t.aiQueries[c.rid := AiQuery(id, c.wallet, c.question, None, [], 0, FAILED)]
            && t'.outbox == t.outbox + [Released(c.wallet, amount, c.rid, id, c.reason, snippet)]
            && reply == ReleaseReply(true, after.balance, Some(id))
  {
  }

  lemma CommitWrites(t: Tables, w: Wallet, r: Rid, question: string, answer: string, sources: seq<Source>, cost: int,
                     why: string, now: int, newId: string)
    requires LedgerOk(t) && Fold(t.Stream(w)).StatusOf(r) == Some(OPEN)
    ensures var c := CommitAiQuery(w, r, question, answer, sources, cost, why);
            var ((t', reply), id) := (Execute(t, c, t.Stream(w), now, newId), RowId(t, r, newId));
            && ChargedFor(t, t', w, r, AiQuery(id, w, question, Some(answer), sources, cost, ANSWERED), why, now)
            && reply == Charged(id, Fold(t'.Stream(w)).balance)
  {
    var a := Fold(t.Stream(w));
    var e := Event(CreditReservationCommitted, a.version + 1, a.reservations[r].amount, why, Some(r));
    var c := CommitAiQuery(w, r, question, answer, sources, cost, why);
    WriteOrConflict(t, c, t.Stream(w), now, newId, e);
    CommitFollows(Appended(t, w, [e], now), c, Apply(a, e), e.amount, newId);
    SameLedgerAdds(t, Appended(t, w, [e], now), Execute(t, c, t.Stream(w), now, newId).0, w, e, now);
    HoldEvent(a, e, r);
  }

  lemma StaleCommit(t: Tables, c: Command, seen: seq<Event>, now: int, newId: string)
    requires LedgerOk(t) && seen <= t.Stream(c.wallet) && c.CommitAiQuery?
    requires Fold(seen).StatusOf(c.rid) != Some(OPEN) || seen != t.Stream(c.wallet)
    ensures Execute(t, c, seen, now, newId)
         == (t, if Fold(seen).StatusOf(c.rid) != Some(OPEN) then
                  Rejected(ReservationNotOpen(c.rid, Fold(seen).StatusOf(c.rid)))
                else ConcurrencyConflict)
  {
    if Fold(seen).StatusOf(c.rid) == Some(OPEN) {
      WriteOrConflict(t, c, seen, now, newId, Decide(Fold(seen), OpOf(c)).event);
    }
  }

  /** A commit charges what is held, stores the answer and says so. Without an OPEN hold it is
      refused, and on outdated reads it conflicts; then nothing is written. */
  lemma CommitCharges(t: Tables, w: Wallet, r: Rid, question: string, answer: string, sources: seq<Source>, cost: int,
                      why: string, seen: seq<Event>, now: int, newId: string)
    requires LedgerOk(t) && seen <= t.Stream(w)
    ensures var c := CommitAiQuery(w, r, question, answer, sources, cost, why);
            var ((t', reply), id, status) := (Execute(t, c, seen, now, newId), RowId(t, r, newId),
                                              Fold(seen).StatusOf(r));
            if status == Some(OPEN) && seen == t.Stream(w) then
              && ChargedFor(t, t', w, r, AiQuery(id, w, question, Some(answer), sources, cost, ANSWERED), why, now)
              && reply == Charged(id, Fold(t'.Stream(w)).balance)
            else
              && t' == t
              && reply == if status != Some(OPEN) then Rejected(ReservationNotOpen(r, status)) else ConcurrencyConflict
  {
    if Fold(seen).StatusOf(r) == Some(OPEN) && seen == t.Stream(w) {
      CommitWrites(t, w, r, question, answer, sources, cost, why, now, newId);
    } else {
      StaleCommit(t, CommitAiQuery(w, r, question, answer, sources, cost, why), seen, now, newId);
    }
  }

  /** The held amount `n` is available again, by one event; no balance has moved, and the row
      says the query failed and cost nothing. */
  ghost predicate GaveBack(t: Tables, t': Tables, w: Wallet, r: Rid, question: string, id: string, why: string,
                           now: int)
    requires r in Fold(t.Stream(w)).reservations
  {
    var (before, after) := (Fold(t.Stream(w)), Fold(t'.Stream(w)));
    var n := before.reservations[r].amount;
    && Adds(t, t', w, Event(CreditReservationReleased, |t.Stream(w)| + 1, n, why, Some(r)), now)
    && after.balance == before.balance && after.Available() == before.Available() + n
    && after.reservations == before.reservations[r := Hold(n, RELEASED)]
    && t'.aiQueries == t.aiQueries[r := AiQuery(id, w, question, None, [], 0, FAILED)]
    && t'.outbox == t.outbox + [Released(w, n, r, id, why, if |question| <= 140 then question else question[..140])]
  }

  lemma ReleaseWrites(t: Tables, w: Wallet, r: Rid, question: string, why: string, now: int, newId: string)
    requires LedgerOk(t) && Fold(t.Stream(w)).StatusOf(r) == Some(OPEN)
    ensures var c := ReleaseCreditReservation(w, r, question, why);
            var ((t', reply), id) := (Execute(t, c, t.Stream(w), now, newId), RowId(t, r, newId));
            && GaveBack(t, t', w, r, question, id, why, now)
            && reply == ReleaseReply(true, Fold(t'.Stream(w)).balance, Some(id))
  {
    var a := Fold(t.Stream(w));
    var e := Event(CreditReservationReleased, a.version + 1, a.reservations[r].amount, why, Some(r));
    var c := ReleaseCreditReservation(w, r, question, why);
    WriteOrConflict(t, c, t.Stream(w), now, newId, e);
    ReleaseFollowed(Appended(t, w, [e], now), c, Apply(a, e), e.amount, newId);
    SameLedgerAdds(t, Appended(t, w, [e], now), Execute(t, c, t.Stream(w), now, newId).0, w, e, now);
    HoldEvent(a, e, r);
  }

  lemma StaleRelease(t: Tables, c: Command, seen: seq<Event>, now: int, newId: string)
    requires LedgerOk(t) && seen <= t.Stream(c.wallet) && c.ReleaseCreditReservation?
    requires Fold(seen).StatusOf(c.rid) != Some(OPEN) || seen != t.Stream(c.wallet)
    ensures Execute(t, c, seen, now, newId)
         == (t, if Fold(seen).StatusOf(c.rid) != Some(OPEN) then ReleaseReply(false, Fold(seen).balance, None)
                else ConcurrencyConflict)
  {
    if Fold(seen).StatusOf(c.rid) == Some(OPEN) {
      WriteOrConflict(t, c, seen, now, newId, Decide(Fold(seen), OpOf(c)).event);
    }
  }

  /** A release gives back what is held and says so. Without an OPEN hold it does nothing and
      answers that; on outdated reads it conflicts. */
  lemma ReleaseGivesBack(t: Tables, w: Wallet, r: Rid, question: string, why: string, seen: seq<Event>, now: int,
                         newId: string)
    requires LedgerOk(t) && seen <= t.Stream(w)
    ensures var c := ReleaseCreditReservation(w, r, question, why);
            var ((t', reply), id, status) := (Execute(t, c, seen, now, newId), RowId(t, r, newId),
                                              Fold(seen).StatusOf(r));
            if status == Some(OPEN) && seen == t.Stream(w) then
              && GaveBack(t, t', w, r, question, id, why, now)
              && reply == ReleaseReply(true, Fold(t'.Stream(w)).balance, Some(id))
            else
              && t' == t
              && reply == if status != Some(OPEN) then ReleaseReply(false, Fold(seen).balance, None)
                          else ConcurrencyConflict
  {
    if Fold(seen).StatusOf(r) == Some(OPEN) && seen == t.Stream(w) {
      ReleaseWrites(t, w, r, question, why, now, newId);
    } else {
      StaleRelease(t, ReleaseCreditReservation(w, r, question, why), seen, now, newId);
    }
  }
}
