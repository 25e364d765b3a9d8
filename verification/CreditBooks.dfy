/** What it means for the ledger, the ai_queries row and the outbox to tell one story about a
    reservation, and how one transaction moves that story on. */
module CreditBooks {
  import opened Foundations
  import opened CreditLedger
  import opened CreditTables

  ghost predicate LedgerOk(t: Tables) {
    forall w :: LegalStream(t.Stream(w)) && FreshIds(t.Stream(w))
  }

  ghost function HeldIn(t: Tables, w: Wallet, r: Rid): Option<Hold> {
    var a := Fold(t.Stream(w));
    if r in a.reservations then Some(a.reservations[r]) else None
  }

  predicate Concerns(m: Message, r: Rid) {
    (m.Spent? || m.Released?) && m.reservationId == r
  }

  function MessagesAbout(outbox: seq<Message>, r: Rid): seq<Message> {
    if outbox == [] then []
    else MessagesAbout(outbox[..|outbox| - 1], r) +
         (if Concerns(outbox[|outbox| - 1], r) then [outbox[|outbox| - 1]] else [])
  }

  lemma MessagesSnoc(outbox: seq<Message>, m: Message, r: Rid)
    ensures MessagesAbout(outbox + [m], r) == MessagesAbout(outbox, r) + (if Concerns(m, r) then [m] else [])
  {
    assert (outbox + [m])[..|outbox|] == outbox;
  }

  /** The three tables agree about a run that holds `cost` under `r` in wallet `w`:
      unknown or OPEN, there is no row and no message; COMMITTED, there is an ANSWERED row
      costing exactly what was held and one CreditSpent message that names it; RELEASED,
      a FAILED row costing nothing and one release message. */
  ghost predicate BooksAgree(t: Tables, w: Wallet, r: Rid, cost: int) {
    var held, ms := HeldIn(t, w, r), MessagesAbout(t.outbox, r);
    if held.None? || held.value.status == OPEN then
      && (held.Some? ==> held.value.amount == cost)
      && r !in t.aiQueries && ms == []
    else
      && held.value.amount == cost
      && r in t.aiQueries && t.aiQueries[r].wallet == w
      && |ms| == 1
      && if held.value.status == COMMITTED then
           && t.aiQueries[r].status == ANSWERED && t.aiQueries[r].creditCost == cost
           && ms[0].Spent? && ms[0].wallet == w && ms[0].amount == cost && ms[0].aiQueryId == t.aiQueries[r].id
         else
           && t.aiQueries[r].status == FAILED && t.aiQueries[r].creditCost == 0
           && ms[0].Released? && ms[0].wallet == w && ms[0].amount == cost && ms[0].aiQueryId == t.aiQueries[r].id
  }

  // ------------------------------------------------------------------ one transaction

  /** Reads that lag behind are caught: if no version clashes, the transaction has seen the
      whole stream, so it decided on the state it commits to. */
  lemma NoClashMeansCurrent(t: Tables, w: Wallet, seen: seq<Event>, e: Event)
    requires LegalStream(t.Stream(w)) && seen <= t.Stream(w)
    requires e.version == Fold(seen).version + 1
    ensures !Clashes(t.Rows(w), [e]) <==> seen == t.Stream(w)
  {
    var s := t.Stream(w);
    LegalStreamSolvent(s, |s|);
    assert s[..|s|] == s;
    LegalStreamSolvent(s, |seen|);
    assert s[..|seen|] == seen;
    if |seen| < |s| {
      assert t.Rows(w)[|seen|].event == s[|seen|];
      assert [e][0].version == t.Rows(w)[|seen|].event.version;
    } else {
      assert seen == s;
      forall i, j | 0 <= i < |t.Rows(w)| && 0 <= j < |[e]|
        ensures t.Rows(w)[i].event.version != [e][j].version
      {
        assert t.Rows(w)[i].event == s[i];
      }
    }
  }

  lemma AppendedStreams(t: Tables, w: Wallet, e: Event, now: int)
    ensures var t' := Appended(t, w, [e], now);
            && t'.Stream(w) == t.Stream(w) + [e]
            && (forall v :: v != w ==> t'.Stream(v) == t.Stream(v))
            && t'.aiQueries == t.aiQueries && t'.outbox == t.outbox
  {
  }

  /** A transaction that wrote anything had seen the latest stream of its wallet: it is the
      same as running the command alone, at this moment, on the tables as they are. */
  lemma WritesAreSerial(t: Tables, c: Command, seen: seq<Event>, now: int, newId: string)
    requires LedgerOk(t) && seen <= t.Stream(c.wallet)
    ensures var (t', reply) := Execute(t, c, seen, now, newId);
            t' != t ==>
              && seen == t.Stream(c.wallet)
              && (t', reply) == Execute(t, c, t.Stream(c.wallet), now, newId)
              && Decide(Fold(seen), OpOf(c)).Raised?
  {
    var a := Fold(seen);
    match Decide(a, OpOf(c))
    case Raised(e) => NoClashMeansCurrent(t, c.wallet, seen, e);
    case _ =>
  }

  /** The version key rejects exactly the transactions that decided to write on an outdated
      stream, and a rejected one has written nothing. */
  lemma ConflictIffStale(t: Tables, c: Command, seen: seq<Event>, now: int, newId: string)
    requires LedgerOk(t) && seen <= t.Stream(c.wallet)
    ensures var (t', reply) := Execute(t, c, seen, now, newId);
            && (reply.ConcurrencyConflict? <==>
                  !(c.GrantCredits? && !c.recipientIsMember) && Decide(Fold(seen), OpOf(c)).Raised?
                  && seen != t.Stream(c.wallet))
            && (reply.ConcurrencyConflict? ==> t' == t)
  {
    match Decide(Fold(seen), OpOf(c))
    case Raised(e) => NoClashMeansCurrent(t, c.wallet, seen, e);
    case _ =>
  }

  ghost predicate FreshFor(t: Tables, c: Command) {
    c.ReserveCredits? ==> HeldIn(t, c.wallet, c.rid).None?
  }

  /** The effect of a transaction that wrote, table by table. */
  ghost predicate Wrote(t: Tables, c: Command, e: Event, t': Tables) {
    && Decide(Fold(t.Stream(c.wallet)), OpOf(c)) == Raised(e)
    && t'.Stream(c.wallet) == t.Stream(c.wallet) + [e]
    && (forall v :: v != c.wallet ==> t'.Stream(v) == t.Stream(v))
    && match c {
      case CommitAiQuery(w, r, _, _, _, cost, _) =>
        && r in t'.aiQueries && t'.aiQueries == t.aiQueries[r := t'.aiQueries[r]]
        && t'.aiQueries[r].wallet == w && t'.aiQueries[r].status == ANSWERED && t'.aiQueries[r].creditCost == cost
        && |t'.outbox| == |t.outbox| + 1 && t'.outbox[..|t.outbox|] == t.outbox
        && var m := t'.outbox[|t.outbox|];
           m.Spent? && m.wallet == w && m.amount == cost && m.reservationId == r && m.aiQueryId == t'.aiQueries[r].id
      case ReleaseCreditReservation(w, r, _, _) =>
        && r in t'.aiQueries && t'.aiQueries == t.aiQueries[r := t'.aiQueries[r]]
        && t'.aiQueries[r].wallet == w && t'.aiQueries[r].status == FAILED && t'.aiQueries[r].creditCost == 0
        && |t'.outbox| == |t.outbox| + 1 && t'.outbox[..|t.outbox|] == t.outbox
        && var m := t'.outbox[|t.outbox|];
           m.Released? && m.wallet == w && m.amount == e.amount && m.reservationId == r
           && m.aiQueryId == t'.aiQueries[r].id
      case _ =>
        && t'.aiQueries == t.aiQueries
        && forall r :: MessagesAbout(t'.outbox, r) == MessagesAbout(t.outbox, r)
    }
  }

  lemma ExecuteEffect(t: Tables, c: Command, seen: seq<Event>, now: int, newId: string)
    requires LedgerOk(t) && seen <= t.Stream(c.wallet)
    ensures var t' := Execute(t, c, seen, now, newId).0;
            t' != t ==> Decide(Fold(t.Stream(c.wallet)), OpOf(c)).Raised?
                        && Wrote(t, c, Decide(Fold(t.Stream(c.wallet)), OpOf(c)).event, t')
  {
    WritesAreSerial(t, c, seen, now, newId);
    var t' := Execute(t, c, seen, now, newId).0;
    if t' != t {
      var e := Decide(Fold(seen), OpOf(c)).event;
      AppendedStreams(t, c.wallet, e, now);
      var t1 := Appended(t, c.wallet, [e], now);
      assert t' == Follow(t1, c, Apply(Fold(seen), e), e.amount, newId).0;
      forall v
        ensures t'.Stream(v) == t1.Stream(v)
      {
      }
      if c.GrantCredits? {
        forall r
          ensures MessagesAbout(t'.outbox, r) == MessagesAbout(t.outbox, r)
        {
          MessagesSnoc(t.outbox, t'.outbox[|t.outbox|], r);
        }
      }
    }
  }

  lemma DecisionIsLegal(s: seq<Event>, op: Op)
    requires LegalStream(s) && Decide(Fold(s), op).Raised?
    ensures Legal(Fold(s), Decide(Fold(s), op).event)
  {
    LegalStreamSolvent(s, |s|);
    assert s[..|s|] == s;
    DecideRaisesExactlyLegal(Fold(s), Decide(Fold(s), op).event);
  }

  lemma DecisionKeepsStreamOk(s: seq<Event>, op: Op)
    requires LegalStream(s) && FreshIds(s) && Decide(Fold(s), op).Raised?
    requires op.Reserve? ==> op.rid !in Fold(s).reservations
    ensures LegalStream(s + [Decide(Fold(s), op).event]) && FreshIds(s + [Decide(Fold(s), op).event])
  {
    DecisionIsLegal(s, op);
    SnocLegal(s, Decide(Fold(s), op).event);
  }

  /** A write keeps the ledger legal, provided a reservation id is not used twice. */
  lemma WroteKeepsLedgerOk(t: Tables, c: Command, e: Event, t': Tables)
    requires LedgerOk(t) && Wrote(t, c, e, t') && FreshFor(t, c)
    ensures LedgerOk(t')
  {
    DecisionKeepsStreamOk(t.Stream(c.wallet), OpOf(c));
    assert forall v :: v != c.wallet ==> t'.Stream(v) == t.Stream(v);
  }

  predicate IsAbout(c: Command, r: Rid) {
    (c.ReserveCredits? || c.CommitAiQuery? || c.ReleaseCreditReservation?) && c.rid == r
  }

  /** How a write moves the hold under `r` in wallet `w`. */
  ghost function NextHold(c: Command, w: Wallet, r: Rid, held: Option<Hold>, amount: int): Option<Hold> {
    if !IsAbout(c, r) || c.wallet != w then held
    else if c.ReserveCredits? then Some(Hold(amount, OPEN))
    else if c.CommitAiQuery? then Some(Hold(amount, COMMITTED))
    else Some(Hold(amount, RELEASED))
  }

  /** How the reservations of the wallet move under an operation that raised `amount`. */
  ghost predicate HoldsMove(holds: map<Rid, Hold>, holds': map<Rid, Hold>, op: Op, amount: int) {
    match op
    case Reserve(r, x, _) => holds' == holds[r := Hold(amount, OPEN)] && amount == x.Floor
    case CommitReservation(r, _) =>
      r in holds && holds[r] == Hold(amount, OPEN) && holds' == holds[r := Hold(amount, COMMITTED)]
    case ReleaseReservation(r, _) =>
      r in holds && holds[r] == Hold(amount, OPEN) && holds' == holds[r := Hold(amount, RELEASED)]
    case _ => holds' == holds
  }

  lemma DecisionMovesHolds(a: Account, op: Op)
    requires Decide(a, op).Raised?
    ensures HoldsMove(a.reservations, Apply(a, Decide(a, op).event).reservations, op, Decide(a, op).event.amount)
  {
  }

  lemma MovedHold(t: Tables, c: Command, amount: int, t': Tables, w: Wallet, r: Rid)
    requires HoldsMove(Fold(t.Stream(c.wallet)).reservations, Fold(t'.Stream(c.wallet)).reservations, OpOf(c), amount)
    requires w != c.wallet ==> t'.Stream(w) == t.Stream(w)
    ensures HeldIn(t', w, r) == NextHold(c, w, r, HeldIn(t, w, r), amount)
    ensures IsAbout(c, r) && c.wallet == w && !c.ReserveCredits? ==> HeldIn(t, w, r) == Some(Hold(amount, OPEN))
    ensures c.ReserveCredits? ==> amount == c.amount.Floor
  {
  }

  lemma WroteMovesHold(t: Tables, c: Command, e: Event, t': Tables, w: Wallet, r: Rid)
    requires Wrote(t, c, e, t')
    ensures HeldIn(t', w, r) == NextHold(c, w, r, HeldIn(t, w, r), e.amount)
    ensures IsAbout(c, r) && c.wallet == w && !c.ReserveCredits? ==> HeldIn(t, w, r) == Some(Hold(e.amount, OPEN))
    ensures c.ReserveCredits? ==> e.amount == c.amount.Floor
  {
    FoldSnoc(t.Stream(c.wallet), e);
    DecisionMovesHolds(Fold(t.Stream(c.wallet)), OpOf(c));
    MovedHold(t, c, e.amount, t', w, r);
  }

  /** A write about another reservation leaves this one's books alone; a write about it takes
      them from one agreeing state to the next. */
  lemma WroteKeepsBooks(t: Tables, c: Command, e: Event, t': Tables, w: Wallet, r: Rid, cost: int)
    requires Wrote(t, c, e, t') && BooksAgree(t, w, r, cost)
    requires IsAbout(c, r) ==> c.wallet == w
    requires IsAbout(c, r) && c.ReserveCredits? ==> c.amount == cost as real && HeldIn(t, w, r).None?
    requires IsAbout(c, r) && c.CommitAiQuery? ==> c.cost == cost
    ensures BooksAgree(t', w, r, cost)
  {
    WroteMovesHold(t, c, e, t', w, r);
    WroteMessages(t, c, e, t', r);
  }

  lemma WroteMessages(t: Tables, c: Command, e: Event, t': Tables, r: Rid)
    requires Wrote(t, c, e, t')
    ensures (c.CommitAiQuery? || c.ReleaseCreditReservation?) && c.rid == r ==>
              MessagesAbout(t'.outbox, r) == MessagesAbout(t.outbox, r) + [t'.outbox[|t.outbox|]]
    ensures !((c.CommitAiQuery? || c.ReleaseCreditReservation?) && c.rid == r) ==>
              MessagesAbout(t'.outbox, r) == MessagesAbout(t.outbox, r) && (r in t'.aiQueries <==> r in t.aiQueries)
              && (r in t.aiQueries ==> t'.aiQueries[r] == t.aiQueries[r])
  {
    if c.CommitAiQuery? || c.ReleaseCreditReservation? {
      assert t'.outbox == t.outbox + [t'.outbox[|t.outbox|]];
      MessagesSnoc(t.outbox, t'.outbox[|t.outbox|], r);
    }
  }

  lemma FollowKeepsLedger(t: Tables, c: Command, after: Account, amount: int, newId: string)
    ensures Follow(t, c, after, amount, newId).0.ledger == t.ledger
  {
  }

  ghost predicate Accepted(t: Tables, c: Command, seen: seq<Event>) {
    Decide(Fold(seen), OpOf(c)).Raised? && !Clashes(t.Rows(c.wallet), [Decide(Fold(seen), OpOf(c)).event])
  }

  lemma AcceptedMovesHold(t: Tables, c: Command, seen: seq<Event>, now: int, newId: string)
    requires LedgerOk(t) && seen <= t.Stream(c.wallet)
    requires (c.ReserveCredits? || c.CommitAiQuery?) && Accepted(t, c, seen)
    ensures var (t', reply) := Execute(t, c, seen, now, newId);
            && HeldIn(t', c.wallet, c.rid)
               == Some(Hold(Decide(Fold(seen), OpOf(c)).event.amount, if c.ReserveCredits? then OPEN else COMMITTED))
            && (if c.ReserveCredits? then reply.Held? else reply.Charged?)
  {
    var e := Decide(Fold(seen), OpOf(c)).event;
    NoClashMeansCurrent(t, c.wallet, seen, e);
    AppendedStreams(t, c.wallet, e, now);
    FollowKeepsLedger(Appended(t, c.wallet, [e], now), c, Apply(Fold(seen), e), e.amount, newId);
    FoldSnoc(seen, e);
  }

  lemma UnacceptedWritesNothing(t: Tables, c: Command, seen: seq<Event>, now: int, newId: string)
    requires (c.ReserveCredits? || c.CommitAiQuery?) && !Accepted(t, c, seen)
    ensures var (t', reply) := Execute(t, c, seen, now, newId);
            t' == t && !reply.Held? && !reply.Charged? && !reply.ReleaseReply?
  {
  }

  /** A reserve that answers Held has made the hold, a commit that answers Charged has charged
      it, and with any other answer they have written nothing. */
  lemma AnswerMeansWritten(t: Tables, c: Command, seen: seq<Event>, now: int, newId: string)
    requires LedgerOk(t) && seen <= t.Stream(c.wallet) && (c.ReserveCredits? || c.CommitAiQuery?)
    ensures var (t', reply) := Execute(t, c, seen, now, newId);
            && (reply.Held? || reply.Charged? ==>
                  var held := HeldIn(t', c.wallet, c.rid);
                  held.Some? && held.value.status == (if c.ReserveCredits? then OPEN else COMMITTED))
            && (!reply.Held? && !reply.Charged? ==> t' == t)
            && (reply.Held? ==> c.ReserveCredits?) && (reply.Charged? ==> c.CommitAiQuery?)
            && !reply.ReleaseReply?
  {
    if Accepted(t, c, seen) {
      AcceptedMovesHold(t, c, seen, now, newId);
    } else {
      UnacceptedWritesNothing(t, c, seen, now, newId);
    }
  }

  // ------------------------------------------------------- release, however often it runs

  /** A release that answers at all, having seen the hold, leaves it closed. */
  lemma ReleaseAnswerMeansClosed(t: Tables, c: Command, seen: seq<Event>, now: int, newId: string)
    requires LedgerOk(t) && seen <= t.Stream(c.wallet)
    requires c.ReleaseCreditReservation? && c.rid in Fold(seen).reservations
    requires Execute(t, c, seen, now, newId).1.ReleaseReply?
    ensures var held := HeldIn(Execute(t, c, seen, now, newId).0, c.wallet, c.rid);
            held.Some? && held.value.status != OPEN
  {
    var s := t.Stream(c.wallet);
    if Fold(seen).reservations[c.rid].status == OPEN {
      var e := Decide(Fold(seen), OpOf(c)).event;
      assert !Clashes(t.Rows(c.wallet), [e]);
      NoClashMeansCurrent(t, c.wallet, seen, e);
      var t' := Execute(t, c, seen, now, newId).0;
      AppendedStreams(t, c.wallet, e, now);
      assert t'.Stream(c.wallet) == s + [e];
      FoldSnoc(s, e);
    } else {
      assert s[..|seen|] == seen;
      ReservationsStable(s, |seen|, c.rid);
    }
  }

  ghost function Rerun(t: Tables, c: Command, times: nat, now: int, newId: string): Tables {
    if times == 0 then t
    else
      var before := Rerun(t, c, times - 1, now, newId);
      Execute(before, c, before.Stream(c.wallet), now, newId).0
  }

  lemma ReleasedIsNotOpen(t: Tables, c: Command, now: int, newId: string)
    requires c.ReleaseCreditReservation? && LegalStream(t.Stream(c.wallet))
    ensures var held := HeldIn(Execute(t, c, t.Stream(c.wallet), now, newId).0, c.wallet, c.rid);
            held.None? || held.value.status != OPEN
  {
    var s := t.Stream(c.wallet);
    match Decide(Fold(s), OpOf(c))
    case Raised(e) =>
      NoClashMeansCurrent(t, c.wallet, s, e);
      AppendedStreams(t, c.wallet, e, now);
      var t' := Execute(t, c, s, now, newId).0;
      assert t'.Stream(c.wallet) == s + [e];
      FoldSnoc(s, e);
    case _ =>
  }

  lemma ClosedReleaseDoesNothing(t: Tables, c: Command, now: int, newId: string)
    requires c.ReleaseCreditReservation?
    requires HeldIn(t, c.wallet, c.rid).None? || HeldIn(t, c.wallet, c.rid).value.status != OPEN
    ensures Execute(t, c, t.Stream(c.wallet), now, newId).0 == t
  {
  }

  lemma OnceThenNothing(t: Tables, c: Command, now: int, newId: string)
    requires c.ReleaseCreditReservation? && LegalStream(t.Stream(c.wallet))
    ensures var once := Execute(t, c, t.Stream(c.wallet), now, newId).0;
            Execute(once, c, once.Stream(c.wallet), now, newId).0 == once
  {
    ReleasedIsNotOpen(t, c, now, newId);
    ClosedReleaseDoesNothing(Execute(t, c, t.Stream(c.wallet), now, newId).0, c, now, newId);
  }

  lemma {:induction false} StaysPut(t: Tables, c: Command, times: nat, now: int, newId: string)
    requires times >= 1
    requires var once := Rerun(t, c, 1, now, newId); Execute(once, c, once.Stream(c.wallet), now, newId).0 == once
    ensures Rerun(t, c, times, now, newId) == Rerun(t, c, 1, now, newId)
  {
    if times > 1 {
      StaysPut(t, c, times - 1, now, newId);
    }
  }

  lemma RerunOnce(t: Tables, c: Command, now: int, newId: string)
    ensures Rerun(t, c, 1, now, newId) == Execute(t, c, t.Stream(c.wallet), now, newId).0
  {
    assert Rerun(t, c, 0, now, newId) == t;
  }

  /** Exactly once: running the release again, any number of times, changes neither ledger
      nor rows nor outbox after the first run, and nothing at all if the reservation was
      already closed, committed ones included. */
  lemma {:induction false} RerunReleaseIsIdempotent(t: Tables, c: Command, times: nat, now: int, newId: string)
    requires c.ReleaseCreditReservation? && LegalStream(t.Stream(c.wallet)) && times >= 1
    ensures Rerun(t, c, times, now, newId) == Rerun(t, c, 1, now, newId)
    ensures HeldIn(t, c.wallet, c.rid).None? || HeldIn(t, c.wallet, c.rid).value.status != OPEN ==>
              Rerun(t, c, times, now, newId) == t
  {
    RerunOnce(t, c, now, newId);
    OnceThenNothing(t, c, now, newId);
    StaysPut(t, c, times, now, newId);
    if HeldIn(t, c.wallet, c.rid).None? || HeldIn(t, c.wallet, c.rid).value.status != OPEN {
      ClosedReleaseDoesNothing(t, c, now, newId);
    }
  }
}
