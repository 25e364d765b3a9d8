/** The event-sourced wallet as values: the events of one wallet's stream, the state they
    fold to, what an operation decides on that state, and which streams those decisions can
    build. The class in CreditAccount.dfy is proved against these definitions. */
module CreditLedger {
  import opened Foundations

  type Rid = string

  // A wallet is scoped per user per organization.
  datatype Wallet = Wallet(orgId: string, userId: string)

  // The column behind the event type is an open-ended string, so a stream may hold others.
  datatype EventType =
    | CreditGranted
    | CreditSpent
    | CreditRefunded
    | CreditReserved
    | CreditReservationCommitted
    | CreditReservationReleased
    | Unrecognised(name: string)

  datatype Event = Event(eventType: EventType, version: int, amount: int, reason: string,
                         reservationId: Option<Rid>)

  // An event as stored: the row also carries the instant it was inserted.
  datatype Row = Row(event: Event, createdAt: int)

  function Events(rows: seq<Row>): seq<Event> {
    seq(|rows|, i requires 0 <= i < |rows| => rows[i].event)
  }

  datatype Status = OPEN | COMMITTED | RELEASED

  datatype Hold = Hold(amount: int, status: Status)

  datatype Account = Account(version: int, balance: int, reservations: map<Rid, Hold>) {

    /** What each OPEN reservation holds. */
    function OpenHolds(): map<Rid, int> {
      map r | r in reservations && reservations[r].status == OPEN :: reservations[r].amount
    }

    ghost function Reserved(): int {
      Total(OpenHolds())
    }

    ghost function Available(): int {
      balance - Reserved()
    }

    function StatusOf(r: Rid): Option<Status> {
      if r in reservations then Some(reservations[r].status) else None
    }

    predicate Closed(r: Rid) {
      r in reservations && reservations[r].status != OPEN
    }
  }

  const Empty := Account(0, 0, map[])

  // ------------------------------------------------------------------ folding a stream

  function Note(holds: map<Rid, Hold>, id: Option<Rid>, hold: Hold): map<Rid, Hold> {
    if id.None? then holds else holds[id.value := hold]
  }

  function Apply(a: Account, e: Event): Account {
    match e.eventType
    case CreditGranted => a.(version := e.version, balance := a.balance + e.amount)
    case CreditRefunded => a.(version := e.version, balance := a.balance + e.amount)
    case CreditSpent => a.(version := e.version, balance := a.balance - e.amount)
    case CreditReserved =>
      a.(version := e.version,
      reservations := Note(a.reservations, e.reservationId, Hold(e.amount, OPEN)))
    case CreditReservationCommitted =>
      a.(version := e.version, balance := a.balance - e.amount,
      reservations := Note(a.reservations, e.reservationId, Hold(e.amount, COMMITTED)))
    case CreditReservationReleased =>
      a.(version := e.version,
      reservations := Note(a.reservations, e.reservationId, Hold(e.amount, RELEASED)))
    case Unrecognised(_) => a.(version := e.version)
  }

  function FoldFrom(a: Account, s: seq<Event>): Account {
    if s == [] then a else Apply(FoldFrom(a, s[..|s| - 1]), s[|s| - 1])
  }

  function Fold(s: seq<Event>): Account {
    FoldFrom(Empty, s)
  }

  lemma FoldSnoc(s: seq<Event>, e: Event)
    ensures Fold(s + [e]) == Apply(Fold(s), e)
  {
    assert (s + [e])[..|s|] == s;
  }

  lemma {:induction false} FoldConcat(a: Account, s: seq<Event>, t: seq<Event>)
    ensures FoldFrom(a, s + t) == FoldFrom(FoldFrom(a, s), t)
  {
    if t == [] {
      assert s + t == s;
    } else {
      var t' := t[..|t| - 1];
      FoldConcat(a, s, t');
      assert (s + t)[..|s + t| - 1] == s + t';
    }
  }

  // ---------------------------------------------------------------------- decisions

  datatype Op =
    | Grant(amount: real, reason: string)
    | Spend(amount: real, reason: string)
    | Refund(amount: real, reason: string)
    | Reserve(rid: Rid, amount: real, reason: string)
    | CommitReservation(rid: Rid, reason: string)
    | ReleaseReservation(rid: Rid, reason: string)

  datatype Error =
    | InvalidCreditAmount
    | InsufficientCredits(available: int, requested: real)
    | ReservationNotOpen(rid: Rid, status: Option<Status>)

  datatype Decision = Raised(event: Event) | NothingToDo | Refused(error: Error)

  predicate PositiveInteger(x: real) {
    x.Floor as real == x && x > 0.0
  }

  lemma Shortage(x: real, available: int)
    requires PositiveInteger(x)
    ensures x > available as real <==> x.Floor > available
  {
  }

  ghost function Decide(a: Account, op: Op): Decision {
    match op
    case Grant(x, why) =>
      if !PositiveInteger(x) then Refused(InvalidCreditAmount)
      else Raised(Event(CreditGranted, a.version + 1, x.Floor, why, None))
    case Refund(x, why) =>
      if !PositiveInteger(x) then Refused(InvalidCreditAmount)
      else Raised(Event(CreditRefunded, a.version + 1, x.Floor, why, None))
    case Spend(x, why) =>
      if !PositiveInteger(x) then Refused(InvalidCreditAmount)
      else if x.Floor > a.Available() then Refused(InsufficientCredits(a.Available(), x))
      else Raised(Event(CreditSpent, a.version + 1, x.Floor, why, None))
    case Reserve(r, x, why) =>
      if !PositiveInteger(x) then Refused(InvalidCreditAmount)
      else if x.Floor > a.Available() then Refused(InsufficientCredits(a.Available(), x))
      else Raised(Event(CreditReserved, a.version + 1, x.Floor, why, Some(r)))
    case CommitReservation(r, why) =>
      if a.StatusOf(r) != Some(OPEN) then Refused(ReservationNotOpen(r, a.StatusOf(r)))
      else Raised(Event(CreditReservationCommitted, a.version + 1, a.reservations[r].amount, why, Some(r)))
    case ReleaseReservation(r, why) =>
      if a.StatusOf(r) != Some(OPEN) then NothingToDo
      else Raised(Event(CreditReservationReleased, a.version + 1, a.reservations[r].amount, why, Some(r)))
  }

  ghost function After(a: Account, op: Op): Account {
    match Decide(a, op)
    case Raised(e) => Apply(a, e)
    case _ => a
  }

  ghost function RaisedBy(a: Account, op: Op): seq<Event> {
    match Decide(a, op)
    case Raised(e) => [e]
    case _ => []
  }

  // -------------------------------------------------------------------- legal streams

  /** The rules of the ledger stated about events alone, without any operation: `e` may
      follow a stream that folds to `a`. */
  ghost predicate Legal(a: Account, e: Event) {
    && e.version == a.version + 1
    && e.amount > 0
    && match e.eventType {
      case CreditGranted => e.reservationId.None?
      case CreditRefunded => e.reservationId.None?
      case CreditSpent => e.reservationId.None? && e.amount <= a.Available()
      case CreditReserved => e.reservationId.Some? && e.amount <= a.Available()
      case CreditReservationCommitted => Closes(a, e)
      case CreditReservationReleased => Closes(a, e)
      case Unrecognised(_) => false
    }
  }

  ghost predicate Closes(a: Account, e: Event) {
    && e.reservationId.Some?
    && e.reservationId.value in a.reservations
    && a.reservations[e.reservationId.value] == Hold(e.amount, OPEN)
  }

  /** Every event was legal on the fold of exactly its own prefix. */
  ghost predicate LegalStream(s: seq<Event>) {
    forall i :: 0 <= i < |s| ==> Legal(Fold(s[..i]), s[i])
  }

  /** No reservation id is reserved twice: `randomUUID` never repeats. */
  ghost predicate FreshIds(s: seq<Event>) {
    forall i :: 0 <= i < |s| && s[i].eventType.CreditReserved? && s[i].reservationId.Some? ==>
      s[i].reservationId.value !in Fold(s[..i]).reservations
  }

  ghost predicate Solvent(a: Account) {
    && 0 <= a.Reserved() <= a.balance
    && forall r <- a.reservations :: a.reservations[r].amount > 0
  }

  lemma PrefixLegal(s: seq<Event>, n: nat)
    requires n <= |s|
    ensures LegalStream(s) ==> LegalStream(s[..n])
    ensures FreshIds(s) ==> FreshIds(s[..n])
  {
    forall i | 0 <= i < n
      ensures s[..n][..i] == s[..i] && s[..n][i] == s[i]
    {
    }
  }

  lemma SnocLegal(s: seq<Event>, e: Event)
    requires LegalStream(s) && Legal(Fold(s), e)
    ensures LegalStream(s + [e])
    ensures FreshIds(s) && (e.eventType.CreditReserved? && e.reservationId.Some? ==>
                              e.reservationId.value !in Fold(s).reservations)
            ==> FreshIds(s + [e])
  {
    var t := s + [e];
    forall i | 0 <= i < |t|
      ensures t[..i] == s[..i]
      ensures Legal(Fold(t[..i]), t[i])
    {
      assert t[..i] == s[..i];
      if i == |s| {
        assert s[..i] == s;
      }
    }
    assert s[..|s|] == s;
  }

  /** A decision raises exactly the events the rules allow: never an illegal one, and every
      legal one is what some operation raises. */
  lemma DecideRaisesExactlyLegal(a: Account, e: Event)
    requires forall r <- a.reservations :: a.reservations[r].amount > 0
    ensures (exists op :: Decide(a, op) == Raised(e)) <==> Legal(a, e)
  {
    if Legal(a, e) {
      var x := e.amount as real;
      assert x.Floor == e.amount;
      var op :=
        if e.eventType.CreditRefunded? then Refund(x, e.reason)
        else if e.eventType.CreditSpent? then Spend(x, e.reason)
        else if e.eventType.CreditReserved? then Reserve(e.reservationId.value, x, e.reason)
        else if e.eventType.CreditReservationCommitted? then CommitReservation(e.reservationId.value, e.reason)
        else if e.eventType.CreditReservationReleased? then ReleaseReservation(e.reservationId.value, e.reason)
        else Grant(x, e.reason);
      assert Decide(a, op) == Raised(e);
    }
    forall op | Decide(a, op) == Raised(e)
      ensures Legal(a, e)
    {
    }
  }

  lemma ReservedAfterNote(a: Account, r: Rid, hold: Hold)
    ensures Account(a.version, a.balance, a.reservations[r := hold]).Reserved()
         == a.Reserved()
            - (if a.StatusOf(r) == Some(OPEN) then a.reservations[r].amount else 0)
            + (if hold.status == OPEN then hold.amount else 0)
  {
    var before, after := a.OpenHolds(), Account(a.version, a.balance, a.reservations[r := hold]).OpenHolds();
    if hold.status == OPEN {
      TotalPut(before, r, hold.amount);
      assert after == before[r := hold.amount];
    } else {
      assert after == before - {r};
      if r in before {
        TotalRemove(before, r);
      } else {
        assert before - {r} == before;
      }
    }
  }

  /** `available >= 0` is never lost, whatever legal event comes next, even when a
      reservation id is used again. */
  lemma LegalKeepsSolvent(a: Account, e: Event)
    requires Solvent(a) && Legal(a, e)
    ensures Solvent(Apply(a, e))
  {
    var b := Apply(a, e);
    if e.reservationId.Some? {
      var r := e.reservationId.value;
      ReservedAfterNote(a, r, b.reservations[r]);
      assert b.OpenHolds() == Account(a.version, a.balance, b.reservations).OpenHolds();
      assert forall k <- b.OpenHolds() :: b.OpenHolds()[k] >= 0;
      TotalNonNegative(b.OpenHolds());
    } else {
      assert b.OpenHolds() == a.OpenHolds();
    }
  }

  lemma SolventSnoc(s: seq<Event>, e: Event)
    requires Solvent(Fold(s)) && Fold(s).version == |s| && Legal(Fold(s), e)
    ensures Solvent(Fold(s + [e])) && Fold(s + [e]).version == |s| + 1 && e.version == |s| + 1
  {
    var a := Fold(s);
    FoldSnoc(s, e);
    LegalKeepsSolvent(a, e);
  }

  lemma EmptySolvent()
    ensures Solvent(Fold([]))
  {
    assert Empty.OpenHolds() == map[];
  }

  /** At every prefix of a legal stream `0 <= reserved <= balance`, so `available >= 0`,
      and the version is the number of events. */
  lemma {:induction false} LegalStreamSolvent(s: seq<Event>, n: nat)
    requires LegalStream(s) && n <= |s|
    ensures Solvent(Fold(s[..n])) && Fold(s[..n]).Available() >= 0
    ensures Fold(s[..n]).version == n
    ensures forall i :: 0 <= i < n ==> s[i].version == i + 1
  {
    if n == 0 {
      EmptySolvent();
      assert s[..n] == [];
    } else {
      LegalStreamSolvent(s, n - 1);
      var prefix, e := s[..n - 1], s[n - 1];
      assert Legal(Fold(prefix), e);
      SolventSnoc(prefix, e);
      assert s[..n] == prefix + [e];
    }
  }

  // ------------------------------------------------------ the life of one reservation

  /** The events of `s` that carry reservation id `r`. */
  function About(s: seq<Event>, r: Rid): seq<Event> {
    if s == [] then []
    else About(s[..|s| - 1], r) + (if s[|s| - 1].reservationId == Some(r) then [s[|s| - 1]] else [])
  }

  lemma AboutSnoc(s: seq<Event>, e: Event, r: Rid)
    ensures About(s + [e], r) == About(s, r) + (if e.reservationId == Some(r) then [e] else [])
  {
    assert (s + [e])[..|s|] == s;
  }

  ghost predicate Is(e: Event, t: EventType, r: Rid, amount: int) {
    e.eventType == t && e.reservationId == Some(r) && e.amount == amount
  }

  /** What the stream says about `r` matches what the fold says, event by event: nothing;
      one Reserved; one Reserved and then exactly one close, for the amount held. */
  ghost predicate Lifecycle(s: seq<Event>, r: Rid) {
    var es, a := About(s, r), Fold(s);
    if r !in a.reservations then es == []
    else
      var amount := a.reservations[r].amount;
      && |es| == (if a.reservations[r].status == OPEN then 1 else 2)
      && Is(es[0], CreditReserved, r, amount)
      && (a.reservations[r].status == COMMITTED ==> Is(es[1], CreditReservationCommitted, r, amount))
      && (a.reservations[r].status == RELEASED ==> Is(es[1], CreditReservationReleased, r, amount))
  }

  lemma {:induction false} LegalLifecycle(s: seq<Event>, r: Rid)
    requires LegalStream(s) && FreshIds(s)
    ensures Lifecycle(s, r)
  {
    if s != [] {
      var n := |s| - 1;
      PrefixLegal(s, n);
      LegalLifecycle(s[..n], r);
      assert s == s[..n] + [s[n]];
      FoldSnoc(s[..n], s[n]);
      AboutSnoc(s[..n], s[n], r);
      assert Legal(Fold(s[..n]), s[n]);
    }
  }

  /** With ids that are never reused, a reservation is never forgotten, never changes its
      amount, and a closed one stays as it was closed. */
  lemma StepKeepsReservation(a: Account, e: Event, r: Rid)
    requires Legal(a, e) && r in a.reservations
    requires e.eventType.CreditReserved? && e.reservationId.Some? ==> e.reservationId.value !in a.reservations
    ensures r in Apply(a, e).reservations
    ensures Apply(a, e).reservations[r].amount == a.reservations[r].amount
    ensures a.Closed(r) ==> Apply(a, e).reservations[r] == a.reservations[r]
  {
  }

  lemma {:induction false} ReservationsStable(s: seq<Event>, n: nat, r: Rid)
    requires LegalStream(s) && FreshIds(s) && n <= |s|
    requires r in Fold(s[..n]).reservations
    ensures r in Fold(s).reservations
    ensures Fold(s).reservations[r].amount == Fold(s[..n]).reservations[r].amount
    ensures Fold(s[..n]).Closed(r) ==> Fold(s).reservations[r] == Fold(s[..n]).reservations[r]
    decreases |s|
  {
    if n < |s| {
      var m := |s| - 1;
      PrefixLegal(s, m);
      assert s[..m][..n] == s[..n];
      ReservationsStable(s[..m], n, r);
      assert Fold(s) == Apply(Fold(s[..m]), s[m]);
      assert Legal(Fold(s[..m]), s[m]);
      StepKeepsReservation(Fold(s[..m]), s[m], r);
    } else {
      assert s[..n] == s;
    }
  }

  /** How much of the balance a stream's events about `r` took away. */
  function BalanceDrop(s: seq<Event>, r: Rid): int {
    if s == [] then 0
    else
      var e := s[|s| - 1];
      BalanceDrop(s[..|s| - 1], r) - (if e.reservationId == Some(r) then Delta(e) else 0)
  }

  /** Signed effect of one event on the balance. */
  function Delta(e: Event): int {
    match e.eventType
    case CreditSpent => -e.amount
    case CreditReservationCommitted => -e.amount
    case CreditGranted => e.amount
    case CreditRefunded => e.amount
    case _ => 0
  }

  lemma ApplyMovesByDelta(a: Account, e: Event)
    ensures Apply(a, e).balance == a.balance + Delta(e)
  {
  }

  lemma BalanceMovesByDelta(s: seq<Event>, e: Event)
    ensures Fold(s + [e]).balance == Fold(s).balance + Delta(e)
  {
    var a := Fold(s);
    FoldSnoc(s, e);
    ApplyMovesByDelta(a, e);
  }

  function Charged(a: Account, r: Rid): int {
    if a.StatusOf(r) == Some(COMMITTED) then a.reservations[r].amount else 0
  }

  lemma LegalMovesCharge(a: Account, e: Event, r: Rid)
    requires Legal(a, e)
    requires e.eventType.CreditReserved? && e.reservationId.Some? ==> e.reservationId.value !in a.reservations
    ensures Charged(Apply(a, e), r) == Charged(a, r) - (if e.reservationId == Some(r) then Delta(e) else 0)
  {
  }

  lemma {:induction false} DropIsTheCharge(s: seq<Event>, r: Rid)
    requires LegalStream(s) && FreshIds(s)
    ensures BalanceDrop(s, r) == (if Fold(s).StatusOf(r) == Some(COMMITTED) then Fold(s).reservations[r].amount else 0)
  {
    if s != [] {
      var n := |s| - 1;
      PrefixLegal(s, n);
      DropIsTheCharge(s[..n], r);
      LegalMovesCharge(Fold(s[..n]), s[n], r);
      assert BalanceDrop(s, r) == Charged(Apply(Fold(s[..n]), s[n]), r);
    }
  }

  // -------------------------------------------------------------------------- sessions

  /** A run of operations on one loaded account: the state it ends in and what it raised. */
  ghost function Session(a: Account, ops: seq<Op>): (Account, seq<Event>) {
    if ops == [] then (a, [])
    else
      var (b, es) := Session(a, ops[..|ops| - 1]);
      (After(b, ops[|ops| - 1]), es + RaisedBy(b, ops[|ops| - 1]))
  }

  lemma DecisionVersions(b: Account, op: Op)
    ensures After(b, op).version == b.version + |RaisedBy(b, op)|
    ensures forall e <- RaisedBy(b, op) :: e.version == b.version + 1
  {
  }

  lemma SessionStep(stored: seq<Event>, b: Account, es: seq<Event>, op: Op)
    requires Fold(stored + es) == b
    ensures Fold(stored + (es + RaisedBy(b, op))) == After(b, op)
  {
    match Decide(b, op)
    case Raised(e) =>
      assert stored + (es + [e]) == (stored + es) + [e];
      FoldSnoc(stored + es, e);
    case _ =>
      assert es + [] == es;
  }

  /** Replay round trip: storing what a session raised and folding the whole stream again
      gives the state the session ended in. Versions are consecutive, and operations that
      were refused have left no trace: dropping them changes nothing. */
  lemma {:induction false} ReplayRoundTrip(stored: seq<Event>, ops: seq<Op>)
    ensures var (b, raised) := Session(Fold(stored), ops);
            && Fold(stored + raised) == b
            && b.version == Fold(stored).version + |raised|
            && forall i :: 0 <= i < |raised| ==> raised[i].version == Fold(stored).version + i + 1
  {
    if ops == [] {
      assert stored + [] == stored;
    } else {
      ReplayRoundTrip(stored, ops[..|ops| - 1]);
      var (b, es) := Session(Fold(stored), ops[..|ops| - 1]);
      SessionStep(stored, b, es, ops[|ops| - 1]);
      DecisionVersions(b, ops[|ops| - 1]);
    }
  }

  ghost function Accepted(a: Account, ops: seq<Op>): seq<Op> {
    if ops == [] then []
    else
      var b := Session(a, ops[..|ops| - 1]).0;
      Accepted(a, ops[..|ops| - 1]) + (if Decide(b, ops[|ops| - 1]).Raised? then [ops[|ops| - 1]] else [])
  }

  lemma {:induction false} RefusedLeaveNoTrace(a: Account, ops: seq<Op>)
    ensures Session(a, Accepted(a, ops)) == Session(a, ops)
    ensures |Session(a, ops).1| == |Accepted(a, ops)|
  {
    if ops != [] {
      var rest, last := ops[..|ops| - 1], ops[|ops| - 1];
      RefusedLeaveNoTrace(a, rest);
      var (b, es) := Session(a, rest);
      if Decide(b, last).Raised? {
        var kept := Accepted(a, rest);
        assert (kept + [last])[..|kept|] == kept;
      } else {
        assert es + [] == es;
        assert Accepted(a, rest) + [] == Accepted(a, rest);
      }
    }
  }

  /** Whatever is decided on a legal stream extends it to a legal stream. */
  lemma {:induction false} SessionStaysLegal(stored: seq<Event>, ops: seq<Op>)
    requires LegalStream(stored)
    ensures LegalStream(stored + Session(Fold(stored), ops).1)
  {
    if ops == [] {
      assert stored + [] == stored;
    } else {
      SessionStaysLegal(stored, ops[..|ops| - 1]);
      ReplayRoundTrip(stored, ops[..|ops| - 1]);
      var (b, es) := Session(Fold(stored), ops[..|ops| - 1]);
      match Decide(b, ops[|ops| - 1])
      case Raised(e) =>
        assert stored + (es + [e]) == (stored + es) + [e];
        LegalStreamSolvent(stored + es, |stored + es|);
        assert (stored + es)[..|stored + es|] == stored + es;
        DecideRaisesExactlyLegal(b, e);
        SnocLegal(stored + es, e);
      case _ =>
        assert es + [] == es;
    }
  }
}
