/** The aggregate itself: fields updated in place by `Apply`, new events collected in
    `uncommitted`. Every method is proved against the decisions of CreditLedger. */
module CreditAccounts {
  import opened Foundations
  import opened CreditLedger

  class CreditAccount {
    const wallet: Wallet
    var version: int
    var balance: int
    // Last state of every reservation ever seen, not only the open ones.
    var reservations: map<Rid, Hold>
    var uncommitted: seq<Event>
    ghost var stored: seq<Event>

    function State(): Account
      reads this
    {
      Account(version, balance, reservations)
    }

    /** The fields are at all times what replaying the stored events and then the
        uncommitted ones would give, and uncommitted versions count on from the stored one. */
    ghost predicate Valid()
      reads this
    {
      && State() == Fold(stored + uncommitted)
      && version == Fold(stored).version + |uncommitted|
      && forall i :: 0 <= i < |uncommitted| ==> uncommitted[i].version == Fold(stored).version + i + 1
    }

    constructor Open(wallet: Wallet)
      ensures Valid() && this.wallet == wallet
      ensures State() == Empty && stored == [] && uncommitted == []
    {
      this.wallet := wallet;
      version, balance, reservations := 0, 0, map[];
      uncommitted, stored := [], [];
    }

    static method Rehydrate(wallet: Wallet, events: seq<Event>) returns (account: CreditAccount)
      ensures fresh(account) && account.Valid() && account.wallet == wallet
      ensures account.stored == events && account.uncommitted == []
      ensures account.State() == Fold(events)
    {
      account := new CreditAccount.Open(wallet);
      for i := 0 to |events|
        invariant fresh(account) && account.wallet == wallet
        invariant account.State() == Fold(events[..i]) && account.uncommitted == []
      {
        account.ApplyEvent(events[i]);
        FoldSnoc(events[..i], events[i]);
        assert events[..i + 1] == events[..i] + [events[i]];
      }
      account.stored := events;
      assert events[..|events|] == events == events + [];
    }

    method ApplyEvent(e: Event)
      modifies this`version, this`balance, this`reservations
      ensures State() == Apply(old(State()), e)
    {
      version := e.version;
      match e.eventType
      case CreditGranted =>
        balance := balance + e.amount;
      case CreditRefunded =>
        balance := balance + e.amount;
      case CreditSpent =>
        balance := balance - e.amount;
      case CreditReserved =>
        SetReservation(e.reservationId, Hold(e.amount, OPEN));
      case CreditReservationCommitted =>
        balance := balance - e.amount;
        SetReservation(e.reservationId, Hold(e.amount, COMMITTED));
      case CreditReservationReleased =>
        SetReservation(e.reservationId, Hold(e.amount, RELEASED));
      case Unrecognised(_) =>
    }

    method SetReservation(id: Option<Rid>, hold: Hold)
      modifies this`reservations
      ensures reservations == Note(old(reservations), id, hold)
    {
      if id == None { return; }
      reservations := reservations[id.value := hold];
    }

    method Raise(t: EventType, amount: int, reason: string, id: Option<Rid>)
      requires Valid()
      modifies this
      ensures Valid() && stored == old(stored)
      ensures var e := Event(t, old(version) + 1, amount, reason, id);
              uncommitted == old(uncommitted) + [e] && State() == Apply(old(State()), e)
    {
      var e := Event(t, version + 1, amount, reason, id);
      ApplyEvent(e);
      FoldSnoc(stored + uncommitted, e);
      assert stored + (uncommitted + [e]) == (stored + uncommitted) + [e];
      uncommitted := uncommitted + [e];
    }

    /** Credits held by in-flight reservations, added up in whatever order the map gives. */
    method Reserved() returns (total: int)
      ensures total == State().Reserved()
    {
      total := 0;
      var rest := reservations;
      while rest != map[]
        invariant total + Account(version, balance, rest).Reserved() == State().Reserved()
        decreases |rest|
      {
        var r :| r in rest;
        ghost var before, after := Account(version, balance, rest), Account(version, balance, rest - {r});
        if rest[r].status == OPEN {
          total := total + rest[r].amount;
          TotalRemove(before.OpenHolds(), r);
          assert after.OpenHolds() == before.OpenHolds() - {r};
        } else {
          assert after.OpenHolds() == before.OpenHolds();
        }
        assert (rest - {r}).Keys == rest.Keys - {r};
        rest := rest - {r};
      }
      assert Account(version, balance, map[]).OpenHolds() == map[];
    }

    method Available() returns (available: int)
      ensures available == State().Available()
    {
      var reserved := Reserved();
      available := balance - reserved;
    }

    method Grant(amount: real, reason: string) returns (error: Option<Error>)
      requires Valid()
      modifies this
      ensures Valid() && Decided(old(State()), Op.Grant(amount, reason), old(uncommitted), error)
              && stored == old(stored)
    {
      if !PositiveInteger(amount) { return Some(InvalidCreditAmount); }
      Raise(CreditGranted, amount.Floor, reason, None);
      error := None;
    }

    method Refund(amount: real, reason: string) returns (error: Option<Error>)
      requires Valid()
      modifies this
      ensures Valid() && Decided(old(State()), Op.Refund(amount, reason), old(uncommitted), error)
              && stored == old(stored)
    {
      if !PositiveInteger(amount) { return Some(InvalidCreditAmount); }
      Raise(CreditRefunded, amount.Floor, reason, None);
      error := None;
    }

    method Spend(amount: real, reason: string) returns (error: Option<Error>)
      requires Valid()
      modifies this
      ensures Valid() && Decided(old(State()), Op.Spend(amount, reason), old(uncommitted), error)
              && stored == old(stored)
    {
      if !PositiveInteger(amount) { return Some(InvalidCreditAmount); }
      var available := Available();
      Shortage(amount, available);
      if amount > available as real { return Some(InsufficientCredits(available, amount)); }
      Raise(CreditSpent, amount.Floor, reason, None);
      error := None;
    }

    method Reserve(rid: Rid, amount: real, reason: string) returns (error: Option<Error>)
      requires Valid()
      modifies this
      ensures Valid() && Decided(old(State()), Op.Reserve(rid, amount, reason), old(uncommitted), error)
              && stored == old(stored)
    {
      if !PositiveInteger(amount) { return Some(InvalidCreditAmount); }
      var available := Available();
      Shortage(amount, available);
      if amount > available as real { return Some(InsufficientCredits(available, amount)); }
      Raise(CreditReserved, amount.Floor, reason, Some(rid));
      error := None;
    }

    method CommitReservation(rid: Rid, reason: string) returns (error: Option<Error>)
      requires Valid()
      modifies this
      ensures Valid() && Decided(old(State()), Op.CommitReservation(rid, reason), old(uncommitted), error)
              && stored == old(stored)
    {
      if rid !in reservations || reservations[rid].status != OPEN {
        return Some(ReservationNotOpen(rid, ReservationStatus(rid)));
      }
      Raise(CreditReservationCommitted, reservations[rid].amount, reason, Some(rid));
      error := None;
    }

    /** Returns whether there is an event worth saving; never fails. */
    method ReleaseReservation(rid: Rid, reason: string) returns (released: bool)
      requires Valid()
      modifies this
      ensures Valid() && Decided(old(State()), Op.ReleaseReservation(rid, reason), old(uncommitted), None)
              && stored == old(stored)
      ensures released <==> old(State()).StatusOf(rid) == Some(OPEN)
    {
      if rid !in reservations || reservations[rid].status != OPEN { return false; }
      Raise(CreditReservationReleased, reservations[rid].amount, reason, Some(rid));
      released := true;
    }

    function ReservationStatus(rid: Rid): Option<Status>
      reads this
    {
      State().StatusOf(rid)
    }

    /** The account, its uncommitted events and the reported error are what `Decide` says:
        a refused operation changed nothing at all. */
    ghost predicate Decided(before: Account, op: Op, raisedBefore: seq<Event>, error: Option<Error>)
      reads this
    {
      && State() == After(before, op)
      && uncommitted == raisedBefore + RaisedBy(before, op)
      && (raisedBefore == [] ==> uncommitted == RaisedBy(before, op))
      && error == match Decide(before, op) { case Refused(e) => Some(e) case _ => None }
    }
  }
}
