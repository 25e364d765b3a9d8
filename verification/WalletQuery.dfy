/** The read side: a second, hand-written fold of the same stream, and the recent entries. */
module WalletQuery {
  import opened Foundations
  import opened CreditLedger

  datatype Entry = Entry(eventType: EventType, delta: int, reason: string, version: int, occurredAt: int)

  datatype WalletDto = WalletDto(balance: int, available: int, reserved: int, totalGranted: int,
                                 totalSpent: int, totalRefunded: int, entries: seq<Entry>)

  function WalletDelta(t: EventType, amount: int): int {
    match t
    case CreditSpent => -amount
    case CreditReservationCommitted => -amount
    case CreditGranted => amount
    case CreditRefunded => amount
    case _ => 0
  }

  function ToEntry(row: Row): Entry {
    Entry(row.event.eventType, WalletDelta(row.event.eventType, row.event.amount), row.event.reason,
          row.event.version, row.createdAt)
  }

  /** Where `rows.slice(-limit)` starts in a list of `n` rows. Note that `-0` is `0`. */
  function SliceStart(n: nat, limit: int): nat {
    if limit > 0 then (if n <= limit then 0 else n - limit)
    else (if -limit <= n then -limit else n)
  }

  function Recent(rows: seq<Row>, limit: int): seq<Entry> {
    var kept := rows[SliceStart(|rows|, limit)..];
    seq(|kept|, i requires 0 <= i < |kept| => ToEntry(kept[|kept| - 1 - i]))
  }

  ghost function SumDeltas(entries: seq<Entry>): int {
    if entries == [] then 0 else entries[0].delta + SumDeltas(entries[1..])
  }

  function SumAmounts(s: seq<Event>, types: set<EventType>): int {
    if s == [] then 0
    else SumAmounts(s[..|s| - 1], types) + (if s[|s| - 1].eventType in types then s[|s| - 1].amount else 0)
  }

  lemma SumAmountsSnoc(s: seq<Event>, e: Event, types: set<EventType>)
    ensures SumAmounts(s + [e], types) == SumAmounts(s, types) + (if e.eventType in types then e.amount else 0)
  {
    assert (s + [e])[..|s|] == s;
  }

  /** Fold parity, one row at a time: `open` is the OPEN part of the aggregate's map before
      the row and after it, for any row at all. */
  lemma OpenMapParity(a: Account, e: Event, open: map<Rid, int>)
    requires open == a.OpenHolds()
    ensures e.eventType.CreditReserved? && e.reservationId.Some? ==>
              Apply(a, e).OpenHolds() == open[e.reservationId.value := e.amount]
    ensures (e.eventType.CreditReservationCommitted? || e.eventType.CreditReservationReleased?)
            && e.reservationId.Some? ==>
              Apply(a, e).OpenHolds() == open - {e.reservationId.value}
    ensures e.reservationId.None?
            || !(e.eventType.CreditReserved? || e.eventType.CreditReservationCommitted?
                 || e.eventType.CreditReservationReleased?) ==>
              Apply(a, e).OpenHolds() == open
  {
  }

  /** Fold parity: on every stream whatsoever the wallet a user sees has the balance, the
      reserved and the available credit the aggregate authorizes spending against. The
      totals are the sums over their event types, and account for the balance. */
  method GetWallet(rows: seq<Row>, recentLimit: int) returns (dto: WalletDto)
    ensures var a := Fold(Events(rows));
            dto.balance == a.balance && dto.reserved == a.Reserved() && dto.available == a.Available()
    ensures dto.totalGranted == SumAmounts(Events(rows), {CreditGranted})
    ensures dto.totalRefunded == SumAmounts(Events(rows), {CreditRefunded})
    ensures dto.totalSpent == SumAmounts(Events(rows), {CreditSpent, CreditReservationCommitted})
    ensures dto.balance == dto.totalGranted + dto.totalRefunded - dto.totalSpent
    ensures dto.entries == Recent(rows, recentLimit)
  {
    var balance, totalGranted, totalSpent, totalRefunded := 0, 0, 0, 0;
    var openReservations: map<Rid, int> := map[];
    ghost var s := Events(rows);
    for i := 0 to |rows|
      invariant balance == Fold(s[..i]).balance
      invariant openReservations == Fold(s[..i]).OpenHolds()
      invariant totalGranted == SumAmounts(s[..i], {CreditGranted})
      invariant totalRefunded == SumAmounts(s[..i], {CreditRefunded})
      invariant totalSpent == SumAmounts(s[..i], {CreditSpent, CreditReservationCommitted})
      invariant balance == totalGranted + totalRefunded - totalSpent
    {
      var Event(eventType, _, amount, _, reservationId) := rows[i].event;
      assert s[..i + 1] == s[..i] + [rows[i].event];
      FoldSnoc(s[..i], rows[i].event);
      OpenMapParity(Fold(s[..i]), rows[i].event, openReservations);
      SumAmountsSnoc(s[..i], rows[i].event, {CreditGranted});
      SumAmountsSnoc(s[..i], rows[i].event, {CreditRefunded});
      SumAmountsSnoc(s[..i], rows[i].event, {CreditSpent, CreditReservationCommitted});
      match eventType
      case CreditGranted =>
        balance, totalGranted := balance + amount, totalGranted + amount;
      case CreditRefunded =>
        balance, totalRefunded := balance + amount, totalRefunded + amount;
      case CreditSpent =>
        balance, totalSpent := balance - amount, totalSpent + amount;
      case CreditReserved =>
        if reservationId != None { openReservations := openReservations[reservationId.value := amount]; }
      case CreditReservationCommitted =>
        balance, totalSpent := balance - amount, totalSpent + amount;
        if reservationId != None { openReservations := openReservations - {reservationId.value}; }
      case CreditReservationReleased =>
        if reservationId != None { openReservations := openReservations - {reservationId.value}; }
      case Unrecognised(_) =>
    }
    assert s[..|rows|] == s;

    var reserved := SumValues(openReservations);
    dto := WalletDto(balance, balance - reserved, reserved, totalGranted, totalSpent, totalRefunded,
                     Recent(rows, recentLimit));
  }

  method SumValues(m: map<Rid, int>) returns (sum: int)
    ensures sum == Total(m)
  {
    sum := 0;
    var rest := m;
    while rest != map[]
      invariant sum + Total(rest) == Total(m)
      decreases |rest|
    {
      var r :| r in rest;
      TotalRemove(rest, r);
      assert (rest - {r}).Keys == rest.Keys - {r};
      sum, rest := sum + rest[r], rest - {r};
    }
  }

  /** The entries shown, newest first, add up to the final balance minus the balance at the
      prefix they leave out, for every limit. */
  lemma {:induction false} EntriesSumToBalanceChange(rows: seq<Row>, limit: int)
    ensures SumDeltas(Recent(rows, limit))
         == Fold(Events(rows)).balance - Fold(Events(rows[..SliceStart(|rows|, limit)])).balance
  {
    var start := SliceStart(|rows|, limit);
    var es := Recent(rows, limit);
    NewestFirst(rows, start, es);
  }

  lemma {:induction false} NewestFirst(rows: seq<Row>, start: nat, es: seq<Entry>)
    requires start <= |rows| && |es| == |rows| - start
    requires forall i :: 0 <= i < |es| ==> es[i] == ToEntry(rows[|rows| - 1 - i])
    ensures SumDeltas(es) == Fold(Events(rows)).balance - Fold(Events(rows[..start])).balance
    decreases |es|
  {
    if es == [] {
      assert rows[..start] == rows;
    } else {
      var n := |rows| - 1;
      var older := rows[..n];
      NewestFirst(older, start, es[1..]);
      assert older[..start] == rows[..start];
      assert Events(rows) == Events(older) + [rows[n].event];
      BalanceMovesByDelta(Events(older), rows[n].event);
    }
  }

  /** On every stream, whatever the limit: the entries go backwards from the last row, and each
      says what its row says, with the amount as the balance felt it. */
  lemma EntriesTellTheRows(rows: seq<Row>, limit: int, i: nat)
    requires i < |Recent(rows, limit)|
    ensures i < |rows|
    ensures var (entry, row) := (Recent(rows, limit)[i], rows[|rows| - 1 - i]);
            && entry.eventType == row.event.eventType && entry.reason == row.event.reason
            && entry.version == row.event.version && entry.occurredAt == row.createdAt
            && entry.delta == if row.event.eventType in {CreditGranted, CreditRefunded} then row.event.amount
                              else if row.event.eventType in {CreditSpent, CreditReservationCommitted}
                                   then -row.event.amount
                              else 0
  {
    var kept := rows[SliceStart(|rows|, limit)..];
    assert kept[|kept| - 1 - i] == rows[|rows| - 1 - i];
    assert Recent(rows, limit)[i] == ToEntry(rows[|rows| - 1 - i]);
  }

  /** On a legal stream the entries are the latest versions, in descending order. */
  lemma RecentAreTheLatest(rows: seq<Row>, limit: int)
    requires LegalStream(Events(rows))
    ensures forall i :: 0 <= i < |Recent(rows, limit)| ==> Recent(rows, limit)[i].version == |rows| - i
  {
    LegalStreamSolvent(Events(rows), |rows|);
    forall i | 0 <= i < |Recent(rows, limit)|
      ensures Recent(rows, limit)[i].version == |rows| - i
    {
      var kept, k := rows[SliceStart(|rows|, limit)..], |rows| - 1 - i;
      assert kept[|kept| - 1 - i] == rows[k];
      assert Recent(rows, limit)[i] == ToEntry(rows[k]);
      assert Events(rows)[k].version == k + 1;
    }
  }

  /** "Bounded to recentLimit" is what callers get for every limit of at least one, and for
      no other limit unless the wallet is empty and the limit is zero: `slice(-0)` is the
      whole list. The one caller passes 50. */
  lemma RecentBoundedIff(rows: seq<Row>, limit: int)
    ensures |Recent(rows, limit)| <= limit <==> (limit >= 1 || (limit == 0 && rows == []))
    ensures limit >= 1 ==> |Recent(rows, limit)| == if |rows| <= limit then |rows| else limit
    ensures Recent(rows, 0) == Recent(rows, |rows|)
    ensures limit < 0 ==> |Recent(rows, limit)| == if |rows| <= -limit then 0 else |rows| + limit
  {
  }
}
