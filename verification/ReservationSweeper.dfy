/** The recovery path for holds nobody will ever close: a relational query over the ledger
    rows, and a loop that releases what it found. */
module ReservationSweeper {
  import opened Foundations
  import opened CreditLedger
  import opened CreditTables
  import opened CreditBooks

  const BATCH_SIZE: nat := 50

  datatype StaleRow = StaleRow(wallet: Wallet, rid: Rid)

  predicate ReservesId(e: Event, r: Rid) {
    e.eventType == CreditReserved && e.reservationId == Some(r)
  }

  predicate ClosesId(e: Event, r: Rid) {
    (e.eventType == CreditReservationCommitted || e.eventType == CreditReservationReleased)
    && e.reservationId == Some(r)
  }

  predicate HasReserve(s: seq<Event>, r: Rid) {
    exists i :: 0 <= i < |s| && ReservesId(s[i], r)
  }

  predicate HasClose(s: seq<Event>, r: Rid) {
    exists i :: 0 <= i < |s| && ClosesId(s[i], r)
  }

  /** Row `i` is one the query returns: reserved before the cutoff, and no close anywhere in
      the wallet with its id. An id that is NULL equals nothing, so such a row has no close. */
  predicate Found(rows: seq<Row>, i: nat, cutoff: int)
    requires i < |rows|
  {
    var e := rows[i].event;
    && e.eventType == CreditReserved && rows[i].createdAt < cutoff
    && (e.reservationId.Some? ==> !HasClose(Events(rows), e.reservationId.value))
  }

  /** The query without its LIMIT, as positions in the ledger. */
  function FoundRows(t: Tables, cutoff: int): set<(Wallet, nat)> {
    set w, i: nat | w in t.ledger && 0 <= i < |t.ledger[w]| && Found(t.ledger[w], i, cutoff) :: (w, i)
  }

  function IdAt(t: Tables, w: Wallet, i: nat): Option<Rid>
    requires i < |t.Rows(w)|
  {
    t.Rows(w)[i].event.reservationId
  }

  // ----------------------------------------------------- the query against the fold

  lemma CloseSnoc(s: seq<Event>, e: Event, r: Rid)
    ensures HasClose(s + [e], r) <==> HasClose(s, r) || ClosesId(e, r)
  {
    if HasClose(s, r) {
      var i :| 0 <= i < |s| && ClosesId(s[i], r);
      assert ClosesId((s + [e])[i], r);
    }
    if ClosesId(e, r) {
      assert ClosesId((s + [e])[|s|], r);
    }
  }

  lemma ReserveSnoc(s: seq<Event>, e: Event, r: Rid)
    ensures HasReserve(s + [e], r) <==> HasReserve(s, r) || ReservesId(e, r)
  {
    if HasReserve(s, r) {
      var i :| 0 <= i < |s| && ReservesId(s[i], r);
      assert ReservesId((s + [e])[i], r);
    }
    if ReservesId(e, r) {
      assert ReservesId((s + [e])[|s|], r);
    }
  }

  /** On a legal stream with fresh ids, rows and fold tell the same about an id. */
  lemma {:induction false} RowsTellTheFold(s: seq<Event>, r: Rid)
    requires LegalStream(s) && FreshIds(s)
    ensures HasReserve(s, r) <==> r in Fold(s).reservations
    ensures HasClose(s, r) <==> Fold(s).Closed(r)
  {
    if s != [] {
      var n := |s| - 1;
      PrefixLegal(s, n);
      RowsTellTheFold(s[..n], r);
      assert s == s[..n] + [s[n]];
      CloseSnoc(s[..n], s[n], r);
      ReserveSnoc(s[..n], s[n], r);
      FoldSnoc(s[..n], s[n]);
      assert Legal(Fold(s[..n]), s[n]);
      LegalMovesReservation(Fold(s[..n]), s[n], r);
    }
  }

  lemma LegalMovesReservation(a: Account, e: Event, r: Rid)
    requires Legal(a, e)
             && (e.eventType == CreditReserved && e.reservationId.Some? ==> e.reservationId.value !in a.reservations)
    ensures r in Apply(a, e).reservations <==> r in a.reservations || ReservesId(e, r)
    ensures Apply(a, e).Closed(r) <==> a.Closed(r) || ClosesId(e, r)
  {
  }

  lemma ReservedOnce(s: seq<Event>, r: Rid, i: nat, j: nat)
    requires LegalStream(s) && FreshIds(s) && i < |s| && j < |s| && ReservesId(s[i], r) && ReservesId(s[j], r)
    ensures i == j
  {
    if i < j {
      ReservedBefore(s, r, i, j);
    } else if j < i {
      ReservedBefore(s, r, j, i);
    }
  }

  lemma ReservedBefore(s: seq<Event>, r: Rid, i: nat, j: nat)
    requires LegalStream(s) && FreshIds(s) && i < j < |s| && ReservesId(s[i], r)
    ensures !ReservesId(s[j], r)
  {
    PrefixLegal(s, j);
    RowsTellTheFold(s[..j], r);
    assert ReservesId(s[..j][i], r);
  }

  /** On every reachable ledger the query returns, without its LIMIT, exactly the OPEN holds
      reserved before the cutoff: each of its rows names an OPEN hold, each OPEN hold has one
      row, and that row is returned if and only if it is older than the cutoff. */
  lemma QueryFindsOpenHolds(t: Tables, w: Wallet, cutoff: int)
    requires LedgerOk(t) && w in t.ledger
    ensures forall i :: 0 <= i < |t.ledger[w]| && Found(t.ledger[w], i, cutoff) ==>
                          IdAt(t, w, i).Some? && Fold(t.Stream(w)).StatusOf(IdAt(t, w, i).value) == Some(OPEN)
    ensures forall i, j | 0 <= i < |t.ledger[w]| && 0 <= j < |t.ledger[w]| && IdAt(t, w, i) == IdAt(t, w, j) ::
                          Found(t.ledger[w], i, cutoff) && Found(t.ledger[w], j, cutoff) ==> i == j
    ensures forall r :: Fold(t.Stream(w)).StatusOf(r) == Some(OPEN) ==>
                          exists i :: 0 <= i < |t.ledger[w]| && ReservesId(t.Stream(w)[i], r)
                                      && (Found(t.ledger[w], i, cutoff) <==> t.ledger[w][i].createdAt < cutoff)
  {
    var s := t.Stream(w);
    forall i | 0 <= i < |s|
      ensures s[i].eventType == CreditReserved ==> s[i].reservationId.Some?
    {
      assert Legal(Fold(s[..i]), s[i]);
    }
    forall r
      ensures HasReserve(s, r) <==> r in Fold(s).reservations
      ensures HasClose(s, r) <==> Fold(s).Closed(r)
    {
      RowsTellTheFold(s, r);
    }
    forall i | 0 <= i < |t.ledger[w]| && Found(t.ledger[w], i, cutoff)
      ensures IdAt(t, w, i).Some? && ReservesId(s[i], IdAt(t, w, i).value)
      ensures Fold(s).StatusOf(IdAt(t, w, i).value) == Some(OPEN)
    {
      var r := s[i].reservationId.value;
      assert ReservesId(s[i], r) && HasReserve(s, r);
    }
    forall i, j | 0 <= i < |s| && 0 <= j < |s| && IdAt(t, w, i) == IdAt(t, w, j) && Found(t.ledger[w], i, cutoff)
                  && Found(t.ledger[w], j, cutoff)
      ensures i == j
    {
      ReservedOnce(s, s[i].reservationId.value, i, j);
    }
    forall r | Fold(s).StatusOf(r) == Some(OPEN)
      ensures exists i :: 0 <= i < |t.ledger[w]| && ReservesId(s[i], r) &&
                          (Found(t.ledger[w], i, cutoff) <==> t.ledger[w][i].createdAt < cutoff)
    {
      var i :| 0 <= i < |s| && ReservesId(s[i], r);
      assert t.ledger[w][i].event == s[i];
      assert Found(t.ledger[w], i, cutoff) <==> t.ledger[w][i].createdAt < cutoff;
    }
  }

  /** For one id, the query's notion of "still held" against the fold's. */
  predicate QueryAgrees(s: seq<Event>, r: Rid) {
    HasReserve(s, r) ==> (!HasClose(s, r) <==> Fold(s).StatusOf(r) == Some(OPEN))
  }

  predicate ReservedAfterClose(s: seq<Event>, r: Rid) {
    exists i, j :: 0 <= i < j < |s| && ClosesId(s[i], r) && ReservesId(s[j], r)
  }

  /** On streams in general the two agree all along exactly when the id is never reserved
      after it was closed, which `reserve` itself does not refuse. */
  lemma QueryAgreesIffNoReuse(s: seq<Event>, r: Rid)
    ensures (forall n :: 0 <= n <= |s| ==> QueryAgrees(s[..n], r)) <==> !ReservedAfterClose(s, r)
  {
    if ReservedAfterClose(s, r) {
      var i, j :| 0 <= i < j < |s| && ClosesId(s[i], r) && ReservesId(s[j], r);
      var p := s[..j + 1];
      assert p[i] == s[i] && p[j] == s[j];
      assert p == s[..j] + [s[j]];
      FoldSnoc(s[..j], s[j]);
      assert !QueryAgrees(s[..j + 1], r);
    } else {
      forall n | 0 <= n <= |s|
        ensures QueryAgrees(s[..n], r)
      {
        NoReuseAgrees(s[..n], r);
      }
    }
  }

  lemma {:induction false} NoReuseAgrees(s: seq<Event>, r: Rid)
    requires !ReservedAfterClose(s, r)
    ensures HasClose(s, r) ==> Fold(s).StatusOf(r) in {Some(COMMITTED), Some(RELEASED)}
    ensures HasReserve(s, r) && !HasClose(s, r) ==> Fold(s).StatusOf(r) == Some(OPEN)
  {
    if s != [] {
      var n := |s| - 1;
      assert forall i :: 0 <= i < n ==> s[..n][i] == s[i];
      NoReuseAgrees(s[..n], r);
      assert HasReserve(s, r) <==> HasReserve(s[..n], r) || ReservesId(s[n], r);
      assert HasClose(s, r) <==> HasClose(s[..n], r) || ClosesId(s[n], r);
    }
  }

  // ---------------------------------------------------------------------- sweeping

  function StaleHolds(t: Tables, cutoff: int): set<StaleRow> {
    set w, i: nat | w in t.ledger && 0 <= i < |t.ledger[w]| && Found(t.ledger[w], i, cutoff) && IdAt(t, w, i).Some?
      :: StaleRow(w, IdAt(t, w, i).value)
  }

  ghost predicate IsStale(t: Tables, cutoff: int, h: StaleRow) {
    && h.wallet in t.ledger
    && exists i :: 0 <= i < |t.ledger[h.wallet]| && Found(t.ledger[h.wallet], i, cutoff) &&
                   IdAt(t, h.wallet, i) == Some(h.rid)
  }

  function ReleaseOf(h: StaleRow): Command {
    ReleaseCreditReservation(h.wallet, h.rid, "", "EXPIRED")
  }

  /** The tables after releasing the rows of `batch` one after the other. */
  ghost function Swept(t: Tables, batch: seq<StaleRow>, now: int, newIds: nat -> string): Tables
  {
    if batch == [] then t
    else
      var n := |batch| - 1;
      var before := Swept(t, batch[..n], now, newIds);
      Execute(before, ReleaseOf(batch[n]), before.Stream(batch[n].wallet), now, newIds(n)).0
  }

  predicate Distinct<T(==)>(batch: seq<T>) {
    forall i, j :: 0 <= i < j < |batch| ==> batch[i] != batch[j]
  }

  ghost function AmountHeld(t: Tables, h: StaleRow): int {
    if h.rid in Fold(t.Stream(h.wallet)).reservations then Fold(t.Stream(h.wallet)).reservations[h.rid].amount else 0
  }

  ghost function AmountsHeld(t: Tables, batch: seq<StaleRow>): int {
    if batch == [] then 0 else AmountsHeld(t, batch[..|batch| - 1]) + AmountHeld(t, batch[|batch| - 1])
  }

  /** Available credit over all wallets. */
  ghost function TotalAvailable(t: Tables): int {
    Total(Availables(t))
  }

  ghost function Availables(t: Tables): map<Wallet, int> {
    map w | w in t.ledger :: Fold(t.Stream(w)).Available()
  }

  lemma ReleaseWrites(t: Tables, h: StaleRow, now: int, newId: string, cutoff: int)
    requires LedgerOk(t) && IsStale(t, cutoff, h)
    ensures var t' := Execute(t, ReleaseOf(h), t.Stream(h.wallet), now, newId).0;
            var a := Fold(t.Stream(h.wallet));
            && a.StatusOf(h.rid) == Some(OPEN)
            && var e := Event(CreditReservationReleased, a.version + 1, a.reservations[h.rid].amount, "EXPIRED",
                              Some(h.rid));
               && t'.ledger == t.ledger[h.wallet := t.ledger[h.wallet] + [Row(e, now)]]
               && Wrote(t, ReleaseOf(h), e, t')
  {
    QueryFindsOpenHolds(t, h.wallet, cutoff);
    OpenReleaseWrites(t, h, now, newId);
    var t' := Execute(t, ReleaseOf(h), t.Stream(h.wallet), now, newId).0;
    assert |t'.ledger[h.wallet]| == |t.ledger[h.wallet]| + 1;
    ExecuteEffect(t, ReleaseOf(h), t.Stream(h.wallet), now, newId);
  }

  lemma OpenReleaseWrites(t: Tables, h: StaleRow, now: int, newId: string)
    requires LedgerOk(t) && h.wallet in t.ledger && Fold(t.Stream(h.wallet)).StatusOf(h.rid) == Some(OPEN)
    ensures var a := Fold(t.Stream(h.wallet));
            var e := Event(CreditReservationReleased, a.version + 1, a.reservations[h.rid].amount, "EXPIRED",
                           Some(h.rid));
            && Decide(a, OpOf(ReleaseOf(h))) == Raised(e)
            && Execute(t, ReleaseOf(h), t.Stream(h.wallet), now, newId).0.ledger
               == t.ledger[h.wallet := t.ledger[h.wallet] + [Row(e, now)]]
  {
    var s := t.Stream(h.wallet);
    var e := Decide(Fold(s), OpOf(ReleaseOf(h))).event;
    NoClashMeansCurrent(t, h.wallet, s, e);
    FollowKeepsLedger(Appended(t, h.wallet, [e], now), ReleaseOf(h), Apply(Fold(s), e), e.amount, newId);
    assert t.Rows(h.wallet) + Stamp([e], now) == t.ledger[h.wallet] + [Row(e, now)];
  }

  /** What a stale hold is: one that is OPEN, and was reserved before the cutoff. */
  lemma StaleIsOpenAndOld(t: Tables, w: Wallet, r: Rid, cutoff: int)
    requires LedgerOk(t) && w in t.ledger
    ensures StaleRow(w, r) in StaleHolds(t, cutoff) <==>
            && Fold(t.Stream(w)).StatusOf(r) == Some(OPEN)
            && exists i :: 0 <= i < |t.ledger[w]| && ReservesId(t.Stream(w)[i], r) && t.ledger[w][i].createdAt < cutoff
  {
    QueryFindsOpenHolds(t, w, cutoff);
    var rows := t.ledger[w];
    if StaleRow(w, r) in StaleHolds(t, cutoff) {
      var i :| 0 <= i < |rows| && Found(rows, i, cutoff) && IdAt(t, w, i) == Some(r);
      assert ReservesId(t.Stream(w)[i], r);
    }
    if Fold(t.Stream(w)).StatusOf(r) == Some(OPEN) {
      if i :| 0 <= i < |rows| && ReservesId(t.Stream(w)[i], r) && rows[i].createdAt < cutoff {
        var j :| 0 <= j < |rows| && ReservesId(t.Stream(w)[j], r)
            && (Found(rows, j, cutoff) <==> rows[j].createdAt < cutoff);
        ReservedOnce(t.Stream(w), r, i, j);
        assert IdAt(t, w, i) == Some(r);
      }
    }
  }

  /** Releasing one stale hold removes it from the query's answer and nothing else. */
  lemma ReleaseRemovesOne(t: Tables, h: StaleRow, now: int, newId: string, cutoff: int)
    requires LedgerOk(t) && h in StaleHolds(t, cutoff)
    ensures var t' := Execute(t, ReleaseOf(h), t.Stream(h.wallet), now, newId).0;
            LedgerOk(t') && t'.ledger.Keys == t.ledger.Keys && StaleHolds(t', cutoff) == StaleHolds(t, cutoff) - {h}
  {
    assert IsStale(t, cutoff, h);
    ReleaseWrites(t, h, now, newId, cutoff);
    var t' := Execute(t, ReleaseOf(h), t.Stream(h.wallet), now, newId).0;
    var a := Fold(t.Stream(h.wallet));
    var e := Event(CreditReservationReleased, a.version + 1, a.reservations[h.rid].amount, "EXPIRED", Some(h.rid));
    WroteKeepsLedgerOk(t, ReleaseOf(h), e, t');
    var rows, rows' := t.ledger[h.wallet], t'.ledger[h.wallet];
    assert Events(rows') == Events(rows) + [e];
    forall r
      ensures HasClose(Events(rows'), r) <==> HasClose(Events(rows), r) || r == h.rid
    {
      CloseSnoc(Events(rows), e, r);
    }
    forall i | 0 <= i < |rows|
      ensures Found(rows', i, cutoff) <==> Found(rows, i, cutoff) && rows[i].event.reservationId != Some(h.rid)
    {
      assert rows'[i] == rows[i];
    }
    assert !Found(rows', |rows|, cutoff);
    StaleAfterRelease(t, t', h, cutoff);
  }

  lemma StaleAfterRelease(t: Tables, t': Tables, h: StaleRow, cutoff: int)
    requires h.wallet in t.ledger && t'.ledger == t.ledger[h.wallet := t'.Rows(h.wallet)]
    requires |t'.ledger[h.wallet]| == |t.ledger[h.wallet]| + 1
    requires forall i :: 0 <= i < |t.ledger[h.wallet]| ==>
                           && t'.ledger[h.wallet][i] == t.ledger[h.wallet][i]
                           && (Found(t'.ledger[h.wallet], i, cutoff) <==>
                                 Found(t.ledger[h.wallet], i, cutoff)
                                 && t.ledger[h.wallet][i].event.reservationId != Some(h.rid))
    requires !Found(t'.ledger[h.wallet], |t.ledger[h.wallet]|, cutoff)
    ensures StaleHolds(t', cutoff) == StaleHolds(t, cutoff) - {h}
  {
    forall g
      ensures g in StaleHolds(t', cutoff) <==> g in StaleHolds(t, cutoff) && g != h
    {
      if g in StaleHolds(t', cutoff) {
        var i: nat :| g.wallet in t'.ledger && i < |t'.ledger[g.wallet]| && Found(t'.ledger[g.wallet], i, cutoff)
            && IdAt(t', g.wallet, i) == Some(g.rid);
        assert i < |t.ledger[g.wallet]|;
        assert Found(t.ledger[g.wallet], i, cutoff) && IdAt(t, g.wallet, i) == Some(g.rid);
      }
      if g in StaleHolds(t, cutoff) && g != h {
        var i: nat :| g.wallet in t.ledger && i < |t.ledger[g.wallet]| && Found(t.ledger[g.wallet], i, cutoff)
            && IdAt(t, g.wallet, i) == Some(g.rid);
        assert Found(t'.ledger[g.wallet], i, cutoff) && IdAt(t', g.wallet, i) == Some(g.rid);
      }
    }
  }

  lemma ReleasedAccount(a: Account, r: Rid, e: Event)
    requires a.StatusOf(r) == Some(OPEN) && e.eventType == CreditReservationReleased && e.reservationId == Some(r)
    requires e.amount == a.reservations[r].amount
    ensures Apply(a, e).balance == a.balance && Apply(a, e).Available() == a.Available() + e.amount
    ensures forall q :: q != r ==> (q in Apply(a, e).reservations <==> q in a.reservations)
                                   && (q in a.reservations ==> Apply(a, e).reservations[q] == a.reservations[q])
  {
    var b := Apply(a, e);
    ReservedAfterNote(a, r, Hold(e.amount, RELEASED));
    assert b.OpenHolds() == Account(a.version, a.balance, a.reservations[r := Hold(e.amount, RELEASED)]).OpenHolds();
  }

  lemma TotalAvailableMoves(t: Tables, t': Tables, w: Wallet)
    requires w in t.ledger && t'.ledger.Keys == t.ledger.Keys
    requires forall v :: v != w ==> t'.Stream(v) == t.Stream(v)
    ensures TotalAvailable(t') == TotalAvailable(t) - Fold(t.Stream(w)).Available() + Fold(t'.Stream(w)).Available()
  {
    var before, after := Availables(t), Availables(t');
    forall v | v in before && v != w
      ensures after[v] == before[v]
    {
      assert t'.Stream(v) == t.Stream(v);
    }
    assert after.Keys == before.Keys;
    TotalChange(before, after, w);
  }

  /** It moves no balance, and gives back exactly what was held. */
  lemma ReleaseFreesCredit(t: Tables, h: StaleRow, now: int, newId: string, cutoff: int)
    requires LedgerOk(t) && h in StaleHolds(t, cutoff)
    ensures var t' := Execute(t, ReleaseOf(h), t.Stream(h.wallet), now, newId).0;
            && (forall w :: Fold(t'.Stream(w)).balance == Fold(t.Stream(w)).balance)
            && TotalAvailable(t') == TotalAvailable(t) + AmountHeld(t, h)
            && forall g :: g != h ==> AmountHeld(t', g) == AmountHeld(t, g)
  {
    assert IsStale(t, cutoff, h);
    ReleaseWrites(t, h, now, newId, cutoff);
    var t' := Execute(t, ReleaseOf(h), t.Stream(h.wallet), now, newId).0;
    var a := Fold(t.Stream(h.wallet));
    var e := Event(CreditReservationReleased, a.version + 1, a.reservations[h.rid].amount, "EXPIRED", Some(h.rid));
    FreedCredit(t, t', h, e);
  }

  lemma FreedCredit(t: Tables, t': Tables, h: StaleRow, e: Event)
    requires h.wallet in t.ledger && t'.ledger.Keys == t.ledger.Keys
    requires t'.Stream(h.wallet) == t.Stream(h.wallet) + [e] && forall v :: v != h.wallet ==>
               t'.Stream(v) == t.Stream(v)
    requires Fold(t.Stream(h.wallet)).StatusOf(h.rid) == Some(OPEN)
    requires e.eventType == CreditReservationReleased && e.reservationId == Some(h.rid) && e.amount == AmountHeld(t, h)
    ensures forall w :: Fold(t'.Stream(w)).balance == Fold(t.Stream(w)).balance
    ensures TotalAvailable(t') == TotalAvailable(t) + AmountHeld(t, h)
    ensures forall g :: g != h ==> AmountHeld(t', g) == AmountHeld(t, g)
  {
    FoldSnoc(t.Stream(h.wallet), e);
    ReleasedAccount(Fold(t.Stream(h.wallet)), h.rid, e);
    TotalAvailableMoves(t, t', h.wallet);
  }

  function Rows<T(==)>(batch: seq<T>): set<T> {
    set h | h in batch
  }

  lemma {:induction false} RemoveDistinct(holds: set<StaleRow>, batch: seq<StaleRow>)
    requires Distinct(batch) && Rows(batch) <= holds
    ensures |holds - Rows(batch)| == |holds| - |batch|
  {
    if batch != [] {
      var n := |batch| - 1;
      assert Rows(batch[..n]) <= Rows(batch);
      RemoveDistinct(holds, batch[..n]);
      RowsSnoc(batch);
      var rest := holds - Rows(batch[..n]);
      assert batch[n] in rest;
      assert holds - Rows(batch) == rest - {batch[n]};
    } else {
      assert holds - Rows(batch) == holds;
    }
  }

  lemma RowsSnoc(batch: seq<StaleRow>)
    requires Distinct(batch) && batch != []
    ensures Rows(batch) == Rows(batch[..|batch| - 1]) + {batch[|batch| - 1]}
    ensures batch[|batch| - 1] !in Rows(batch[..|batch| - 1])
    ensures Distinct(batch[..|batch| - 1])
  {
  }

  /** A sweep over a batch of stale holds closes exactly those. */
  lemma {:induction false} SweepClosesBatch(t: Tables, batch: seq<StaleRow>, now: int, newIds: nat -> string,
                                            cutoff: int)
    requires LedgerOk(t) && Distinct(batch) && Rows(batch) <= StaleHolds(t, cutoff)
    ensures LedgerOk(Swept(t, batch, now, newIds))
    ensures StaleHolds(Swept(t, batch, now, newIds), cutoff) == StaleHolds(t, cutoff) - Rows(batch)
  {
    if batch != [] {
      var n := |batch| - 1;
      RowsSnoc(batch);
      SweepClosesBatch(t, batch[..n], now, newIds, cutoff);
      ReleaseRemovesOne(Swept(t, batch[..n], now, newIds), batch[n], now, newIds(n), cutoff);
    }
  }

  /** Sweep progress: exactly the batch is closed, every balance stays, and the total
      available rises by the amounts the batch held. */
  lemma {:induction false} SweepProgress(t: Tables, batch: seq<StaleRow>, now: int, newIds: nat -> string, cutoff: int)
    requires LedgerOk(t) && Distinct(batch) && Rows(batch) <= StaleHolds(t, cutoff)
    ensures var t' := Swept(t, batch, now, newIds);
            && StaleHolds(t', cutoff) == StaleHolds(t, cutoff) - Rows(batch)
            && (forall w :: Fold(t'.Stream(w)).balance == Fold(t.Stream(w)).balance)
            && TotalAvailable(t') == TotalAvailable(t) + AmountsHeld(t, batch)
            && forall g :: g !in batch ==> AmountHeld(t', g) == AmountHeld(t, g)
  {
    SweepClosesBatch(t, batch, now, newIds, cutoff);
    if batch != [] {
      var n := |batch| - 1;
      RowsSnoc(batch);
      SweepProgress(t, batch[..n], now, newIds, cutoff);
      SweepClosesBatch(t, batch[..n], now, newIds, cutoff);
      ReleaseFreesCredit(Swept(t, batch[..n], now, newIds), batch[n], now, newIds(n), cutoff);
    }
  }

  // ----------------------------------------------------------------- draining

  function Min(a: nat, b: nat): nat {
    if a <= b then a else b
  }

  /** A full sweep that saw `t`: as many stale holds as there are, up to the batch size. */
  ghost predicate FullBatch(t: Tables, batch: seq<StaleRow>, cutoff: int) {
    && Distinct(batch) && Rows(batch) <= StaleHolds(t, cutoff)
    && |batch| == Min(BATCH_SIZE, |StaleHolds(t, cutoff)|)
  }

  ghost function After(t: Tables, sweeps: seq<seq<StaleRow>>, now: int, newIds: nat -> string): Tables
  {
    if sweeps == [] then t else Swept(After(t, sweeps[..|sweeps| - 1], now, newIds), sweeps[|sweeps| - 1], now, newIds)
  }

  lemma OneSweep(t: Tables, batch: seq<StaleRow>, now: int, newIds: nat -> string, cutoff: int)
    requires LedgerOk(t) && FullBatch(t, batch, cutoff)
    ensures LedgerOk(Swept(t, batch, now, newIds))
    ensures |StaleHolds(Swept(t, batch, now, newIds), cutoff)|
            == |StaleHolds(t, cutoff)| - Min(BATCH_SIZE, |StaleHolds(t, cutoff)|)
  {
    SweepClosesBatch(t, batch, now, newIds, cutoff);
    RemoveDistinct(StaleHolds(t, cutoff), batch);
  }

  /** What is left of n stale holds after k sweeps. */
  function Left(n: nat, k: nat): nat {
    if k == 0 then n else Left(n, k - 1) - Min(BATCH_SIZE, Left(n, k - 1))
  }

  lemma {:induction false} LeftIs(n: nat, k: nat)
    ensures Left(n, k) == if n <= 50 * k then 0 else n - 50 * k
  {
    if k > 0 {
      LeftIs(n, k - 1);
    }
  }

  /** Each sweep in turn saw the tables the one before left, and was full. */
  ghost predicate FullSweeps(t: Tables, sweeps: seq<seq<StaleRow>>, now: int, newIds: nat -> string, cutoff: int) {
    sweeps == [] ||
    (var k := |sweeps| - 1;
     FullSweeps(t, sweeps[..k], now, newIds, cutoff)
     && FullBatch(After(t, sweeps[..k], now, newIds), sweeps[k], cutoff))
  }

  lemma {:induction false} SweepsLeave(t: Tables, sweeps: seq<seq<StaleRow>>, now: int, newIds: nat -> string,
                                       cutoff: int)
    requires LedgerOk(t) && FullSweeps(t, sweeps, now, newIds, cutoff)
    ensures LedgerOk(After(t, sweeps, now, newIds))
    ensures |StaleHolds(After(t, sweeps, now, newIds), cutoff)| == Left(|StaleHolds(t, cutoff)|, |sweeps|)
  {
    if sweeps != [] {
      var k := |sweeps| - 1;
      SweepsLeave(t, sweeps[..k], now, newIds, cutoff);
      OneSweep(After(t, sweeps[..k], now, newIds), sweeps[k], now, newIds, cutoff);
    }
  }

  /** If no other hold ages past the cutoff, n stale holds are drained by ceil(n / 50) full
      sweeps and by no fewer. */
  lemma CeilSweepsDrain(t: Tables, sweeps: seq<seq<StaleRow>>, now: int, newIds: nat -> string, cutoff: int)
    requires LedgerOk(t) && FullSweeps(t, sweeps, now, newIds, cutoff)
    ensures StaleHolds(After(t, sweeps, now, newIds), cutoff) == {} <==> |sweeps| >= (|StaleHolds(t, cutoff)| + 49) / 50
  {
    SweepsLeave(t, sweeps, now, newIds, cutoff);
    LeftIs(|StaleHolds(t, cutoff)|, |sweeps|);
    assert |StaleHolds(After(t, sweeps, now, newIds), cutoff)| == 0 <==>
             StaleHolds(After(t, sweeps, now, newIds), cutoff) == {};
  }

  // ------------------------------------------------------------ the rows of the query

  // A row as the query returns it: an id that is absent comes back as NULL.
  datatype QueryRow = QueryRow(wallet: Wallet, rid: Option<Rid>)

  /** The query with its LIMIT: some of the rows it finds, each once, in no particular order. */
  ghost predicate QueryResult(t: Tables, found: seq<(Wallet, nat)>, cutoff: int) {
    && Distinct(found) && Rows(found) <= FoundRows(t, cutoff)
    && |found| == Min(BATCH_SIZE, |FoundRows(t, cutoff)|)
  }

  function RowsAt(t: Tables, found: seq<(Wallet, nat)>): seq<QueryRow>
    requires forall i :: 0 <= i < |found| ==> found[i].1 < |t.Rows(found[i].0)|
  {
    seq(|found|, i requires 0 <= i < |found| => QueryRow(found[i].0, IdAt(t, found[i].0, found[i].1)))
  }

  /** The tables after the rows of a query result have been dispatched one after the other. A
      hold without an id does not exist, so the release of a NULL finds nothing to do. */
  ghost function SweptRows(t: Tables, rows: seq<QueryRow>, now: int, newIds: nat -> string): Tables {
    if rows == [] then t
    else
      var n := |rows| - 1;
      var before := SweptRows(t, rows[..n], now, newIds);
      if rows[n].rid.None? then before
      else
        Execute(before, ReleaseOf(StaleRow(rows[n].wallet, rows[n].rid.value)), before.Stream(rows[n].wallet), now,
                newIds(n)).0
  }

  lemma SweptRowsNext(t: Tables, rows: seq<QueryRow>, k: nat, now: int, newIds: nat -> string)
    requires k < |rows|
    ensures var before := SweptRows(t, rows[..k], now, newIds);
            SweptRows(t, rows[..k + 1], now, newIds) ==
            if rows[k].rid.None? then before
            else Execute(before, ReleaseOf(StaleRow(rows[k].wallet, rows[k].rid.value)),
                         before.Stream(rows[k].wallet), now, newIds(k)).0
  {
    assert rows[..k + 1][..k] == rows[..k];
  }

  /** The holds that rows with an id name. */
  function Named(rows: seq<QueryRow>): seq<StaleRow>
    requires forall i :: 0 <= i < |rows| ==> rows[i].rid.Some?
  {
    seq(|rows|, i requires 0 <= i < |rows| => StaleRow(rows[i].wallet, rows[i].rid.value))
  }

  lemma {:induction false} SweptRowsAreSwept(t: Tables, rows: seq<QueryRow>, now: int, newIds: nat -> string)
    requires forall i :: 0 <= i < |rows| ==> rows[i].rid.Some?
    ensures SweptRows(t, rows, now, newIds) == Swept(t, Named(rows), now, newIds)
  {
    if rows != [] {
      var n := |rows| - 1;
      SweptRowsAreSwept(t, rows[..n], now, newIds);
      assert Named(rows)[..n] == Named(rows[..n]);
    }
  }

  /** On a reachable ledger rows and holds stand one to one. */
  lemma RowsAreHolds(t: Tables, cutoff: int)
    requires LedgerOk(t)
    ensures forall p <- FoundRows(t, cutoff) :: IdAt(t, p.0, p.1).Some?
    ensures forall p, q | p in FoundRows(t, cutoff) && q in FoundRows(t, cutoff) && p.0 == q.0 ::
                          IdAt(t, p.0, p.1) == IdAt(t, q.0, q.1) ==> p == q
  {
    forall p | p in FoundRows(t, cutoff)
      ensures IdAt(t, p.0, p.1).Some?
    {
      QueryFindsOpenHolds(t, p.0, cutoff);
    }
    forall p, q | p in FoundRows(t, cutoff) && q in FoundRows(t, cutoff) && p.0 == q.0
                  && IdAt(t, p.0, p.1) == IdAt(t, q.0, q.1)
      ensures p == q
    {
      QueryFindsOpenHolds(t, p.0, cutoff);
    }
  }

  function HoldsAt(t: Tables, ps: set<(Wallet, nat)>): set<StaleRow>
    requires forall p <- ps :: p.1 < |t.Rows(p.0)| && IdAt(t, p.0, p.1).Some?
  {
    set p | p in ps :: StaleRow(p.0, IdAt(t, p.0, p.1).value)
  }

  lemma {:induction false} AsManyHoldsAsRows(t: Tables, ps: set<(Wallet, nat)>)
    requires forall p <- ps :: p.1 < |t.Rows(p.0)| && IdAt(t, p.0, p.1).Some?
    requires forall p, q :: p in ps && q in ps && p.0 == q.0 && IdAt(t, p.0, p.1) == IdAt(t, q.0, q.1) ==> p == q
    ensures |HoldsAt(t, ps)| == |ps|
  {
    if ps != {} {
      var p :| p in ps;
      var rest := ps - {p};
      AsManyHoldsAsRows(t, rest);
      OneMoreHold(t, ps, p);
    }
  }

  lemma OneMoreHold(t: Tables, ps: set<(Wallet, nat)>, p: (Wallet, nat))
    requires p in ps && forall q <- ps :: q.1 < |t.Rows(q.0)| && IdAt(t, q.0, q.1).Some?
    requires forall q <- ps :: p.0 == q.0 && IdAt(t, p.0, p.1) == IdAt(t, q.0, q.1) ==> p == q
    ensures |HoldsAt(t, ps)| == |HoldsAt(t, ps - {p})| + 1
  {
    var h, holds := StaleRow(p.0, IdAt(t, p.0, p.1).value), HoldsAt(t, ps - {p});
    assert h !in holds;
    forall g
      ensures g in HoldsAt(t, ps) <==> g in holds || g == h
    {
      if g in HoldsAt(t, ps) {
        var q :| q in ps && g == StaleRow(q.0, IdAt(t, q.0, q.1).value);
        assert q != p ==> q in ps - {p};
      }
    }
    assert HoldsAt(t, ps) == holds + {h};
  }

  lemma AllHolds(t: Tables, cutoff: int)
    requires forall p <- FoundRows(t, cutoff) :: IdAt(t, p.0, p.1).Some?
    ensures HoldsAt(t, FoundRows(t, cutoff)) == StaleHolds(t, cutoff)
  {
    forall h
      ensures h in HoldsAt(t, FoundRows(t, cutoff)) <==> h in StaleHolds(t, cutoff)
    {
      if h in StaleHolds(t, cutoff) {
        var i: nat :| h.wallet in t.ledger && i < |t.ledger[h.wallet]| && Found(t.ledger[h.wallet], i, cutoff)
                      && IdAt(t, h.wallet, i) == Some(h.rid);
        assert (h.wallet, i) in FoundRows(t, cutoff);
      }
    }
  }

  /** So there a query result is a full batch of stale holds. */
  lemma ResultIsFullBatch(t: Tables, found: seq<(Wallet, nat)>, cutoff: int)
    requires LedgerOk(t) && QueryResult(t, found, cutoff)
    ensures forall i :: 0 <= i < |found| ==> found[i] in FoundRows(t, cutoff)
    ensures forall i :: 0 <= i < |found| ==> RowsAt(t, found)[i].rid.Some?
    ensures FullBatch(t, Named(RowsAt(t, found)), cutoff)
  {
    RowsAreHolds(t, cutoff);
    AllHolds(t, cutoff);
    AsManyHoldsAsRows(t, FoundRows(t, cutoff));
    forall i | 0 <= i < |found|
      ensures found[i] in FoundRows(t, cutoff)
    {
      assert found[i] in Rows(found);
    }
    var batch := Named(RowsAt(t, found));
    forall i | 0 <= i < |batch|
      ensures batch[i] in StaleHolds(t, cutoff)
    {
      assert batch[i] in HoldsAt(t, FoundRows(t, cutoff));
    }
    assert forall i :: 0 <= i < |found| ==>
             batch[i].wallet == found[i].0 && Some(batch[i].rid) == IdAt(t, found[i].0, found[i].1);
  }

  /** All rows name holds, the holds are a full batch, and the first `released` are closed. */
  ghost predicate ClosesBatch(t: Tables, rows: seq<QueryRow>, cutoff: int, released: nat, t': Tables, now: int,
                              newIds: nat -> string)
    requires released <= |rows|
  {
    && (forall i :: 0 <= i < |rows| ==> rows[i].rid.Some?)
    && FullBatch(t, Named(rows), cutoff)
    && t' == Swept(t, Named(rows)[..released], now, newIds)
  }

  /** Of `n` stale holds 50 are worked through, or all if there are fewer, and the first
      `released` of them are stale no longer: no balance has moved, no other hold is touched,
      and what those held can be spent again. */
  ghost predicate FreesBatch(t: Tables, rows: seq<QueryRow>, cutoff: int, released: nat, t': Tables)
    requires released <= |rows| && forall i :: 0 <= i < |rows| ==> rows[i].rid.Some?
  {
    var holds := Named(rows)[..released];
    && |rows| == (if |StaleHolds(t, cutoff)| <= 50 then |StaleHolds(t, cutoff)| else 50)
    && LedgerOk(t') && Distinct(holds) && Rows(holds) <= StaleHolds(t, cutoff)
    && StaleHolds(t', cutoff) == StaleHolds(t, cutoff) - Rows(holds)
    && (forall w :: Fold(t'.Stream(w)).balance == Fold(t.Stream(w)).balance)
    && TotalAvailable(t') == TotalAvailable(t) + AmountsHeld(t, holds)
    && (forall g :: g !in holds ==> AmountHeld(t', g) == AmountHeld(t, g))
  }

  lemma SweepFrees(t: Tables, rows: seq<QueryRow>, cutoff: int, released: nat, t': Tables, now: int,
                   newIds: nat -> string)
    requires LedgerOk(t) && released <= |rows| && ClosesBatch(t, rows, cutoff, released, t', now, newIds)
    ensures FreesBatch(t, rows, cutoff, released, t')
  {
    var holds := Named(rows)[..released];
    assert forall h :: h in holds ==> h in Named(rows);
    assert forall i :: 0 <= i < |Named(rows)| ==> Named(rows)[i] in Rows(Named(rows));
    SweepClosesBatch(t, holds, now, newIds, cutoff);
    SweepProgress(t, holds, now, newIds, cutoff);
  }

  ghost predicate SoundPass(t: Tables, rows: seq<QueryRow>, cutoff: int, released: nat, t': Tables, now: int,
                            newIds: nat -> string)
    requires released <= |rows|
  {
    ClosesBatch(t, rows, cutoff, released, t', now, newIds) && FreesBatch(t, rows, cutoff, released, t')
  }

  lemma SoundSweep(t: Tables, found: seq<(Wallet, nat)>, cutoff: int, released: nat, now: int, newIds: nat -> string)
    requires LedgerOk(t) && QueryResult(t, found, cutoff) && released <= |found|
    requires forall i :: 0 <= i < |found| ==> found[i].1 < |t.Rows(found[i].0)|
    ensures SoundPass(t, RowsAt(t, found), cutoff, released, SweptRows(t, RowsAt(t, found)[..released], now, newIds),
                      now, newIds)
  {
    ResultIsFullBatch(t, found, cutoff);
    var rows := RowsAt(t, found);
    SweptRowsAreSwept(t, rows[..released], now, newIds);
    assert Named(rows[..released]) == Named(rows)[..released];
    SweepFrees(t, rows, cutoff, released, SweptRows(t, rows[..released], now, newIds), now, newIds);
  }

  // --------------------------------------------------------------------- the service

  class Sweeper {
    const db: Database
    var running: bool

    constructor (db: Database)
      ensures this.db == db && !running
    {
      this.db := db;
      running := false;
    }

    method FindStaleReservations(cutoff: int) returns (found: seq<(Wallet, nat)>)
      ensures QueryResult(db.View(), found, cutoff)
      ensures forall i :: 0 <= i < |found| ==> found[i].1 < |db.View().Rows(found[i].0)|
    {
      found := Limited(FoundRows(db.View(), cutoff), BATCH_SIZE);
      assert forall i :: 0 <= i < |found| ==> found[i] in Rows(found);
    }

    static method Limited<T(==)>(rows: set<T>, limit: nat) returns (batch: seq<T>)
      ensures Distinct(batch) && Rows(batch) <= rows && |batch| == Min(limit, |rows|)
    {
      batch := [];
      var left := rows;
      while |batch| < limit && left != {}
        invariant Distinct(batch) && |batch| <= limit
        invariant left == rows - Rows(batch) && Rows(batch) <= rows
        invariant |left| + |batch| == |rows|
      {
        var h :| h in left;
        batch, left := batch + [h], left - {h};
      }
    }

    method Dispatch(row: QueryRow, now: int, newId: string)
      modifies db
      ensures db.View() == if row.rid.None? then old(db.View())
                           else Execute(old(db.View()), ReleaseOf(StaleRow(row.wallet, row.rid.value)),
                                        old(db.View()).Stream(row.wallet), now, newId).0
    {
      if row.rid == None { return; }
      var tx := new Transaction(db, db.View(), now, newId);
      var reply := tx.Release(row.wallet, row.rid.value, "", "EXPIRED");
    }

    /** One pass. `failing` is the first dispatch that throws, if any: the pass stops there
        and keeps what it released before. A pass that starts while another runs does nothing.
        On a reachable ledger what it works through is a full batch of stale holds. */
    method Sweep(cutoff: int, now: int, newIds: nat -> string, failing: Option<nat>)
      returns (found: seq<(Wallet, nat)>, rows: seq<QueryRow>, released: nat)
      modifies this, db
      ensures running == old(running)
      ensures old(running) ==> found == [] && released == 0
      ensures !old(running) ==> QueryResult(old(db.View()), found, cutoff) && released == Handled(|rows|, failing)
      ensures (forall i :: 0 <= i < |found| ==> found[i].1 < |old(db.View()).Rows(found[i].0)|)
              && rows == RowsAt(old(db.View()), found)
      ensures released <= |rows| && db.View() == SweptRows(old(db.View()), rows[..released], now, newIds)
      ensures LedgerOk(old(db.View())) && !old(running) ==>
                SoundPass(old(db.View()), rows, cutoff, released, db.View(), now, newIds)
      ensures !old(running) ==>
                released == if failing.Some? && failing.value < |rows| then failing.value else |rows|
    {
      found, rows, released := [], [], 0;
      if running { return; }
      running := true;
      ghost var t := db.View();
      found := FindStaleReservations(cutoff);
      rows := RowsAt(db.View(), found);
      released := ReleaseAll(rows, now, newIds, failing);
      running := false;
      if LedgerOk(t) {
        SoundSweep(t, found, cutoff, released, now, newIds);
      }
    }

    method ReleaseAll(rows: seq<QueryRow>, now: int, newIds: nat -> string, failing: Option<nat>)
      returns (released: nat)
      modifies db
      ensures released == Handled(|rows|, failing)
      ensures db.View() == SweptRows(old(db.View()), rows[..released], now, newIds)
    {
      released := 0;
      while released < |rows| && failing != Some(released)
        invariant released <= Handled(|rows|, failing)
        invariant db.View() == SweptRows(old(db.View()), rows[..released], now, newIds)
      {
        Dispatch(rows[released], now, newIds(released));
        SweptRowsNext(old(db.View()), rows, released, now, newIds);
        released := released + 1;
      }
    }

    /** How many of `n` dispatches go through when number `failing` throws. */
    function Handled(n: nat, failing: Option<nat>): nat {
      if failing.Some? && failing.value < n then failing.value else n
    }
  }
}
