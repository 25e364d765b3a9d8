/** What a free key can always do: carry one request through to its answer, and replay that
    answer, cost included, to the next one. */
module IdempotentAskProgress {
  import opened Foundations
  import opened CreditLedger
  import opened CreditTables
  import opened IdempotentAsk
  import S = CreditSystem
  import ST = CreditSystemTheorems
  import I = Idempotency
  import P = CreditSystemProgress

  lemma Extend(acts: seq<Action>, maxAttempts: int, s: State, a: Action) returns (acts': seq<Action>, s': State)
    requires Exec(acts, maxAttempts) == Some(s) && Enabled(s, a)
    ensures acts' == acts + [a] && s' == Do(s, a, maxAttempts) && Exec(acts', maxAttempts) == Some(s')
  {
    acts', s' := acts + [a], Do(s, a, maxAttempts);
    assert acts'[..|acts|] == acts;
  }

  /** What an action behind the key does to the wallets is one action there, or none. */
  function CreditAction(s: State, a: Action): seq<S.Action>
    requires Enabled(s, a)
  {
    match a
    case Credit(step) => [step]
    case StartRun(_, r, w, question, cost) => [S.Ask(r, w, question, cost)]
    case ProcessDies(q) =>
      if q in s.runOf && S.Enabled(s.credit, S.Crash(s.runOf[q])) then [S.Crash(s.runOf[q])] else []
    case _ => []
  }

  /** Seen from the wallets, the requests of a key are some run among the others. */
  lemma {:induction false} CreditPart(acts: seq<Action>, maxAttempts: int, s: State) returns (part: seq<S.Action>)
    requires Exec(acts, maxAttempts) == Some(s)
    ensures S.Exec(part, maxAttempts) == Some(s.credit)
  {
    part := [];
    if acts != [] {
      var n := |acts| - 1;
      var before := Exec(acts[..n], maxAttempts).value;
      part := CreditPart(acts[..n], maxAttempts, before);
      part := CreditStep(part, maxAttempts, before, acts[n]);
    }
  }

  lemma CreditStep(part: seq<S.Action>, maxAttempts: int, s: State, a: Action) returns (part': seq<S.Action>)
    requires S.Exec(part, maxAttempts) == Some(s.credit) && Enabled(s, a)
    ensures S.Exec(part', maxAttempts) == Some(Do(s, a, maxAttempts).credit)
  {
    part' := part + CreditAction(s, a);
    if CreditAction(s, a) == [] {
      assert part' == part;
    } else {
      ST.ExecSnoc(part, maxAttempts, s.credit, CreditAction(s, a)[0]);
      assert CreditAction(s, a) == [CreditAction(s, a)[0]];
    }
  }

  /** And what can happen there without a crash can happen behind the key. */
  lemma {:induction false} LiftCredit(acts: seq<Action>, maxAttempts: int, s: State, part: seq<S.Action>,
                                      part': seq<S.Action>, credit: S.State)
    returns (acts': seq<Action>)
    requires Exec(acts, maxAttempts) == Some(s) && S.Exec(part, maxAttempts) == Some(s.credit)
    requires P.GoesOn(part, part') && S.Exec(part', maxAttempts) == Some(credit)
    ensures acts <= acts' && Exec(acts', maxAttempts) == Some(s.(credit := credit))
    decreases |part'|
  {
    if |part'| == |part| {
      assert part' == part;
      acts' := acts;
    } else {
      var n := |part'| - 1;
      assert P.GoesOn(part, part'[..n]);
      var before := S.Exec(part'[..n], maxAttempts).value;
      acts' := LiftCredit(acts, maxAttempts, s, part, part'[..n], before);
      var s';
      acts', s' := Extend(acts', maxAttempts, s.(credit := before), Credit(part'[n]));
    }
  }

  predicate Fresh(s: State, q: I.ReqId) {
    q !in s.key.requests
  }

  /** A request arrives and looks the key up. */
  lemma Looks(acts: seq<Action>, maxAttempts: int, s: State, q: I.ReqId, hash: I.Hash, caller: I.Caller)
    returns (acts': seq<Action>, s': State)
    requires Exec(acts, maxAttempts) == Some(s) && Fresh(s, q)
    ensures acts <= acts' && Exec(acts', maxAttempts) == Some(s') && s'.credit == s.credit && s'.runOf == s.runOf
    ensures s'.key.row == s.key.row
    ensures s'.key.requests == s.key.requests[q := I.Request(hash, caller, I.AfterFind(I.OnFound(s.key.row, hash)))]
  {
    acts', s' := Extend(acts, maxAttempts, s, Key(I.Arrive(q, hash, caller)));
    acts', s' := Extend(acts', maxAttempts, s', Key(I.Find(q)));
  }

  /** A request arrives, finds no row and claims the key; its run has asked. */
  lemma Claims(acts: seq<Action>, maxAttempts: int, s: State, q: I.ReqId, hash: I.Hash, caller: I.Caller, r: Rid,
               w: Wallet, question: string, cost: int)
    returns (acts': seq<Action>, s': State)
    requires Exec(acts, maxAttempts) == Some(s) && s.key.row.None? && Fresh(s, q) && r !in s.credit.sagas
    ensures acts <= acts' && Exec(acts', maxAttempts) == Some(s')
    ensures s'.key == I.State(Some(I.Row(hash, None)),
                              s.key.requests[q := I.Request(hash, caller, I.Phase.Running)])
    ensures s'.credit == s.credit.(sagas := s.credit.sagas[r := S.Saga(w, question, cost, S.Reserving)])
    ensures s'.runOf == s.runOf[q := r]
  {
    acts', s' := Looks(acts, maxAttempts, s, q, hash, caller);
    acts', s' := Extend(acts', maxAttempts, s', StartRun(q, r, w, question, cost));
  }

  /** Its run has returned; the answer is given and recorded. */
  lemma Records(acts: seq<Action>, maxAttempts: int, s: State, q: I.ReqId, rest: string)
    returns (acts': seq<Action>, s': State)
    requires Exec(acts, maxAttempts) == Some(s) && q in s.key.requests && s.key.requests[q].phase.Running?
    requires q in s.runOf && s.runOf[q] in s.credit.sagas && s.credit.sagas[s.runOf[q]].phase.Returned?
    requires s.key.row.Some?
    ensures acts <= acts' && Exec(acts', maxAttempts) == Some(s') && s'.credit == s.credit && s'.runOf == s.runOf
    ensures var answer := Some(Answer(s.credit.sagas[s.runOf[q]], rest));
            && s'.key.row == Some(s.key.row.value.(response := answer))
            && s'.key.requests == s.key.requests[q := s.key.requests[q].(phase := I.Phase.Succeeded(answer, false))]
  {
    acts', s' := Extend(acts, maxAttempts, s, RunReturns(q, rest));
    acts', s' := Extend(acts', maxAttempts, s', Key(I.UpdateRow(q)));
  }

  /** The next request with the same hash finds it. */
  lemma Replays(acts: seq<Action>, maxAttempts: int, s: State, p: I.ReqId, caller: I.Caller)
    returns (acts': seq<Action>, s': State)
    requires Exec(acts, maxAttempts) == Some(s) && Fresh(s, p) && s.key.row.Some? && s.key.row.value.response.Some?
    ensures acts <= acts' && Exec(acts', maxAttempts) == Some(s') && s'.credit == s.credit && s'.runOf == s.runOf
    ensures s'.key.requests == s.key.requests[p := I.Request(s.key.row.value.requestHash, caller,
                                                             I.Phase.Replayed(s.key.row.value.response.value))]
  {
    acts', s' := Looks(acts, maxAttempts, s, p, s.key.row.value.requestHash, caller);
  }

  /** The run of a claimed key goes through. */
  lemma RunsBehindKey(acts: seq<Action>, maxAttempts: int, s: State, r: Rid, w: Wallet, question: string, cost: int,
                      outcome: S.RagOutcome, x: S.TxId, now: int, newId: string)
    returns (acts': seq<Action>, credit: S.State)
    requires Exec(acts, maxAttempts) == Some(s) && x !in s.credit.txs && S.NoTxOf(s.credit, r)
    requires r in s.credit.sagas && s.credit.sagas[r] == S.Saga(w, question, cost, S.Reserving)
    requires r !in Fold(s.credit.db.Stream(w)).reservations && r !in s.credit.db.aiQueries
    requires 0 < cost <= Fold(s.credit.db.Stream(w)).Available()
    ensures acts <= acts' && Exec(acts', maxAttempts) == Some(s.(credit := credit))
    ensures r in credit.sagas && credit.sagas[r] == S.Saga(w, question, cost, P.Ended(outcome))
    ensures P.Paid(s.credit.db, credit.db, w, r, P.PaysFor(outcome, cost), P.RowOf(outcome, w, question, cost, newId))
  {
    var part := CreditPart(acts, maxAttempts, s);
    var part';
    part', credit := P.AskedGoesThrough(part, maxAttempts, s.credit, r, w, question, cost, outcome, x, now, newId);
    acts' := LiftCredit(acts, maxAttempts, s, part, part', credit);
  }

  /** From the claim to the end of the run. */
  lemma ClaimsAndRuns(acts: seq<Action>, maxAttempts: int, s: State, q: I.ReqId, hash: I.Hash, caller: I.Caller, r: Rid,
                      w: Wallet, question: string, cost: int, outcome: S.RagOutcome, x: S.TxId, now: int, newId: string)
    returns (acts': seq<Action>, s': State)
    requires Exec(acts, maxAttempts) == Some(s) && s.key.row.None? && Fresh(s, q)
    requires r !in s.credit.sagas && x !in s.credit.txs && 0 < cost <= Fold(s.credit.db.Stream(w)).Available()
    ensures acts <= acts' && Exec(acts', maxAttempts) == Some(s') && s'.runOf == s.runOf[q := r]
    ensures s'.key == I.State(Some(I.Row(hash, None)),
                              s.key.requests[q := I.Request(hash, caller, I.Phase.Running)])
    ensures r in s'.credit.sagas && s'.credit.sagas[r] == S.Saga(w, question, cost, P.Ended(outcome))
    ensures P.Paid(s.credit.db, s'.credit.db, w, r, P.PaysFor(outcome, cost),
                   P.RowOf(outcome, w, question, cost, newId))
  {
    var part := CreditPart(acts, maxAttempts, s);
    P.NewIdIsFresh(part, maxAttempts, s.credit, r, w);
    var s1, credit;
    acts', s1 := Claims(acts, maxAttempts, s, q, hash, caller, r, w, question, cost);
    acts', credit := RunsBehindKey(acts', maxAttempts, s1, r, w, question, cost, outcome, x, now, newId);
    s' := s1.(credit := credit);
  }

  /** From the end of the run to the replay. */
  lemma RecordsAndReplays(acts: seq<Action>, maxAttempts: int, s: State, q: I.ReqId, p: I.ReqId, caller: I.Caller,
                          body: I.Response)
    returns (acts': seq<Action>, s': State)
    requires Exec(acts, maxAttempts) == Some(s) && q in s.key.requests && s.key.requests[q].phase.Running?
    requires q in s.runOf && s.runOf[q] in s.credit.sagas && s.credit.sagas[s.runOf[q]].phase.Returned?
    requires s.key.row.Some? && Fresh(s, p) && Answer(s.credit.sagas[s.runOf[q]], body.rest) == body
    ensures acts <= acts' && Exec(acts', maxAttempts) == Some(s') && s'.credit == s.credit && s'.runOf == s.runOf
    ensures s'.key.requests == s.key.requests[q := s.key.requests[q].(phase := I.Phase.Succeeded(Some(body), false))]
                               [p := I.Request(s.key.row.value.requestHash, caller, I.Phase.Replayed(body))]
  {
    var s1;
    acts', s1 := Records(acts, maxAttempts, s, q, body.rest);
    acts', s' := Replays(acts', maxAttempts, s1, p, caller);
  }

  /** A key without a row, in any reachable state: a request can claim it, run, and be answered
      and charged for an answer, and the same request sent again is replayed that answer with
      that cost, and runs nothing. */
  lemma {:induction false} AnswerThenReplay(acts: seq<Action>, maxAttempts: int, s: State, q: I.ReqId, p: I.ReqId,
                                            hash: I.Hash, caller: I.Caller, r: Rid, w: Wallet, question: string,
                                            cost: int, outcome: S.RagOutcome, rest: string, x: S.TxId, now: int,
                                            newId: string)
    returns (acts': seq<Action>, s': State)
    requires Exec(acts, maxAttempts) == Some(s) && s.key.row.None? && Fresh(s, q) && Fresh(s, p) && p != q
    requires r !in s.credit.sagas && x !in s.credit.txs && 0 < cost <= Fold(s.credit.db.Stream(w)).Available()
    requires outcome.Answered? || outcome.NoResults?
    ensures acts <= acts' && Exec(acts', maxAttempts) == Some(s') && s'.runOf == s.runOf[q := r]
    ensures var body := I.Body(Some(if outcome.Answered? then cost else 0), rest);
            s'.key.requests == s.key.requests[q := I.Request(hash, caller, I.Phase.Succeeded(Some(body), false))]
                               [p := I.Request(hash, caller, I.Phase.Replayed(body))]
    ensures P.Paid(s.credit.db, s'.credit.db, w, r, if outcome.Answered? then cost else 0,
                   P.RowOf(outcome, w, question, cost, newId))
  {
    var s1;
    acts', s1 := ClaimsAndRuns(acts, maxAttempts, s, q, hash, caller, r, w, question, cost, outcome, x, now, newId);
    var body := I.Body(Some(if outcome.Answered? then cost else 0), rest);
    assert Answer(s1.credit.sagas[r], rest) == body;
    acts', s' := RecordsAndReplays(acts', maxAttempts, s1, q, p, caller, body);
  }
}
