/** POST /ai/ask behind the idempotency interceptor: the requests of one key, each running
    the saga when it gets through, inside a system full of other runs. */
module IdempotentAsk {
  import opened Foundations
  import opened CreditLedger
  import opened CreditTables
  import opened CreditBooks
  import S = CreditSystem
  import SI = CreditSystemInvariant
  import ST = CreditSystemTheorems
  import I = Idempotency

  // `runOf` is the saga run each request that got through started.
  datatype State = State(credit: S.State, key: I.State, runOf: map<I.ReqId, Rid>)

  const Init := State(S.Init, I.Init, map[])

  datatype Action =
    | Credit(step: S.Action)
    | Key(move: I.Action)
    | StartRun(req: I.ReqId, rid: Rid, wallet: Wallet, question: string, cost: int)
    | RunReturns(req: I.ReqId, rest: string)
    | RunThrows(req: I.ReqId)
    | ProcessDies(req: I.ReqId)

  predicate Enabled(s: State, a: Action) {
    match a
    // A run behind the key crashes with its request, in ProcessDies.
    case Credit(step) => S.Enabled(s.credit, step) && (step.Crash? ==> forall q <- s.runOf :: s.runOf[q] != step.rid)
    // Claiming the row and resolving the handler go together with the run they are about.
    case Key(move) =>
      && I.Enabled(s.key, move) && !move.HandlerSucceeds? && !move.HandlerFails? && !move.Die?
      && (move.Create? ==> s.key.row.Some?)
    case StartRun(q, r, w, question, cost) =>
      && I.Enabled(s.key, I.Create(q)) && s.key.row.None?
      && S.Enabled(s.credit, S.Ask(r, w, question, cost))
    case RunReturns(q, rest) =>
      && q in s.key.requests && s.key.requests[q].phase.Running? && q in s.runOf && s.runOf[q] in s.credit.sagas
      && s.credit.sagas[s.runOf[q]].phase.Returned?
    case RunThrows(q) =>
      && I.Enabled(s.key, I.HandlerFails(q)) && q in s.runOf && s.runOf[q] in s.credit.sagas
      && s.credit.sagas[s.runOf[q]].phase.Threw?
    case ProcessDies(q) => I.Enabled(s.key, I.Die(q))
  }

  /** The body a returned run answers with: the cost is the one it reports. */
  function Answer(run: S.Saga, rest: string): I.Response
    requires run.phase.Returned?
  {
    I.Body(Some(S.ReportedCost(run)), rest)
  }

  /** The run of a dying request, wherever it is, stops there. */
  function Crashed(s: State, q: I.ReqId): S.State {
    if q in s.runOf && S.Enabled(s.credit, S.Crash(s.runOf[q])) then
      S.Moved(s.credit, s.runOf[q], S.Phase.Crashed)
    else
      s.credit
  }

  ghost function Do(s: State, a: Action, maxAttempts: int): State
    requires Enabled(s, a)
  {
    match a
    case Credit(step) => s.(credit := S.Do(s.credit, step, maxAttempts))
    case Key(move) => s.(key := I.Do(s.key, move))
    case StartRun(q, r, w, question, cost) =>
      State(S.Do(s.credit, S.Ask(r, w, question, cost), maxAttempts), I.Do(s.key, I.Create(q)), s.runOf[q := r])
    case RunReturns(q, rest) =>
      s.(key := I.Do(s.key, I.HandlerSucceeds(q, Some(Answer(s.credit.sagas[s.runOf[q]], rest)))))
    case RunThrows(q) => s.(key := I.Do(s.key, I.HandlerFails(q)))
    case ProcessDies(q) => s.(credit := Crashed(s, q), key := I.Do(s.key, I.Die(q)))
  }

  ghost function Exec(acts: seq<Action>, maxAttempts: int): Option<State> {
    if acts == [] then Some(Init)
    else
      match Exec(acts[..|acts| - 1], maxAttempts)
      case None => None
      case Some(s) =>
        if Enabled(s, acts[|acts| - 1]) then Some(Do(s, acts[|acts| - 1], maxAttempts)) else None
  }

  predicate Reports(run: S.Saga, answer: Option<I.Response>) {
    run.phase.Returned? && answer.Some? && answer.value.creditCost == Some(S.ReportedCost(run))
  }

  /** A request that got through holds the claim, or its run threw. */
  ghost predicate LinkOk(s: State, q: I.ReqId) {
    && q in s.runOf && q in s.key.requests && s.runOf[q] in s.credit.sagas
    && (I.Holds(s.key, q) || s.key.requests[q].phase.Failed?)
    && (s.key.requests[q].phase.Failing? || s.key.requests[q].phase.Failed? ==> s.credit.sagas[s.runOf[q]].phase.Threw?)
    && (s.credit.sagas[s.runOf[q]].phase.Crashed? ==> s.key.requests[q].phase.Dead?)
    && (s.key.requests[q].phase.Succeeded? ==>
          Reports(s.credit.sagas[s.runOf[q]], s.key.requests[q].phase.answer))
  }

  predicate GotThrough(p: I.Phase) {
    p.Running? || p.Failing? || p.Succeeded?
  }

  ghost predicate Links(s: State) {
    && (forall q <- s.runOf :: LinkOk(s, q))
    && (forall p, q :: p in s.runOf && q in s.runOf && s.runOf[p] == s.runOf[q] ==> p == q)
    && (forall q <- s.key.requests :: GotThrough(s.key.requests[q].phase) ==> q in s.runOf)
  }

  ghost predicate Inv(s: State) {
    SI.Inv(s.credit) && I.Inv(s.key) && Links(s)
  }

  lemma CreditStepKeepsLinks(s: State, step: S.Action, maxAttempts: int)
    requires Links(s) && Enabled(s, Credit(step))
    ensures Links(s.(credit := S.Do(s.credit, step, maxAttempts)))
  {
    var s' := s.(credit := S.Do(s.credit, step, maxAttempts));
    forall q | q in s'.runOf
      ensures LinkOk(s', q)
    {
      assert LinkOk(s, q);
      RunsStay(s.credit, step, maxAttempts, s.runOf[q]);
      if ST.Settled(s.credit, s.runOf[q]) {
        ST.StepKeepsSettled(s.credit, step, maxAttempts, s.runOf[q]);
      }
    }
  }

  lemma RunsStay(s: S.State, a: S.Action, maxAttempts: int, r: Rid)
    requires S.Enabled(s, a) && r in s.sagas
    ensures r in S.Do(s, a, maxAttempts).sagas
    ensures S.Do(s, a, maxAttempts).sagas[r].phase.Crashed? ==> s.sagas[r].phase.Crashed? || a == S.Crash(r)
  {
    if a.Finish? {
      var tx := s.txs[a.tx];
      var reply := Execute(s.db, tx.cmd, tx.seen, a.now, a.newId).1;
      assert S.Do(s, a, maxAttempts).sagas == S.DeliveredToRun(s.sagas, tx.owner, reply);
    }
  }

  lemma KeyMoveKeepsLinks(s: State, move: I.Action)
    requires Links(s) && Enabled(s, Key(move))
    ensures Links(s.(key := I.Do(s.key, move)))
  {
    var s' := s.(key := I.Do(s.key, move));
    forall q | q in s'.runOf
      ensures LinkOk(s', q)
    {
      assert LinkOk(s, q);
    }
  }

  lemma StartKeepsLinks(s: State, q: I.ReqId, r: Rid, w: Wallet, question: string, cost: int)
    requires Links(s) && Enabled(s, StartRun(q, r, w, question, cost))
    ensures Links(State(s.credit.(sagas := s.credit.sagas[r := S.Saga(w, question, cost, S.Reserving)]),
                        I.Do(s.key, I.Create(q)), s.runOf[q := r]))
  {
    var s' := State(s.credit.(sagas := s.credit.sagas[r := S.Saga(w, question, cost, S.Reserving)]),
                    I.Do(s.key, I.Create(q)), s.runOf[q := r]);
    assert q in s.runOf ==> LinkOk(s, q);
    forall p | p in s'.runOf
      ensures LinkOk(s', p) && (p != q ==> s'.runOf[p] != r)
    {
      assert p != q ==> LinkOk(s, p);
    }
  }

  lemma ResolveKeepsLinks(s: State, a: Action, maxAttempts: int)
    requires Links(s) && Enabled(s, a) && (a.RunReturns? || a.RunThrows?)
    ensures Links(Do(s, a, maxAttempts))
  {
    var s' := Do(s, a, maxAttempts);
    forall q | q in s'.runOf
      ensures LinkOk(s', q)
    {
      assert LinkOk(s, q);
    }
  }

  lemma DeathKeepsLinks(s: State, q: I.ReqId)
    requires Links(s) && I.Enabled(s.key, I.Die(q))
    ensures Links(s.(credit := Crashed(s, q), key := I.Do(s.key, I.Die(q))))
  {
    var s' := s.(credit := Crashed(s, q), key := I.Do(s.key, I.Die(q)));
    forall p | p in s'.runOf
      ensures LinkOk(s', p)
    {
      assert LinkOk(s, p);
      assert q in s.runOf ==> LinkOk(s, q);
    }
  }

  lemma StepKeepsInv(s: State, a: Action, maxAttempts: int)
    requires Inv(s) && Enabled(s, a)
    ensures Inv(Do(s, a, maxAttempts))
  {
    match a
    case Credit(step) =>
      SI.StepKeepsInv(s.credit, step, maxAttempts);
      CreditStepKeepsLinks(s, step, maxAttempts);
    case Key(move) =>
      I.StepKeepsInv(s.key, move);
      KeyMoveKeepsLinks(s, move);
    case StartRun(q, r, w, question, cost) =>
      SI.StepKeepsInv(s.credit, S.Ask(r, w, question, cost), maxAttempts);
      I.StepKeepsInv(s.key, I.Create(q));
      StartKeepsLinks(s, q, r, w, question, cost);
    case RunReturns(q, rest) =>
      I.StepKeepsInv(s.key, I.HandlerSucceeds(q, Some(Answer(s.credit.sagas[s.runOf[q]], rest))));
      ResolveKeepsLinks(s, a, maxAttempts);
    case RunThrows(q) =>
      I.StepKeepsInv(s.key, I.HandlerFails(q));
      ResolveKeepsLinks(s, a, maxAttempts);
    case ProcessDies(q) =>
      if Crashed(s, q) != s.credit {
        SI.StepKeepsInv(s.credit, S.Crash(s.runOf[q]), maxAttempts);
      }
      I.StepKeepsInv(s.key, I.Die(q));
      DeathKeepsLinks(s, q);
  }

  lemma {:induction false} AlwaysInv(acts: seq<Action>, maxAttempts: int)
    requires Exec(acts, maxAttempts).Some?
    ensures Inv(Exec(acts, maxAttempts).value)
  {
    if acts == [] {
      SI.AlwaysInv([], maxAttempts);
    } else {
      AlwaysInv(acts[..|acts| - 1], maxAttempts);
      StepKeepsInv(Exec(acts[..|acts| - 1], maxAttempts).value, acts[|acts| - 1], maxAttempts);
    }
  }

  /** The runs of this key whose hold was charged. */
  ghost predicate ChargedFor(s: State, q: I.ReqId) {
    && q in s.runOf && s.runOf[q] in s.credit.sagas
    && var run := s.credit.sagas[s.runOf[q]];
       Fold(s.credit.db.Stream(run.wallet)).StatusOf(s.runOf[q]) == Some(COMMITTED)
  }

  /** With one idempotency key, over any number of concurrent and repeated requests and with
      crashes anywhere, at most one request is charged: every other run of the key causes no
      balance drop in any wallet, and the charged one drops it by its own cost, once. */
  lemma {:induction false} OneChargePerKey(acts: seq<Action>, maxAttempts: int, s: State, p: I.ReqId, q: I.ReqId)
    requires Exec(acts, maxAttempts) == Some(s)
    ensures ChargedFor(s, p) && ChargedFor(s, q) ==> p == q
    ensures q in s.runOf ==> s.runOf[q] in s.credit.sagas
    ensures q in s.runOf ==>
              var (r, run) := (s.runOf[q], s.credit.sagas[s.runOf[q]]);
              forall w :: BalanceDrop(s.credit.db.Stream(w), r) ==
                          (if ChargedFor(s, q) && w == run.wallet then run.cost else 0)
  {
    AlwaysInv(acts, maxAttempts);
    if ChargedFor(s, p) && ChargedFor(s, q) {
      ChargedHolds(s, p);
      ChargedHolds(s, q);
    }
    if q in s.runOf {
      assert LinkOk(s, q);
      DropOfRun(s.credit, s.runOf[q]);
    }
  }

  /** What a replay says about money is true: the cost it names is the one the key's only
      successful run reported, and the whole drop in balance of that run; no other run of the
      key has taken anything from any wallet. */
  lemma {:induction false} ReplayNamesTheCharge(acts: seq<Action>, maxAttempts: int, s: State, q: I.ReqId)
    returns (p: I.ReqId)
    requires Exec(acts, maxAttempts) == Some(s) && q in s.key.requests && s.key.requests[q].phase.Replayed?
    ensures I.HasSucceeded(s.key, p) && s.key.requests[p].hash == s.key.requests[q].hash
    ensures p in s.runOf && s.runOf[p] in s.credit.sagas
    ensures var run := s.credit.sagas[s.runOf[p]];
            && Reports(run, Some(s.key.requests[q].phase.response))
            && BalanceDrop(s.credit.db.Stream(run.wallet), s.runOf[p]) == S.ReportedCost(run)
            && forall w :: w != run.wallet ==> BalanceDrop(s.credit.db.Stream(w), s.runOf[p]) == 0
    ensures forall o, w :: o in s.runOf && o != p ==> BalanceDrop(s.credit.db.Stream(w), s.runOf[o]) == 0
  {
    AlwaysInv(acts, maxAttempts);
    p := Replayer(s.key, q);
    assert LinkOk(s, p);
    ReturnedDrop(s.credit, s.runOf[p]);
    forall o, w | o in s.runOf && o != p
      ensures BalanceDrop(s.credit.db.Stream(w), s.runOf[o]) == 0
    {
      OtherRunTookNothing(s, p, o, w);
    }
  }

  lemma Replayer(k: I.State, q: I.ReqId) returns (p: I.ReqId)
    requires I.Inv(k) && q in k.requests && k.requests[q].phase.Replayed?
    ensures I.SucceededWith(k, p, k.requests[q].phase.response, k.requests[q].hash)
  {
    p :| I.SucceededWith(k, p, k.requests[q].phase.response, k.requests[q].hash);
  }

  lemma ReturnedDrop(s: S.State, r: Rid)
    requires SI.Inv(s) && r in s.sagas && s.sagas[r].phase.Returned?
    ensures var run := s.sagas[r];
            && BalanceDrop(s.db.Stream(run.wallet), r) == S.ReportedCost(run)
            && forall w :: w != run.wallet ==> BalanceDrop(s.db.Stream(w), r) == 0
  {
    var run := s.sagas[r];
    assert SI.PhaseFits(run.phase, HeldIn(s.db, run.wallet, r));
    DropOfRun(s, r);
  }

  lemma OtherRunTookNothing(s: State, p: I.ReqId, o: I.ReqId, w: Wallet)
    requires Inv(s) && I.HasSucceeded(s.key, p) && o in s.runOf && o != p
    ensures BalanceDrop(s.credit.db.Stream(w), s.runOf[o]) == 0
  {
    assert LinkOk(s, o) && I.Holds(s.key, p);
    if ChargedFor(s, o) {
      ChargedHolds(s, o);
    }
    DropOfRun(s.credit, s.runOf[o]);
  }

  /** What a crash leaves: the hold of the run is out of its hands, but its key answers
      nobody any more. The retry the client was promised is refused until the claim expires. */
  lemma CrashedRunBlocksKey(acts: seq<Action>, maxAttempts: int, s: State, q: I.ReqId)
    requires Exec(acts, maxAttempts) == Some(s) && q in s.runOf && s.runOf[q] in s.credit.sagas
    requires s.credit.sagas[s.runOf[q]].phase.Crashed?
    ensures !I.Usable(s.key) && s.key.row.Some? && s.key.row.value.response.None?
    ensures forall p :: p != q ==> !ChargedFor(s, p)
  {
    AlwaysInv(acts, maxAttempts);
    DeadRunIsDeadRequest(s, q);
    I.DeadHolderBlocks(s.key, q);
    forall p | ChargedFor(s, p)
      ensures p == q
    {
      ChargedHolds(s, p);
      assert I.Holds(s.key, q);
    }
  }

  lemma DeadRunIsDeadRequest(s: State, q: I.ReqId)
    requires Links(s) && q in s.runOf && s.runOf[q] in s.credit.sagas && s.credit.sagas[s.runOf[q]].phase.Crashed?
    ensures q in s.key.requests && s.key.requests[q].phase.Dead?
  {
    assert LinkOk(s, q);
  }

  lemma ChargedHolds(s: State, q: I.ReqId)
    requires Inv(s) && ChargedFor(s, q)
    ensures I.Holds(s.key, q)
  {
    assert LinkOk(s, q);
    var run := s.credit.sagas[s.runOf[q]];
    assert SI.PhaseFits(run.phase, HeldIn(s.credit.db, run.wallet, s.runOf[q]));
  }

  lemma DropOfRun(s: S.State, r: Rid)
    requires SI.Inv(s) && r in s.sagas
    ensures var run := s.sagas[r];
            forall w :: BalanceDrop(s.db.Stream(w), r) ==
                        (if Fold(s.db.Stream(run.wallet)).StatusOf(r) == Some(COMMITTED) && w == run.wallet
                         then run.cost else 0)
  {
    var run := s.sagas[r];
    assert BooksAgree(s.db, run.wallet, r, run.cost);
    forall w
      ensures BalanceDrop(s.db.Stream(w), r) ==
              (if Fold(s.db.Stream(run.wallet)).StatusOf(r) == Some(COMMITTED) && w == run.wallet then run.cost else 0)
    {
      DropIsTheCharge(s.db.Stream(w), r);
      if w != run.wallet {
        assert HeldIn(s.db, w, r).None?;
      }
    }
  }
}
