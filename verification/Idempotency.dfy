/** The idempotency-key protocol, claim before execute: any number of requests with one key,
    interleaved statement by statement, each of which may die between any two of them.
    Purging expired claims is not part of this model. */
module Idempotency {
  import opened Foundations

  type Hash = string
  type ReqId = nat
  type Caller = string

  // A response body. Of its fields only the reported cost is told apart, for bodies with one.
  datatype Response = Body(creditCost: Option<int>, rest: string)

  // A null response is a claim whose handler has not been recorded as finished. A handler
  // may itself answer null; recording that leaves the row as it was.
  datatype Row = Row(requestHash: Hash, response: Option<Response>)

  datatype Verdict = Proceed | Replay(response: Response) | Conflict | Unprocessable

  /** What a request does about the row its lookup returned. */
  function OnFound(row: Option<Row>, hash: Hash): Verdict {
    match row
    case None => Proceed
    case Some(r) =>
      if r.requestHash != hash then Unprocessable
      else if r.response.Some? then Replay(r.response.value)
      else Conflict
  }

  datatype Phase =
    | Arrived
    | Claiming
    | Running
    | Failing
    | Failed
    | Dead
    | Succeeded(answer: Option<Response>, recording: bool)
    | Replayed(response: Response)
    | Conflicted
    | Rejected
    | Errored

  // The hash covers method, URL and body; who asks is neither in it nor in the row.
  datatype Request = Request(hash: Hash, caller: Caller, phase: Phase)

  datatype State = State(row: Option<Row>, requests: map<ReqId, Request>)

  const Init := State(None, map[])

  datatype Action =
    | Arrive(req: ReqId, hash: Hash, caller: Caller)
    | Find(req: ReqId)
    | Create(req: ReqId)
    | CreateErrs(req: ReqId, inserted: bool)
    | HandlerSucceeds(req: ReqId, answer: Option<Response>)
    | HandlerFails(req: ReqId)
    | UpdateRow(req: ReqId)
    | UpdateFails(req: ReqId)
    | DeleteRow(req: ReqId)
    | DeleteFails(req: ReqId)
    | Die(req: ReqId)

  predicate Enabled(s: State, a: Action) {
    if a.Arrive? then a.req !in s.requests
    else
      a.req in s.requests &&
      var p := s.requests[a.req].phase;
      match a
      case Find(_) => p.Arrived?
      case Create(_) => p.Claiming?
      case CreateErrs(_, inserted) => p.Claiming? && (inserted ==> s.row.None?)
      case HandlerSucceeds(_, _) => p.Running?
      case HandlerFails(_) => p.Running?
      case UpdateRow(_) => p.Succeeded? && p.recording
      case UpdateFails(_) => p.Succeeded? && p.recording
      case Die(_) => Unfinished(p)
      case _ => p.Failing?
  }

  predicate Unfinished(p: Phase) {
    p.Arrived? || p.Claiming? || p.Running? || p.Failing? || (p.Succeeded? && p.recording)
  }

  /** What is left of a request whose process dies. Before the claim, nothing; after a success,
      a success that nobody will record any more; in between, a claim with a dead holder. */
  function AfterDeath(p: Phase): Phase {
    match p
    case Running => Dead
    case Failing => Dead
    case Succeeded(answer, _) => Succeeded(answer, false)
    case _ => Errored
  }

  function Moved(s: State, req: ReqId, p: Phase): State
    requires req in s.requests
  {
    s.(requests := s.requests[req := s.requests[req].(phase := p)])
  }

  function AfterFind(v: Verdict): Phase {
    match v
    case Proceed => Claiming
    case Replay(response) => Replayed(response)
    case Conflict => Conflicted
    case Unprocessable => Rejected
  }

  function Do(s: State, a: Action): State
    requires Enabled(s, a)
  {
    match a
    case Arrive(q, hash, caller) => s.(requests := s.requests[q := Request(hash, caller, Arrived)])
    case Find(q) => Moved(s, q, AfterFind(OnFound(s.row, s.requests[q].hash)))
    // The primary key: whoever inserts first owns the claim.
    case Create(q) =>
      if s.row.Some? then Moved(s, q, Conflicted)
      else Moved(s, q, Running).(row := Some(Row(s.requests[q].hash, None)))
    case CreateErrs(q, inserted) =>
      Moved(s, q, Errored).(row := if inserted then Some(Row(s.requests[q].hash, None)) else s.row)
    // The update is fired without waiting for it.
    case HandlerSucceeds(q, answer) => Moved(s, q, Succeeded(answer, true))
    case HandlerFails(q) => Moved(s, q, Failing)
    case UpdateRow(q) =>
      var answer := s.requests[q].phase.answer;
      Moved(s, q, Succeeded(answer, false)).(row := if s.row.Some? then Some(s.row.value.(response := answer))
                                             else None)
    case UpdateFails(q) => Moved(s, q, Succeeded(s.requests[q].phase.answer, false))
    case DeleteRow(q) => Moved(s, q, Failed).(row := None)
    case DeleteFails(q) => Moved(s, q, Failed)
    case Die(q) => Moved(s, q, AfterDeath(s.requests[q].phase))
  }

  function Exec(acts: seq<Action>): Option<State> {
    if acts == [] then Some(Init)
    else
      match Exec(acts[..|acts| - 1])
      case None => None
      case Some(s) => if Enabled(s, acts[|acts| - 1]) then Some(Do(s, acts[|acts| - 1])) else None
  }

  // -------------------------------------------------------------------- the invariant

  /** Whoever holds the claim: its handler runs, has succeeded, has failed with the claim not
      yet deleted, or died. */
  predicate Holds(s: State, q: ReqId) {
    q in s.requests && var p := s.requests[q].phase; p.Running? || p.Failing? || p.Dead? || p.Succeeded?
  }

  ghost predicate SucceededWith(s: State, q: ReqId, response: Response, hash: Hash) {
    q in s.requests && s.requests[q].hash == hash && s.requests[q].phase.Succeeded?
    && s.requests[q].phase.answer == Some(response)
  }

  ghost predicate Inv(s: State) {
    && (forall q :: Holds(s, q) ==> s.row.Some? && s.row.value.requestHash == s.requests[q].hash)
    && (forall p, q :: Holds(s, p) && Holds(s, q) ==> p == q)
    && (s.row.Some? && s.row.value.response.Some? ==>
          exists q :: SucceededWith(s, q, s.row.value.response.value, s.row.value.requestHash))
    && (forall q <- s.requests :: s.requests[q].phase.Replayed? ==>
                                    exists p :: SucceededWith(s, p, s.requests[q].phase.response, s.requests[q].hash))
  }

  lemma SuccessStays(s: State, a: Action, q: ReqId, response: Response, hash: Hash)
    requires Enabled(s, a) && SucceededWith(s, q, response, hash)
    ensures SucceededWith(Do(s, a), q, response, hash)
  {
  }

  lemma StepKeepsInv(s: State, a: Action)
    requires Inv(s) && Enabled(s, a)
    ensures Inv(Do(s, a))
  {
    var s' := Do(s, a);
    assert a.DeleteRow? ==> Holds(s, a.req);
    forall q | Holds(s', q)
      ensures Holds(s, q) || (a == Create(q) && s.row.None?)
      ensures s'.row.Some? && s'.row.value.requestHash == s'.requests[q].hash
    {
    }
    if s'.row.Some? && s'.row.value.response.Some? {
      if a.UpdateRow? {
        assert Holds(s, a.req);
        assert SucceededWith(s', a.req, s'.row.value.response.value, s'.row.value.requestHash);
      } else {
        assert s'.row == s.row;
        var q :| SucceededWith(s, q, s.row.value.response.value, s.row.value.requestHash);
        SuccessStays(s, a, q, s.row.value.response.value, s.row.value.requestHash);
      }
    }
    forall q | q in s'.requests && s'.requests[q].phase.Replayed?
      ensures exists p :: SucceededWith(s', p, s'.requests[q].phase.response, s'.requests[q].hash)
    {
      var r := s'.requests[q];
      var p :| SucceededWith(s, p, r.phase.response, r.hash);
      SuccessStays(s, a, p, r.phase.response, r.hash);
    }
  }

  lemma {:induction false} AlwaysInv(acts: seq<Action>)
    requires Exec(acts).Some?
    ensures Inv(Exec(acts).value)
  {
    if acts != [] {
      AlwaysInv(acts[..|acts| - 1]);
      StepKeepsInv(Exec(acts[..|acts| - 1]).value, acts[|acts| - 1]);
    }
  }

  // --------------------------------------------------------------------- the theorems

  predicate HasSucceeded(s: State, q: ReqId) {
    q in s.requests && s.requests[q].phase.Succeeded?
  }

  /** In every interleaving, even when recording the response or deleting the claim fails: at
      most one handler run is in progress, at most one ever succeeds, and once one has, none
      is running. Every replayed response is that run's response, and goes only to requests
      with that run's hash. */
  lemma OneRunPerKey(acts: seq<Action>, p: ReqId, q: ReqId)
    requires Exec(acts).Some?
    ensures var s := Exec(acts).value;
            && (p in s.requests && q in s.requests && s.requests[p].phase.Running? && s.requests[q].phase.Running? ==>
                  p == q)
            && (HasSucceeded(s, p) && HasSucceeded(s, q) ==> p == q)
            && (HasSucceeded(s, p) ==> q in s.requests ==> !s.requests[q].phase.Running?)
            && (q in s.requests && s.requests[q].phase.Replayed? && HasSucceeded(s, p) ==>
                  s.requests[p].phase.answer == Some(s.requests[q].phase.response)
                  && s.requests[p].hash == s.requests[q].hash)
            && (q in s.requests && s.requests[q].phase.Replayed? ==> exists r :: HasSucceeded(s, r))
  {
    AlwaysInv(acts);
    var s := Exec(acts).value;
    if q in s.requests && s.requests[q].phase.Replayed? {
      var r :| SucceededWith(s, r, s.requests[q].phase.response, s.requests[q].hash);
      assert HasSucceeded(s, r);
      assert HasSucceeded(s, p) ==> Holds(s, p) && Holds(s, r);
    }
    assert Holds(s, p) && Holds(s, q) ==> p == q;
  }

  /** A holder that is alive and can still record a response or delete the claim. */
  predicate Alive(p: Phase) {
    p.Running? || p.Failing? || (p.Succeeded? && p.recording && p.answer.Some?)
  }

  /** A key can still do anything for a client: nobody has claimed it, a response is recorded,
      or its holder is alive. */
  predicate Usable(s: State) {
    || s.row.None?
    || s.row.value.response.Some?
    || exists q <- s.requests :: Alive(s.requests[q].phase)
  }

  predicate Served(s: State, q: ReqId) {
    q in s.requests && (s.requests[q].phase.Running? || s.requests[q].phase.Replayed?)
  }

  lemma DeadHolderBlocks(s: State, q: ReqId)
    requires Inv(s) && q in s.requests && s.requests[q].phase.Dead?
    ensures !Usable(s) && s.row.Some? && s.row.value.response.None?
  {
    assert Holds(s, q);
    forall p | Holds(s, p)
      ensures p == q
    {
    }
    if s.row.value.response.Some? {
      var p :| SucceededWith(s, p, s.row.value.response.value, s.row.value.requestHash);
      assert Holds(s, p);
    }
    assert forall p <- s.requests :: Alive(s.requests[p].phase) ==> Holds(s, p);
  }

  lemma StuckStep(s: State, a: Action, q: ReqId)
    requires Inv(s) && !Usable(s) && Enabled(s, a)
    ensures !Usable(Do(s, a)) && (Served(Do(s, a), q) ==> Served(s, q))
  {
  }

  /** From a state in which the key is not usable, no later request is ever run or replayed. */
  lemma {:induction false} StuckForGood(acts: seq<Action>, more: seq<Action>, q: ReqId)
    requires Exec(acts).Some? && Exec(acts + more).Some? && !Usable(Exec(acts).value)
    ensures !Usable(Exec(acts + more).value)
    ensures Served(Exec(acts + more).value, q) ==> Served(Exec(acts).value, q)
    decreases |more|
  {
    if more == [] {
      assert acts + more == acts;
    } else {
      var before := more[..|more| - 1];
      assert (acts + more)[..|acts + more| - 1] == acts + before;
      StuckForGood(acts, before, q);
      AlwaysInv(acts + before);
      StuckStep(Exec(acts + before).value, (acts + more)[|acts + more| - 1], q);
    }
  }

  lemma Extend(acts: seq<Action>, s: State, a: Action) returns (acts': seq<Action>, s': State)
    requires Exec(acts) == Some(s) && Enabled(s, a)
    ensures acts' == acts + [a] && s' == Do(s, a) && Exec(acts') == Some(s')
  {
    acts', s' := acts + [a], Do(s, a);
    assert acts'[..|acts|] == acts;
  }

  predicate Open(s: State, hash: Hash) {
    s.row.None? || (s.row.value.response.Some? && s.row.value.requestHash == hash)
  }

  /** The living holder of a usable key records its response or deletes its claim. */
  lemma Unclaim(acts: seq<Action>, s: State, hash: Hash) returns (acts': seq<Action>, s': State)
    requires Exec(acts) == Some(s) && Usable(s) && Inv(s)
    requires s.row.Some? ==> hash == s.row.value.requestHash
    ensures acts <= acts' && Exec(acts') == Some(s') && s'.requests.Keys == s.requests.Keys && Open(s', hash)
  {
    acts', s' := acts, s;
    if s.row.Some? && s.row.value.response.None? {
      var h :| h in s.requests && Alive(s.requests[h].phase);
      if s.requests[h].phase.Succeeded? {
        acts', s' := Extend(acts, s, UpdateRow(h));
      } else {
        if s.requests[h].phase.Running? {
          acts', s' := Extend(acts, s, HandlerFails(h));
        }
        acts', s' := Extend(acts', s', DeleteRow(h));
      }
    }
  }

  lemma ServeNow(acts: seq<Action>, s: State, q: ReqId, hash: Hash, caller: Caller)
    returns (acts': seq<Action>, s': State)
    requires Exec(acts) == Some(s) && Open(s, hash) && q !in s.requests
    ensures acts <= acts' && Exec(acts') == Some(s') && Served(s', q)
  {
    acts', s' := ExtendTwice(acts, s, Arrive(q, hash, caller), Find(q));
    if s'.requests[q].phase.Claiming? {
      acts', s' := Extend(acts', s', Create(q));
    }
  }

  lemma UsableKeyServes(acts: seq<Action>, q: ReqId, hash: Hash, caller: Caller) returns (more: seq<Action>)
    requires Exec(acts).Some? && Usable(Exec(acts).value) && q !in Exec(acts).value.requests
    requires Exec(acts).value.row.Some? ==> hash == Exec(acts).value.row.value.requestHash
    ensures Exec(acts + more).Some? && Served(Exec(acts + more).value, q)
  {
    AlwaysInv(acts);
    var acts', s := Unclaim(acts, Exec(acts).value, hash);
    acts', s := ServeNow(acts', s, q, hash, caller);
    more := acts'[|acts|..];
    assert acts + more == acts';
  }

  /** "A retry is not stuck behind a phantom claim": in a reachable state a new request with
      this hash can still be run or replayed if and only if the key is usable. */
  lemma RetryServedIff(acts: seq<Action>, q: ReqId, hash: Hash)
    requires Exec(acts).Some? && q !in Exec(acts).value.requests
    requires Exec(acts).value.row.Some? ==> hash == Exec(acts).value.row.value.requestHash
    ensures (exists more :: Exec(acts + more).Some? && Served(Exec(acts + more).value, q)) <==> Usable(Exec(acts).value)
  {
    if Usable(Exec(acts).value) {
      var more := UsableKeyServes(acts, q, hash, "");
    } else {
      forall more | Exec(acts + more).Some?
        ensures !Served(Exec(acts + more).value, q)
      {
        StuckForGood(acts, more, q);
      }
    }
  }

  // ------------------------------------------------------- the ways to get a phantom claim

  lemma FirstRun() returns (acts: seq<Action>, s: State)
    ensures acts == [Arrive(1, "h", "ann"), Find(1), Create(1)] && Exec(acts) == Some(s)
    ensures s == State(Some(Row("h", None)), map[1 := Request("h", "ann", Running)])
  {
    acts, s := Extend([], Init, Arrive(1, "h", "ann"));
    acts, s := Extend(acts, s, Find(1));
    acts, s := Extend(acts, s, Create(1));
  }

  /** What may follow, after which the key of a run is not usable: the process dies in the handler,
      the claim cannot be deleted after a failure, the response cannot be recorded, the
      process dies before it is, or the response is null. */
  datatype Mishap = DiesInHandler | DeleteIsLost | UpdateIsLost | DiesAnswering | AnswersNull

  function Ending(m: Mishap): seq<Action> {
    match m
    case DiesInHandler => [Die(1)]
    case DeleteIsLost => [HandlerFails(1), DeleteFails(1)]
    case UpdateIsLost => [HandlerSucceeds(1, Some(Body(None, "r"))), UpdateFails(1)]
    case DiesAnswering => [HandlerSucceeds(1, Some(Body(None, "r"))), Die(1)]
    case AnswersNull => [HandlerSucceeds(1, None), UpdateRow(1)]
  }

  lemma EndingBlocksKey(claimed: seq<Action>, s0: State, m: Mishap) returns (acts: seq<Action>, s: State)
    requires Exec(claimed) == Some(s0)
    requires s0 == State(Some(Row("h", None)), map[1 := Request("h", "ann", Running)])
    ensures acts == claimed + Ending(m) && Exec(acts) == Some(s)
    ensures s.row == Some(Row("h", None)) && !Usable(s)
  {
    if m.DiesInHandler? {
      acts, s := Extend(claimed, s0, Die(1));
    } else {
      acts, s := ExtendTwice(claimed, s0, Ending(m)[0], Ending(m)[1]);
    }
  }

  lemma ExtendTwice(acts: seq<Action>, s: State, a: Action, b: Action) returns (acts': seq<Action>, s': State)
    requires Exec(acts) == Some(s) && Enabled(s, a) && Enabled(Do(s, a), b)
    ensures acts' == acts + [a, b] && s' == Do(Do(s, a), b) && Exec(acts') == Some(s')
  {
    acts', s' := Extend(acts, s, a);
    acts', s' := Extend(acts', s', b);
  }

  lemma MishapBlocksKey(m: Mishap) returns (acts: seq<Action>, s: State)
    ensures acts == [Arrive(1, "h", "ann"), Find(1), Create(1)] + Ending(m) && Exec(acts) == Some(s)
    ensures s.row == Some(Row("h", None)) && !Usable(s)
  {
    var claimed, s0 := FirstRun();
    acts, s := EndingBlocksKey(claimed, s0, m);
  }

  /** So does an insert that reports an error although it went through. */
  lemma InsertedWithErrorBlocksKey() returns (acts: seq<Action>, s: State)
    ensures acts == [Arrive(1, "h", "ann"), Find(1), CreateErrs(1, true)] && Exec(acts) == Some(s)
    ensures s.row == Some(Row("h", None)) && !Usable(s)
  {
    acts, s := Extend([], Init, Arrive(1, "h", "ann"));
    acts, s := Extend(acts, s, Find(1));
    acts, s := Extend(acts, s, CreateErrs(1, true));
  }

  // ------------------------------------------------------------------ who gets a replay

  /** A replay goes back to the caller whose run it is as long as one caller alone sends
      requests with that hash under the key. */
  lemma OwnKeyOwnAnswer(acts: seq<Action>, p: ReqId, q: ReqId, caller: Caller)
    requires Exec(acts).Some? && HasSucceeded(Exec(acts).value, p)
    requires q in Exec(acts).value.requests && Exec(acts).value.requests[q].phase.Replayed?
    requires forall r <- Exec(acts).value.requests ::
               Exec(acts).value.requests[r].hash == Exec(acts).value.requests[q].hash ==>
                 Exec(acts).value.requests[r].caller == caller
    ensures Exec(acts).value.requests[p].caller == Exec(acts).value.requests[q].caller == caller
    ensures Exec(acts).value.requests[p].phase.answer == Some(Exec(acts).value.requests[q].phase.response)
  {
    OneRunPerKey(acts, p, q);
  }

  /** The protocol itself does not look: once a response is recorded, any caller's request
      with the same hash gets it. */
  lemma ReplayIgnoresCaller(acts: seq<Action>, s: State, p: ReqId, q: ReqId, caller: Caller)
    returns (acts': seq<Action>, s': State)
    requires Exec(acts) == Some(s) && HasSucceeded(s, p) && s.row.Some? && s.row.value.response.Some?
             && q !in s.requests
    ensures acts' == acts + [Arrive(q, s.requests[p].hash, caller)] + [Find(q)] && Exec(acts') == Some(s')
    ensures s'.requests[q] == Request(s.requests[p].hash, caller, Replayed(s.row.value.response.value))
    ensures s.requests[p].phase.answer == s.row.value.response
  {
    AlwaysInv(acts);
    assert Holds(s, p);
    var r :| SucceededWith(s, r, s.row.value.response.value, s.row.value.requestHash);
    assert Holds(s, r);
    acts', s' := Extend(acts, s, Arrive(q, s.requests[p].hash, caller));
    acts', s' := Extend(acts', s', Find(q));
  }
}
