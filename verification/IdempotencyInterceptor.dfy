/** One request through the interceptor, against the table of claims: every branch, and what
    it leaves in the row. Each way through is a path of the protocol in Idempotency.dfy. */
module IdempotencyInterceptor {
  import opened Foundations
  import P = Idempotency

  type Key = string

  datatype HandlerResult = Answers(answer: Option<P.Response>) | Throws

  // What the request meets: another request that claims the key between its lookup and its
  // insert, an insert that fails for some other reason (with the row inserted or not), what
  // its handler does, and whether the write after that fails.
  datatype Env = Env(rival: Option<P.Hash>, createError: Option<bool>, handler: HandlerResult, lastWriteFails: bool)

  datatype Outcome =
    | PassedThrough(result: HandlerResult)
    | Ran(result: HandlerResult)
    | Replayed(response: P.Response)
    | Conflict
    | Unprocessable
    | CreateError

  const MUTATION_METHODS := {"POST", "PATCH", "PUT", "DELETE"}

  function PhaseOf(outcome: Outcome): P.Phase {
    match outcome
    case PassedThrough(_) => P.Arrived
    case Ran(Answers(answer)) => P.Succeeded(answer, false)
    case Ran(Throws) => P.Failed
    case Replayed(response) => P.Replayed(response)
    case Conflict => P.Conflicted
    case Unprocessable => P.Rejected
    case CreateError => P.Errored
  }

  /** The protocol state after some of its actions, or nothing if one was not possible. */
  ghost function Path(s: P.State, acts: seq<P.Action>): Option<P.State> {
    if acts == [] then Some(s)
    else
      match Path(s, acts[..|acts| - 1])
      case None => None
      case Some(s') => if P.Enabled(s', acts[|acts| - 1]) then Some(P.Do(s', acts[|acts| - 1])) else None
  }

  lemma PathSnoc(s: P.State, acts: seq<P.Action>, a: P.Action) returns (acts': seq<P.Action>, s': P.State)
    requires Path(s, acts).Some? && P.Enabled(Path(s, acts).value, a)
    ensures acts' == acts + [a] && s' == P.Do(Path(s, acts).value, a) && Path(s, acts') == Some(s')
  {
    acts', s' := acts + [a], P.Do(Path(s, acts).value, a);
    assert acts'[..|acts|] == acts;
  }

  /** A path from a reachable state stays within the reachable states, so what Idempotency
      proves of them holds of every end of `Intercept`. */
  lemma {:induction false} PathsAreRuns(acts: seq<P.Action>, more: seq<P.Action>)
    requires P.Exec(acts).Some? && Path(P.Exec(acts).value, more).Some?
    ensures P.Exec(acts + more) == Path(P.Exec(acts).value, more)
    ensures P.Inv(P.Exec(acts + more).value)
    decreases |more|
  {
    if more == [] {
      assert acts + more == acts;
    } else {
      assert (acts + more)[..|acts + more| - 1] == acts + more[..|more| - 1];
      PathsAreRuns(acts, more[..|more| - 1]);
    }
    P.AlwaysInv(acts + more);
  }

  /** Another request claims the key: it arrives, finds nothing and inserts. */
  lemma RivalClaims(s: P.State, acts: seq<P.Action>, p: P.ReqId, hash: P.Hash, caller: P.Caller)
    returns (acts': seq<P.Action>, s': P.State)
    requires Path(s, acts).Some? && p !in Path(s, acts).value.requests && Path(s, acts).value.row == None
    ensures Path(s, acts') == Some(s') && s'.row == Some(P.Row(hash, None))
    ensures s'.requests == Path(s, acts).value.requests[p := P.Request(hash, caller, P.Running)]
  {
    acts', s' := PathSnoc(s, acts, P.Arrive(p, hash, caller));
    acts', s' := PathSnoc(s, acts', P.Find(p));
    acts', s' := PathSnoc(s, acts', P.Create(p));
  }

  class Interceptor {
    var rows: map<Key, P.Row>

    constructor ()
      ensures rows == map[]
    {
      rows := map[];
    }

    function RowOf(key: Key): Option<P.Row>
      reads this
    {
      if key in rows then Some(rows[key]) else None
    }

    ghost predicate OnlyChanged(key: Key, before: map<Key, P.Row>)
      reads this
    {
      forall k :: k != key ==> (k in rows <==> k in before) && (k in rows ==> rows[k] == before[k])
    }

    /** Every way through is a path of the protocol that ends with this row and this outcome;
        no other key is touched. The handler runs under a claim exactly if the lookup found
        no row and the insert went through. */
    method Intercept(key: Option<Key>, verb: string, hash: P.Hash, env: Env, ghost q: P.ReqId,
                     ghost caller: P.Caller, ghost rival: P.ReqId)
      returns (outcome: Outcome, ghost acts: seq<P.Action>)
      requires q != rival
      modifies this
      ensures outcome.PassedThrough? <==> key in {None, Some("")} || verb !in {"POST", "PATCH", "PUT", "DELETE"}
      ensures outcome.PassedThrough? ==> outcome.result == env.handler && rows == old(rows)
      ensures !outcome.PassedThrough? ==>
                && OnlyChanged(key.value, old(rows))
                && var end := Path(P.State(old(RowOf(key.value)), map[q := P.Request(hash, caller, P.Arrived)]), acts);
                   end.Some? && end.value.row == RowOf(key.value)
                   && q in end.value.requests && end.value.requests[q] == P.Request(hash, caller, PhaseOf(outcome))
      ensures !outcome.PassedThrough? ==>
                (outcome.Ran? <==> old(RowOf(key.value)) == None && env.rival == None && env.createError == None)
      ensures outcome.Ran? ==> outcome.result == env.handler &&
                               RowOf(key.value) == match env.handler
                                 case Answers(answer) => Some(P.Row(hash, if env.lastWriteFails then None else answer))
                                 case Throws => if env.lastWriteFails then Some(P.Row(hash, None)) else None
      ensures !outcome.PassedThrough? && old(RowOf(key.value)).Some? ==>
                && rows == old(rows)
                && var row := old(RowOf(key.value)).value;
                   outcome == if row.requestHash != hash then Unprocessable
                              else if row.response.Some? then Replayed(row.response.value) else Conflict
    {
      acts := [];
      if key == None || key.value == "" || verb !in MUTATION_METHODS {
        return PassedThrough(env.handler), acts;
      }
      var k := key.value;
      ghost var start := P.State(RowOf(k), map[q := P.Request(hash, caller, P.Arrived)]);
      ghost var s;

      var existing := RowOf(k);
      acts, s := PathSnoc(start, acts, P.Find(q));
      if existing.Some? {
        if existing.value.requestHash != hash { return Unprocessable, acts; }
        if existing.value.response.Some? { return Replayed(existing.value.response.value), acts; }
        return Conflict, acts;
      }

      if env.rival.Some? {
        rows := rows[k := P.Row(env.rival.value, None)];
        acts, s := RivalClaims(start, acts, rival, env.rival.value, caller);
      }
      if env.createError.Some? && (env.createError.value ==> k !in rows) {
        if env.createError.value { rows := rows[k := P.Row(hash, None)]; }
        acts, s := PathSnoc(start, acts, P.CreateErrs(q, env.createError.value));
        return CreateError, acts;
      }
      acts, s := PathSnoc(start, acts, P.Create(q));
      if k in rows { return Conflict, acts; }
      rows := rows[k := P.Row(hash, None)];
      outcome, acts := Handle(k, hash, env, q, caller, start, acts);
    }

    /** The handler runs, and its end is recorded in the claim row or takes the row away. */
    method Handle(k: Key, hash: P.Hash, env: Env, ghost q: P.ReqId, ghost caller: P.Caller, ghost start: P.State,
                  ghost before: seq<P.Action>)
      returns (outcome: Outcome, ghost acts: seq<P.Action>)
      requires RowOf(k) == Some(P.Row(hash, None))
      requires Path(start, before).Some? && Path(start, before).value.row == RowOf(k)
      requires q in Path(start, before).value.requests
               && Path(start, before).value.requests[q] == P.Request(hash, caller, P.Running)
      modifies this
      ensures outcome == Ran(env.handler) && OnlyChanged(k, old(rows))
      ensures var end := Path(start, acts);
              end.Some? && end.value.row == RowOf(k)
              && q in end.value.requests && end.value.requests[q] == P.Request(hash, caller, PhaseOf(outcome))
      ensures RowOf(k) == match env.handler
                case Answers(answer) => Some(P.Row(hash, if env.lastWriteFails then None else answer))
                case Throws => if env.lastWriteFails then Some(P.Row(hash, None)) else None
    {
      ghost var s;
      match env.handler
      case Answers(answer) =>
        acts, s := PathSnoc(start, before, P.HandlerSucceeds(q, answer));
        if env.lastWriteFails {
          acts, s := PathSnoc(start, acts, P.UpdateFails(q));
        } else {
          rows := rows[k := rows[k].(response := answer)];
          acts, s := PathSnoc(start, acts, P.UpdateRow(q));
        }
        outcome := Ran(env.handler);
      case Throws =>
        acts, s := PathSnoc(start, before, P.HandlerFails(q));
        if env.lastWriteFails {
          acts, s := PathSnoc(start, acts, P.DeleteFails(q));
        } else {
          rows := rows - {k};
          acts, s := PathSnoc(start, acts, P.DeleteRow(q));
        }
        outcome := Ran(env.handler);
    }

    /** Two requests one after the other under one key: if the first answered and that was
        recorded, the second runs nothing and gets that answer, whatever its own handler would
        have done; with another hash it is refused. */
    method Twice(key: Key, verb: string, hash: P.Hash, answer: P.Response, again: P.Hash, env: Env,
                 ghost caller: P.Caller)
      returns (first: Outcome, second: Outcome)
      requires key != "" && verb in {"POST", "PATCH", "PUT", "DELETE"}
      requires key !in rows
      modifies this
      ensures first == Ran(Answers(Some(answer)))
      ensures second == if again == hash then Replayed(answer) else Unprocessable
      ensures RowOf(key) == Some(P.Row(hash, Some(answer))) && OnlyChanged(key, old(rows))
    {
      ghost var acts;
      first, acts := Intercept(Some(key), verb, hash, Env(None, None, Answers(Some(answer)), false), 1, caller, 2);
      ghost var recorded := rows;
      second, acts := Intercept(Some(key), verb, again, env, 1, caller, 2);
      assert rows == recorded;
    }
  }
}
