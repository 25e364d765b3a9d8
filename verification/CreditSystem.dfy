/** Everything that touches a wallet, interleaved: AI-query saga runs, direct grants, spends
    and refunds, compensation retries out of the durable queue, sweeps, and crashes between
    any two steps. A transaction reads when it begins and writes when it finishes, and other
    transactions may commit in between.

    From the command bus, which lives in another package, only this is assumed: a dispatch
    runs one transaction, a version conflict may be retried from scratch, a dispatch that
    rejects has rolled its transaction back, and a saga that throws runs its registered
    compensation and records it if it fails. */
module CreditSystem {
  import opened Foundations
  import opened CreditLedger
  import opened CreditTables
  import Q = ClaimQueue
  import R = ReservationSweeper

  // ---------------------------------------------------------------- one saga run

  datatype RagOutcome = Answered(summary: string, sources: seq<Source>) | NoResults | AiUnavailable | RagFailed

  // Where a run is. The hold exists from Asking on, with the compensation registered.
  datatype Phase =
    | Reserving
    | Asking
    | ReleasingEmpty
    | Charging(answer: string, sources: seq<Source>)
    | Compensating
    | Recording
    | Returned(answered: bool)
    | Threw
    | Crashed

  datatype Saga = Saga(wallet: Wallet, question: string, cost: int, phase: Phase)

  predicate Dispatching(p: Phase) {
    p.Reserving? || p.ReleasingEmpty? || p.Charging? || p.Compensating?
  }

  /** The command a run dispatches in a dispatching phase. */
  function Dispatched(r: Rid, s: Saga): Command
    requires Dispatching(s.phase)
  {
    match s.phase
    case Reserving => ReserveCredits(s.wallet, r, s.cost as real, "AI query")
    case ReleasingEmpty => ReleaseCreditReservation(s.wallet, r, s.question, "NO_RESULTS")
    case Charging(answer, sources) => CommitAiQuery(s.wallet, r, s.question, answer, sources, s.cost, "AI query")
    case Compensating => ReleaseCreditReservation(s.wallet, r, s.question, "AI_UNAVAILABLE")
  }

  /** After the transaction of the dispatch in `p` answered. A conflict leaves the run where
      it is, to be retried from scratch or given up. */
  function OnReply(p: Phase, reply: Reply): Phase {
    match p
    case Reserving => if reply.Held? then Asking else if reply.ConcurrencyConflict? then Reserving else Threw
    case ReleasingEmpty =>
      if reply.ReleaseReply? then Returned(false) else if reply.ConcurrencyConflict? then p else Compensating
    case Charging(_, _) =>
      if reply.Charged? then Returned(true) else if reply.ConcurrencyConflict? then p else Compensating
    case Compensating => if reply.ReleaseReply? then Threw else if reply.ConcurrencyConflict? then p else Recording
    case _ => p
  }

  /** After a dispatch rejected: nothing is registered for compensation while reserving. */
  function OnReject(p: Phase): Phase {
    match p
    case Reserving => Threw
    case ReleasingEmpty => Compensating
    case Charging(_, _) => Compensating
    case Compensating => Recording
    case _ => p
  }

  function OnRag(outcome: RagOutcome): Phase {
    match outcome
    case Answered(summary, sources) => Charging(summary, sources)
    case NoResults => ReleasingEmpty
    case AiUnavailable => Compensating
    case RagFailed => Compensating
  }

  /** The creditCost a run that returned reports. */
  function ReportedCost(s: Saga): int
    requires s.phase.Returned?
  {
    if s.phase.answered then s.cost else 0
  }

  // ----------------------------------------------------------------- all of them

  type TxId = nat

  datatype Owner = Api | Run(rid: Rid) | Worker(job: Q.JobId) | Sweeper

  // `seen` is what the transaction's load returned.
  datatype Tx = Tx(cmd: Command, owner: Owner, seen: seq<Event>)

  datatype Logged = Logged(cmd: Command, now: int, newId: string)

  // `payload` is what a compensation row asks to be run again; rows without one belong to
  // other sagas. `log` lists the transactions that wrote, in commit order.
  datatype State = State(db: Tables, sagas: map<Rid, Saga>, txs: map<TxId, Tx>, queue: Q.State,
                         payload: map<Q.RowId, Command>, log: seq<Logged>)

  const Init := State(NoTables, map[], map[], Q.Init, map[], [])

  datatype Action =
    | Ask(rid: Rid, wallet: Wallet, question: string, cost: int)
    | Begin(tx: TxId, owner: Owner, cmd: Command)
    | Finish(tx: TxId, now: int, newId: string)
    | RollBack(tx: TxId)
    | DispatchRejects(rid: Rid)
    | RagReplies(rid: Rid, outcome: RagOutcome)
    | RecordCompensation(rid: Rid, row: Q.RowId, now: int)
    | RecordingFails(rid: Rid)
    | Crash(rid: Rid)
    | Queue(step: Q.Action)

  predicate NoTxOf(s: State, r: Rid) {
    forall t <- s.txs :: s.txs[t].owner != Run(r)
  }

  /** The sweeper dispatches releases for ids it found in Reserved rows, now or earlier. */
  predicate HasReservedRow(t: Tables, w: Wallet, r: Rid) {
    R.HasReserve(t.Stream(w), r)
  }

  predicate CanBegin(s: State, owner: Owner, cmd: Command) {
    match owner
    case Api => cmd.GrantCredits? || cmd.SpendCredits? || cmd.RefundCredits?
    case Run(r) => r in s.sagas && Dispatching(s.sagas[r].phase) && cmd == Dispatched(r, s.sagas[r]) && NoTxOf(s, r)
    case Worker(j) => WorksOn(s, j, cmd)
    case Sweeper => cmd.ReleaseCreditReservation? && HasReservedRow(s.db, cmd.wallet, cmd.rid)
                    && cmd.question == "" && cmd.reason == "EXPIRED"
  }

  predicate WorksOn(s: State, j: Q.JobId, cmd: Command) {
    && j in s.queue.jobs && s.queue.jobs[j].stage.Ready?
    && s.queue.jobs[j].row in s.payload && s.payload[s.queue.jobs[j].row] == cmd
  }

  predicate Enabled(s: State, a: Action) {
    match a
    case Ask(r, _, _, _) => r !in s.sagas
    case Begin(t, owner, cmd) => t !in s.txs && CanBegin(s, owner, cmd)
    case Finish(t, _, _) => t in s.txs
    case RollBack(t) => t in s.txs
    case DispatchRejects(r) => r in s.sagas && Dispatching(s.sagas[r].phase) && NoTxOf(s, r)
    case RagReplies(r, _) => r in s.sagas && s.sagas[r].phase.Asking?
    case RecordCompensation(r, row, now) =>
      r in s.sagas && s.sagas[r].phase.Recording? && Q.Enabled(s.queue, Q.Enqueue(row, now, None))
    case RecordingFails(r) => r in s.sagas && s.sagas[r].phase.Recording?
    case Crash(r) => r in s.sagas && !s.sagas[r].phase.Returned? && !s.sagas[r].phase.Threw?
    // The runner of a release row succeeds when its transaction does, in Finish.
    case Queue(q) => Q.Enabled(s.queue, q) && (q.RunSucceeds? ==> s.queue.jobs[q.job].row !in s.payload)
  }

  function Moved(s: State, r: Rid, p: Phase): State
    requires r in s.sagas
  {
    s.(sagas := s.sagas[r := s.sagas[r].(phase := p)])
  }

  /** What a finished transaction's reply does to the run that waits for it. */
  function DeliveredToRun(sagas: map<Rid, Saga>, owner: Owner, reply: Reply): map<Rid, Saga> {
    if owner.Run? && owner.rid in sagas && Dispatching(sagas[owner.rid].phase) then
      sagas[owner.rid := sagas[owner.rid].(phase := OnReply(sagas[owner.rid].phase, reply))]
    else sagas
  }

  /** And to the queue worker: its runner succeeds. */
  function DeliveredToWorker(s: State, tx: Tx, reply: Reply): Q.State {
    if tx.owner.Worker? && reply.ReleaseReply? && WorksOn(s, tx.owner.job, tx.cmd) then
      Q.Do(s.queue, Q.RunSucceeds(tx.owner.job), 1)
    else s.queue
  }

  ghost function Do(s: State, a: Action, maxAttempts: int): State
    requires Enabled(s, a)
  {
    match a
    case Ask(r, w, question, cost) => s.(sagas := s.sagas[r := Saga(w, question, cost, Reserving)])
    case Begin(t, owner, cmd) => s.(txs := s.txs[t := Tx(cmd, owner, s.db.Stream(cmd.wallet))])
    case Finish(t, now, newId) => Finished(s, t, now, newId)
    case RollBack(t) => s.(txs := s.txs - {t})
    case DispatchRejects(r) => Moved(s, r, OnReject(s.sagas[r].phase))
    case RagReplies(r, outcome) => Moved(s, r, OnRag(outcome))
    case RecordCompensation(r, row, now) =>
      Moved(s, r, Threw).(queue := Q.Do(s.queue, Q.Enqueue(row, now, None), maxAttempts),
      payload := s.payload[row := ReleaseCreditReservation(s.sagas[r].wallet, r, s.sagas[r].question,
                                                           "AI_UNAVAILABLE")])
    case RecordingFails(r) => Moved(s, r, Threw)
    case Crash(r) => Moved(s, r, Crashed)
    case Queue(q) => s.(queue := Q.Do(s.queue, q, maxAttempts))
  }

  ghost function Finished(s: State, t: TxId, now: int, newId: string): State
    requires t in s.txs
  {
    var tx := s.txs[t];
    var (db, reply) := Execute(s.db, tx.cmd, tx.seen, now, newId);
    var log := if db == s.db then s.log else s.log + [Logged(tx.cmd, now, newId)];
    State(db, DeliveredToRun(s.sagas, tx.owner, reply), s.txs - {t}, DeliveredToWorker(s, tx, reply), s.payload, log)
  }

  /** The state after a run, or nothing when some action was not possible. */
  ghost function Exec(acts: seq<Action>, maxAttempts: int): Option<State> {
    if acts == [] then Some(Init)
    else
      match Exec(acts[..|acts| - 1], maxAttempts)
      case None => None
      case Some(s) =>
        if Enabled(s, acts[|acts| - 1]) then Some(Do(s, acts[|acts| - 1], maxAttempts)) else None
  }

  /** The same commands one at a time, each reading the tables as the one before left them. */
  ghost function Serial(log: seq<Logged>): Tables {
    if log == [] then NoTables
    else
      var t, c := Serial(log[..|log| - 1]), log[|log| - 1];
      Execute(t, c.cmd, t.Stream(c.cmd.wallet), c.now, c.newId).0
  }
}
