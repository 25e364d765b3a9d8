/** The claim/retry row machine shared by `saga_compensations` and `outbox_events` (where
    DONE is called PROCESSED): what each statement does to one row, every interleaving of
    workers, reaper, purge and crashes, and what survives which interleavings. */
module ClaimQueue {
  import opened Foundations

  type RowId = string
  type JobId = nat

  datatype RowStatus = PENDING | INFLIGHT | DONE | FAILED_DLQ

  datatype QueueRow = QueueRow(status: RowStatus, attempts: int, claimedAt: Option<int>, createdAt: int,
                               processedAt: Option<int>, lastError: Option<string>)

  // ------------------------------------------------------------ one statement, one row

  function NewRow(now: int, error: Option<string>): QueueRow {
    QueueRow(PENDING, 0, None, now, None, error)
  }

  function ClaimRow(r: QueueRow, now: int): QueueRow {
    r.(status := INFLIGHT, claimedAt := Some(now))
  }

  function ProcessRow(r: QueueRow, now: int): QueueRow {
    r.(status := DONE, processedAt := Some(now), claimedAt := None)
  }

  /** `seen` is the attempts value the worker read when it claimed, not the row's own. */
  function FailRow(r: QueueRow, seen: int, error: string, maxAttempts: int): QueueRow {
    r.(attempts := seen + 1, lastError := Some(error), claimedAt := None,
    status := if seen + 1 >= maxAttempts then FAILED_DLQ else PENDING)
  }

  predicate Stale(r: QueueRow, cutoff: int) {
    r.status == INFLIGHT && r.claimedAt.Some? && r.claimedAt.value < cutoff
  }

  function ReapRow(r: QueueRow, cutoff: int): QueueRow {
    if Stale(r, cutoff) then r.(status := PENDING, claimedAt := None) else r
  }

  predicate Purgeable(r: QueueRow, cutoff: int) {
    r.status == DONE && r.processedAt.Some? && r.processedAt.value < cutoff
  }

  /** What the statements mean to each other. A claim stands until the cutoff passes the
      instant it was made, and is then undone with the attempts as they were. */
  lemma ClaimStandsUntil(r: QueueRow, now: int, cutoff: int)
    ensures ClaimRow(r, now).status == INFLIGHT && ClaimRow(r, now).attempts == r.attempts
    ensures cutoff <= now ==> ReapRow(ClaimRow(r, now), cutoff) == ClaimRow(r, now)
    ensures cutoff > now ==> ReapRow(ClaimRow(r, now), cutoff) == r.(status := PENDING, claimedAt := None)
  {
  }

  /** A finished row is kept until the cutoff passes the instant it was finished; nothing else
      is ever purged, and no row is reaped but a claimed one. */
  lemma DoneIsKeptUntil(r: QueueRow, now: int, cutoff: int)
    ensures ProcessRow(r, now).status == DONE && ProcessRow(r, now).attempts == r.attempts
    ensures Purgeable(ProcessRow(r, now), cutoff) <==> cutoff > now
    ensures r.status != DONE ==> !Purgeable(r, cutoff)
    ensures r.status != INFLIGHT ==> ReapRow(r, cutoff) == r
  {
  }

  /** A failure costs one attempt of those read, keeps the row for another try exactly while
      there are attempts left, and says what was thrown. */
  lemma FailureCostsOne(r: QueueRow, seen: int, error: string, maxAttempts: int)
    ensures var r' := FailRow(r, seen, error, maxAttempts);
            && r'.attempts == seen + 1 && r'.lastError == Some(error) && r'.claimedAt == None
            && r'.createdAt == r.createdAt
            && (r'.status == PENDING <==> seen + 1 < maxAttempts)
            && (r'.status == FAILED_DLQ <==> seen + 1 >= maxAttempts)
  {
  }

  // ------------------------------------------------------------------ every interleaving

  // A claimed row in the hands of a worker. Claiming and reading the rows back are two
  // statements, so `seen` is only known after the second.
  datatype Stage = Claiming | Ready(seen: int) | Succeeded(seen: int)

  datatype Job = Job(row: RowId, stage: Stage)

  // `failedMarks` counts, for the statements below, how often each row was marked failed.
  datatype State = State(rows: map<RowId, QueueRow>, jobs: map<JobId, Job>, failedMarks: map<RowId, nat>)

  const Init := State(map[], map[], map[])

  datatype Action =
    | Enqueue(id: RowId, now: int, error: Option<string>)
    | Claim(batch: map<JobId, RowId>, now: int)
    | ReadBack(job: JobId)
    | RunSucceeds(job: JobId)
    | MarkProcessed(job: JobId, now: int)
    | MarkFailed(job: JobId, thrown: string)
    | Die(job: JobId)
    | Reap(cutoff: int)
    | Purge(cutoff: int)

  function ClaimAll(rows: map<RowId, QueueRow>, ids: set<RowId>, now: int): map<RowId, QueueRow> {
    map id | id in rows :: if id in ids then ClaimRow(rows[id], now) else rows[id]
  }

  function Taken(jobs: map<JobId, Job>, batch: map<JobId, RowId>): map<JobId, Job> {
    jobs + map j | j in batch :: Job(batch[j], Claiming)
  }

  predicate Enabled(s: State, a: Action) {
    match a
    case Enqueue(id, _, _) => id !in s.rows && id !in s.failedMarks
    case Claim(batch, _) =>
      && batch.Keys !! s.jobs.Keys
      && (forall j <- batch :: batch[j] in s.rows && s.rows[batch[j]].status == PENDING)
      && (forall j, k :: j in batch && k in batch && j != k ==> batch[j] != batch[k])
    case ReadBack(j) => j in s.jobs && s.jobs[j].stage.Claiming? && s.jobs[j].row in s.rows
    case RunSucceeds(j) => j in s.jobs && s.jobs[j].stage.Ready?
    case MarkProcessed(j, _) => j in s.jobs && s.jobs[j].stage.Succeeded? && s.jobs[j].row in s.rows
    // After the runner threw, or after it succeeded and marking the row processed threw.
    case MarkFailed(j, _) => j in s.jobs && !s.jobs[j].stage.Claiming? && s.jobs[j].row in s.rows
    case Die(j) => j in s.jobs
    case Reap(_) => true
    case Purge(_) => true
  }

  function Do(s: State, a: Action, maxAttempts: int): State
    requires Enabled(s, a)
  {
    match a
    case Enqueue(id, now, error) =>
      s.(rows := s.rows[id := NewRow(now, error)], failedMarks := s.failedMarks[id := 0])
    case Claim(batch, now) =>
      s.(rows := ClaimAll(s.rows, batch.Values, now), jobs := Taken(s.jobs, batch))
    case ReadBack(j) =>
      s.(jobs := s.jobs[j := s.jobs[j].(stage := Ready(s.rows[s.jobs[j].row].attempts))])
    case RunSucceeds(j) =>
      s.(jobs := s.jobs[j := s.jobs[j].(stage := Succeeded(s.jobs[j].stage.seen))])
    case MarkProcessed(j, now) =>
      var id := s.jobs[j].row;
      s.(rows := s.rows[id := ProcessRow(s.rows[id], now)], jobs := s.jobs - {j})
    case MarkFailed(j, error) =>
      var id := s.jobs[j].row;
      State(s.rows[id := FailRow(s.rows[id], s.jobs[j].stage.seen, error, maxAttempts)], s.jobs - {j},
            s.failedMarks[id := 1 + if id in s.failedMarks then s.failedMarks[id] else 0])
    case Die(j) => s.(jobs := s.jobs - {j})
    case Reap(cutoff) => s.(rows := map id | id in s.rows :: ReapRow(s.rows[id], cutoff))
    case Purge(cutoff) => s.(rows := map id | id in s.rows && !Purgeable(s.rows[id], cutoff) :: s.rows[id])
  }

  /** The no-overrun hypothesis: the claim timeout is long enough that a reaped row has no
      worker left that still believes it owns it. */
  predicate NoOverrun(s: State, a: Action) {
    a.Reap? ==> forall j <- s.jobs :: s.jobs[j].row in s.rows ==> !Stale(s.rows[s.jobs[j].row], a.cutoff)
  }

  /** The state after a run, or nothing when some action was not possible. With `timely`,
      runs in which a worker overruns the claim timeout are not considered. */
  function Run(acts: seq<Action>, maxAttempts: int, timely: bool): Option<State> {
    if acts == [] then Some(Init)
    else
      var last := acts[|acts| - 1];
      match Run(acts[..|acts| - 1], maxAttempts, timely)
      case None => None
      case Some(s) =>
        if Enabled(s, last) && (timely ==> NoOverrun(s, last)) then Some(Do(s, last, maxAttempts)) else None
  }

  /** On whole tables: a claimed row is safe from every reap up to its own instant, and PENDING
      again with its attempts after any later one. */
  lemma ClaimThenReap(s: State, batch: map<JobId, RowId>, now: int, cutoff: int, maxAttempts: int, j: JobId)
    requires Enabled(s, Claim(batch, now)) && j in batch
    ensures var s1 := Do(s, Claim(batch, now), maxAttempts);
            var (s2, id) := (Do(s1, Reap(cutoff), maxAttempts), batch[j]);
            && id in s1.rows && s1.rows[id].status == INFLIGHT && s1.rows[id].claimedAt == Some(now)
            && id in s2.rows && s2.rows[id].attempts == s.rows[id].attempts
            && (cutoff <= now ==> s2.rows[id] == s1.rows[id])
            && (cutoff > now ==> s2.rows[id].status == PENDING && s2.rows[id].claimedAt == None)
  {
    assert batch[j] in batch.Values;
  }

  /** What some actions lead to from any state, or nothing if one was not possible. */
  function Steps(s: State, acts: seq<Action>, maxAttempts: int): Option<State> {
    if acts == [] then Some(s)
    else
      match Steps(s, acts[..|acts| - 1], maxAttempts)
      case None => None
      case Some(s') => if Enabled(s', acts[|acts| - 1]) then Some(Do(s', acts[|acts| - 1], maxAttempts)) else None
  }

  lemma StepsSnoc(s: State, acts: seq<Action>, s1: State, a: Action, maxAttempts: int)
    returns (acts': seq<Action>, s': State)
    requires Steps(s, acts, maxAttempts) == Some(s1) && Enabled(s1, a)
    ensures acts' == acts + [a] && s' == Do(s1, a, maxAttempts) && Steps(s, acts', maxAttempts) == Some(s')
  {
    acts', s' := acts + [a], Do(s1, a, maxAttempts);
    assert acts'[..|acts|] == acts;
  }

  lemma {:induction false} StepsConcat(s: State, acts: seq<Action>, more: seq<Action>, maxAttempts: int)
    requires Steps(s, acts, maxAttempts).Some?
    ensures Steps(s, acts + more, maxAttempts) == Steps(Steps(s, acts, maxAttempts).value, more, maxAttempts)
  {
    if more == [] {
      assert acts + more == acts;
    } else {
      assert (acts + more)[..|acts + more| - 1] == acts + more[..|more| - 1];
      StepsConcat(s, acts, more[..|more| - 1], maxAttempts);
    }
  }

  // ------------------------------------------------------------- one worker and the others

  /** Whether an action is one of the jobs numbered from `lo` up to `hi`. */
  predicate By(a: Action, lo: JobId, hi: JobId) {
    match a
    case Claim(batch, _) => exists j <- batch :: lo <= j < hi
    case Enqueue(_, _, _) => false
    case Reap(_) => false
    case Purge(_) => false
    case _ => lo <= a.job < hi
  }

  /** What those jobs did in a run. */
  function Own(acts: seq<Action>, lo: JobId, hi: JobId): seq<Action> {
    if acts == [] then []
    else Own(acts[..|acts| - 1], lo, hi) + if By(acts[|acts| - 1], lo, hi) then [acts[|acts| - 1]] else []
  }

  lemma {:induction false} OwnConcat(acts: seq<Action>, more: seq<Action>, lo: JobId, hi: JobId)
    ensures Own(acts + more, lo, hi) == Own(acts, lo, hi) + Own(more, lo, hi)
  {
    if more == [] {
      assert acts + more == acts;
    } else {
      assert (acts + more)[..|acts + more| - 1] == acts + more[..|more| - 1];
      OwnConcat(acts, more[..|more| - 1], lo, hi);
    }
  }

  /** Everybody else does what of `acts` is possible, one action after the other. */
  function Others(s: State, acts: seq<Action>, lo: JobId, hi: JobId, maxAttempts: int): State {
    if acts == [] then s
    else
      var s', a := Others(s, acts[..|acts| - 1], lo, hi, maxAttempts), acts[|acts| - 1];
      if Enabled(s', a) && !By(a, lo, hi) then Do(s', a, maxAttempts) else s'
  }

  predicate SameJobs(s: State, s': State, lo: JobId, hi: JobId) {
    forall j :: lo <= j < hi ==> (j in s'.jobs <==> j in s.jobs) && (j in s.jobs ==> s'.jobs[j] == s.jobs[j])
  }

  lemma OtherKeepsJobs(s: State, a: Action, lo: JobId, hi: JobId, maxAttempts: int)
    requires Enabled(s, a) && !By(a, lo, hi)
    ensures SameJobs(s, Do(s, a, maxAttempts), lo, hi)
  {
  }

  lemma {:induction false} OthersAreSteps(s: State, acts: seq<Action>, lo: JobId, hi: JobId, maxAttempts: int)
    returns (done: seq<Action>)
    ensures Steps(s, done, maxAttempts) == Some(Others(s, acts, lo, hi, maxAttempts))
    ensures Own(done, lo, hi) == [] && SameJobs(s, Others(s, acts, lo, hi, maxAttempts), lo, hi)
  {
    if acts == [] {
      done := [];
    } else {
      var before, a := acts[..|acts| - 1], acts[|acts| - 1];
      done := OthersAreSteps(s, before, lo, hi, maxAttempts);
      var s' := Others(s, before, lo, hi, maxAttempts);
      if Enabled(s', a) && !By(a, lo, hi) {
        OtherKeepsJobs(s', a, lo, hi, maxAttempts);
        OwnConcat(done, [a], lo, hi);
        var more, s'' := StepsSnoc(s, done, s', a, maxAttempts);
        done := more;
      }
    }
  }

  // ----------------------------------------------- what no interleaving can break

  predicate RowOk(r: QueueRow, maxAttempts: int) {
    && (r.claimedAt.Some? <==> r.status == INFLIGHT)
    && (r.status == PENDING || r.status == INFLIGHT ==> r.attempts < maxAttempts)
    && (r.status == FAILED_DLQ ==> r.attempts >= maxAttempts)
    && r.attempts >= 0
    && (r.status == DONE ==> r.processedAt.Some?)
  }

  predicate SeenOk(j: Job) {
    j.stage.Claiming? || j.stage.seen >= 0
  }

  ghost predicate Inv(s: State, maxAttempts: int) {
    && (forall id <- s.rows :: RowOk(s.rows[id], maxAttempts))
    && (forall j <- s.jobs :: SeenOk(s.jobs[j]))
    && s.rows.Keys <= s.failedMarks.Keys
  }

  lemma StepKeepsInv(s: State, a: Action, maxAttempts: int)
    requires maxAttempts >= 1 && Inv(s, maxAttempts) && Enabled(s, a)
    ensures Inv(Do(s, a, maxAttempts), maxAttempts)
  {
  }

  /** In every interleaving, stale workers included: `claimedAt` is set exactly while the row
      is INFLIGHT, a row that can still be claimed or run has attempts left, and a dead
      letter has none. */
  lemma {:induction false} RowsAlwaysOk(acts: seq<Action>, maxAttempts: int, timely: bool)
    requires maxAttempts >= 1 && Run(acts, maxAttempts, timely).Some?
    ensures Inv(Run(acts, maxAttempts, timely).value, maxAttempts)
  {
    if acts != [] {
      var before := acts[..|acts| - 1];
      RowsAlwaysOk(before, maxAttempts, timely);
      StepKeepsInv(Run(before, maxAttempts, timely).value, acts[|acts| - 1], maxAttempts);
    }
  }

  /** Steps from a reachable state lead to a reachable one, so all that holds of runs holds of
      whatever a caller does by such steps. */
  lemma {:induction false} StepsAreRuns(acts: seq<Action>, more: seq<Action>, maxAttempts: int)
    requires maxAttempts >= 1 && Run(acts, maxAttempts, false).Some?
    requires Steps(Run(acts, maxAttempts, false).value, more, maxAttempts).Some?
    ensures Run(acts + more, maxAttempts, false) == Steps(Run(acts, maxAttempts, false).value, more, maxAttempts)
    ensures Inv(Run(acts + more, maxAttempts, false).value, maxAttempts)
    decreases |more|
  {
    if more == [] {
      assert acts + more == acts;
    } else {
      assert (acts + more)[..|acts + more| - 1] == acts + more[..|more| - 1];
      StepsAreRuns(acts, more[..|more| - 1], maxAttempts);
    }
    RowsAlwaysOk(acts + more, maxAttempts, false);
  }

  // -------------------------------------------------- what holds when nobody overruns

  predicate Owns(s: State, j: JobId, id: RowId) {
    j in s.jobs && s.jobs[j].row == id
  }

  ghost predicate TimelyInv(s: State, maxAttempts: int) {
    Inv(s, maxAttempts) && Ownership(s) && Tallied(s, maxAttempts)
  }

  /** Jobs stand one to one on INFLIGHT rows and know the rows' attempts. */
  ghost predicate Ownership(s: State) {
    && (forall j <- s.jobs :: s.jobs[j].row in s.rows && s.rows[s.jobs[j].row].status == INFLIGHT)
    && (forall j, k :: j in s.jobs && k in s.jobs && s.jobs[j].row == s.jobs[k].row ==> j == k)
    && (forall j <- s.jobs :: !s.jobs[j].stage.Claiming? ==> s.jobs[j].stage.seen == s.rows[s.jobs[j].row].attempts)
  }

  ghost predicate Tallied(s: State, maxAttempts: int) {
    forall id <- s.rows :: id in s.failedMarks && s.rows[id].attempts == s.failedMarks[id] <= maxAttempts
  }

  lemma TimelyStepKeepsInv(s: State, a: Action, maxAttempts: int)
    requires maxAttempts >= 1 && TimelyInv(s, maxAttempts) && Enabled(s, a) && NoOverrun(s, a)
    ensures TimelyInv(Do(s, a, maxAttempts), maxAttempts)
  {
    StepKeepsInv(s, a, maxAttempts);
    StepKeepsTally(s, a, maxAttempts);
    if a.Claim? {
      ClaimKeepsOwnership(s, a.batch, a.now, maxAttempts);
    } else {
      StepKeepsOwnership(s, a, maxAttempts);
    }
  }

  lemma StepKeepsTally(s: State, a: Action, maxAttempts: int)
    requires maxAttempts >= 1 && TimelyInv(s, maxAttempts) && Enabled(s, a)
    ensures Tallied(Do(s, a, maxAttempts), maxAttempts)
  {
  }

  lemma StepKeepsOwnership(s: State, a: Action, maxAttempts: int)
    requires TimelyInv(s, maxAttempts) && Enabled(s, a) && NoOverrun(s, a) && !a.Claim?
    ensures Ownership(Do(s, a, maxAttempts))
  {
  }

  lemma ClaimKeepsOwnership(s: State, batch: map<JobId, RowId>, now: int, maxAttempts: int)
    requires TimelyInv(s, maxAttempts) && Enabled(s, Claim(batch, now))
    ensures Ownership(Do(s, Claim(batch, now), maxAttempts))
  {
    var s' := Do(s, Claim(batch, now), maxAttempts);
    forall j | j in s'.jobs
      ensures s'.jobs[j] == if j in batch then Job(batch[j], Claiming) else s.jobs[j]
      ensures s'.jobs[j].row in s'.rows && s'.rows[s'.jobs[j].row].status == INFLIGHT
      ensures j in batch <==> s'.jobs[j].row in batch.Values
    {
      if j in batch {
        assert batch[j] in batch.Values;
      }
    }
    forall j, k | j in s'.jobs && k in s'.jobs && s'.jobs[j].row == s'.jobs[k].row
      ensures j == k
    {
      assert j in batch <==> k in batch;
    }
  }

  /** One timely step: finished rows and dead letters keep their status (a purge may delete
      a finished one), and the attempts a row has left fall by exactly one when it is marked
      failed and are unchanged by everything else, claiming and reaping included. */
  lemma TimelyStep(s: State, a: Action, maxAttempts: int, id: RowId)
    requires maxAttempts >= 1 && TimelyInv(s, maxAttempts) && Enabled(s, a) && NoOverrun(s, a)
    requires id in s.rows
    ensures var s' := Do(s, a, maxAttempts);
            && (id !in s'.rows ==> a.Purge? && s.rows[id].status == DONE)
            && (id in s'.rows && s.rows[id].status in {DONE, FAILED_DLQ} ==> s'.rows[id] == s.rows[id])
            && (id in s'.rows ==> maxAttempts - s'.rows[id].attempts ==
                                  maxAttempts - s.rows[id].attempts -
                                  (if a.MarkFailed? && Owns(s, a.job, id) then 1 else 0))
  {
    match a
    case Claim(batch, now) =>
      if id in batch.Values {
        var j :| j in batch && batch[j] == id;
      }
    case _ =>
  }

  lemma {:induction false} TimelyRun(acts: seq<Action>, maxAttempts: int)
    requires maxAttempts >= 1 && Run(acts, maxAttempts, true).Some?
    ensures TimelyInv(Run(acts, maxAttempts, true).value, maxAttempts)
  {
    if acts != [] {
      TimelyRun(acts[..|acts| - 1], maxAttempts);
      TimelyStepKeepsInv(Run(acts[..|acts| - 1], maxAttempts, true).value, acts[|acts| - 1], maxAttempts);
    }
  }

  /** Over whole runs without overruns: one live owner at most, at most `maxAttempts` failed
      marks per row, and once finished or dead-lettered a row is never anything else. */
  lemma {:induction false} FinishedRowsStayFinished(acts: seq<Action>, more: seq<Action>, maxAttempts: int, id: RowId)
    requires maxAttempts >= 1 && Run(acts, maxAttempts, true).Some? && Run(acts + more, maxAttempts, true).Some?
    requires id in Run(acts, maxAttempts, true).value.rows
    requires Run(acts, maxAttempts, true).value.rows[id].status in {DONE, FAILED_DLQ}
    ensures var (s, s') := (Run(acts, maxAttempts, true).value, Run(acts + more, maxAttempts, true).value);
            && (id in s'.rows ==> s'.rows[id] == s.rows[id])
            && (id !in s'.rows ==> s.rows[id].status == DONE)
            && id in s.failedMarks && id in s'.failedMarks
            && s'.failedMarks[id] == s.failedMarks[id] <= maxAttempts
            && forall j, k :: Owns(s', j, id) && Owns(s', k, id) ==> j == k
    decreases |more|
  {
    TimelyRun(acts, maxAttempts);
    TimelyRun(acts + more, maxAttempts);
    if more == [] {
      assert acts + more == acts;
    } else {
      var before := more[..|more| - 1];
      assert (acts + more)[..|acts + more| - 1] == acts + before;
      FinishedRowsStayFinished(acts, before, maxAttempts, id);
      var s, a := Run(acts + before, maxAttempts, true).value, (acts + more)[|acts + more| - 1];
      TimelyRun(acts + before, maxAttempts);
      if id in s.rows {
        TimelyStep(s, a, maxAttempts, id);
      }
      GoneStaysGone(s, a, maxAttempts, id);
    }
  }

  lemma GoneStaysGone(s: State, a: Action, maxAttempts: int, id: RowId)
    requires TimelyInv(s, maxAttempts) && Enabled(s, a) && id in s.failedMarks
    ensures id !in s.rows ==> id !in Do(s, a, maxAttempts).rows
    ensures id in Do(s, a, maxAttempts).failedMarks
    ensures !(a.MarkFailed? && Owns(s, a.job, id)) ==> Do(s, a, maxAttempts).failedMarks[id] == s.failedMarks[id]
    ensures id !in s.rows ==> !(a.MarkFailed? && Owns(s, a.job, id))
  {
  }

  // -------------------------------------------------- and what an overrun can break

  /** Nobody is left who could touch the row again. */
  predicate Final(s: State, id: RowId) {
    && id in s.failedMarks
    && (id in s.rows ==> s.rows[id].status == DONE)
    && forall j <- s.jobs :: s.jobs[j].row != id
  }

  lemma FinalStep(s: State, a: Action, maxAttempts: int, id: RowId)
    requires Final(s, id) && Enabled(s, a)
    ensures Final(Do(s, a, maxAttempts), id)
  {
  }

  lemma {:induction false} FinalForGood(s: State, more: seq<Action>, maxAttempts: int, id: RowId)
    requires Final(s, id) && Steps(s, more, maxAttempts).Some?
    ensures Final(Steps(s, more, maxAttempts).value, id)
  {
    if more != [] {
      var before := more[..|more| - 1];
      FinalForGood(s, before, maxAttempts, id);
      FinalStep(Steps(s, before, maxAttempts).value, more[|more| - 1], maxAttempts, id);
    }
  }

  predicate Reopened(s: State, more: seq<Action>, maxAttempts: int, id: RowId) {
    && Steps(s, more, maxAttempts).Some?
    && id in Steps(s, more, maxAttempts).value.rows
    && Steps(s, more, maxAttempts).value.rows[id].status != DONE
  }

  /** A worker that claimed the row before it was finished, read back or not, can reopen it. */
  lemma HolderReopens(s: State, j: JobId, maxAttempts: int) returns (more: seq<Action>)
    requires j in s.jobs && s.jobs[j].row in s.rows
    ensures Reopened(s, more, maxAttempts, s.jobs[j].row)
  {
    var s' := s;
    more := [];
    if s.jobs[j].stage.Claiming? {
      more, s' := StepsSnoc(s, more, s', ReadBack(j), maxAttempts);
    }
    more, s' := StepsSnoc(s, more, s', MarkFailed(j, ""), maxAttempts);
  }

  /** When DONE is final: some continuation makes the row anything else if and only if a worker
      still holds a claim on it, be it one that has not even read the row back. */
  lemma DoneReopenedIff(s: State, id: RowId, maxAttempts: int)
    requires maxAttempts >= 1 && Inv(s, maxAttempts) && id in s.rows && s.rows[id].status == DONE
    ensures (exists more :: Reopened(s, more, maxAttempts, id)) <==> (exists j <- s.jobs :: s.jobs[j].row == id)
  {
    if j :| j in s.jobs && s.jobs[j].row == id {
      var more := HolderReopens(s, j, maxAttempts);
    } else {
      forall more | Steps(s, more, maxAttempts).Some?
        ensures !Reopened(s, more, maxAttempts, id)
      {
        FinalForGood(s, more, maxAttempts, id);
      }
    }
  }

  /** Without overruns that is never so: no claim on a finished row is held in any timely run. */
  lemma TimelyDoneIsFinal(acts: seq<Action>, maxAttempts: int, s: State, id: RowId)
    requires maxAttempts >= 1 && Run(acts, maxAttempts, true) == Some(s)
    requires id in s.rows && s.rows[id].status == DONE
    ensures forall more :: !Reopened(s, more, maxAttempts, id)
  {
    TimelyRun(acts, maxAttempts);
    DoneReopenedIff(s, id, maxAttempts);
  }

  lemma RunSnoc(acts: seq<Action>, a: Action, maxAttempts: int, timely: bool)
    requires Run(acts, maxAttempts, timely).Some? && Enabled(Run(acts, maxAttempts, timely).value, a)
    requires timely ==> NoOverrun(Run(acts, maxAttempts, timely).value, a)
    ensures Run(acts + [a], maxAttempts, timely) == Some(Do(Run(acts, maxAttempts, timely).value, a, maxAttempts))
  {
    assert (acts + [a])[..|acts|] == acts;
  }

  lemma ClaimOne(s: State, j: JobId, id: RowId, now: int, maxAttempts: int)
    requires id in s.rows && s.rows[id].status == PENDING && j !in s.jobs
    ensures Enabled(s, Claim(map[j := id], now))
    ensures Do(s, Claim(map[j := id], now), maxAttempts)
         == State(s.rows[id := ClaimRow(s.rows[id], now)], s.jobs[j := Job(id, Claiming)], s.failedMarks)
  {
    assert map[j := id][j] in map[j := id].Values;
  }

  /** A worker claims a new row, may read it back, and the claim is reaped under it. */
  lemma ClaimedThenReaped(maxAttempts: int, hasRead: bool) returns (acts: seq<Action>, s: State)
    ensures Run(acts, maxAttempts, false) == Some(s)
    ensures s.rows.Keys == {"row"} && s.rows["row"] == NewRow(0, None)
    ensures s.jobs.Keys == {1} && s.jobs[1] == Job("row", if hasRead then Ready(0) else Claiming)
  {
    acts, s := Extend([], Init, Enqueue("row", 0, None), maxAttempts);
    ClaimOne(s, 1, "row", 1, maxAttempts);
    acts, s := Extend(acts, s, Claim(map[1 := "row"], 1), maxAttempts);
    if hasRead {
      acts, s := Extend(acts, s, ReadBack(1), maxAttempts);
    }
    acts, s := ReapTheClaim(acts, s, maxAttempts);
  }

  lemma ReapTheClaim(acts: seq<Action>, s: State, maxAttempts: int) returns (acts': seq<Action>, s': State)
    requires Run(acts, maxAttempts, false) == Some(s)
    requires s.rows.Keys == {"row"} && s.rows["row"] == ClaimRow(NewRow(0, None), 1)
    ensures Run(acts', maxAttempts, false) == Some(s')
    ensures s'.rows.Keys == {"row"} && s'.rows["row"] == NewRow(0, None) && s'.jobs == s.jobs
  {
    acts', s' := Extend(acts, s, Reap(100), maxAttempts);
  }

  /** After that, worker 2 claims and finishes the row. */
  lemma FinishedByAnother(maxAttempts: int, hasRead: bool) returns (acts: seq<Action>, s: State)
    ensures Run(acts, maxAttempts, false) == Some(s)
    ensures s.rows.Keys == {"row"} && s.rows["row"] == ProcessRow(ClaimRow(NewRow(0, None), 101), 102)
    ensures s.jobs.Keys == {1} && s.jobs[1] == Job("row", if hasRead then Ready(0) else Claiming)
  {
    acts, s := ClaimedThenReaped(maxAttempts, hasRead);
    ClaimOne(s, 2, "row", 101, maxAttempts);
    acts, s := Extend(acts, s, Claim(map[2 := "row"], 101), maxAttempts);
    acts, s := Finishes(acts, s, 2, 102, maxAttempts);
  }

  lemma Finishes(acts: seq<Action>, s: State, j: JobId, now: int, maxAttempts: int)
    returns (acts': seq<Action>, s': State)
    requires Run(acts, maxAttempts, false) == Some(s)
    requires j in s.jobs && s.jobs[j].stage.Claiming? && s.jobs[j].row in s.rows
    ensures Run(acts', maxAttempts, false) == Some(s')
    ensures s'.rows == s.rows[s.jobs[j].row := ProcessRow(s.rows[s.jobs[j].row], now)] && s'.jobs == s.jobs - {j}
  {
    acts', s' := Extend(acts, s, ReadBack(j), maxAttempts);
    acts', s' := Extend(acts', s', RunSucceeds(j), maxAttempts);
    acts', s' := Extend(acts', s', MarkProcessed(j, now), maxAttempts);
  }

  /** Then worker 1 reports its failure: the finished row is PENDING again. */
  lemma OverrunReopensDone(maxAttempts: int) returns (acts: seq<Action>, s: State)
    requires maxAttempts >= 2
    ensures Run(acts, maxAttempts, false) == Some(s)
    ensures "row" in s.rows && s.rows["row"].status == DONE
    ensures Enabled(s, MarkFailed(1, "timeout"))
    ensures Do(s, MarkFailed(1, "timeout"), maxAttempts).rows["row"].status == PENDING
  {
    acts, s := FinishedByAnother(maxAttempts, true);
  }

  /** The same if worker 1 reads the row back only now. */
  lemma UnreadClaimReopensDone(maxAttempts: int) returns (acts: seq<Action>, s: State)
    requires maxAttempts >= 2
    ensures Run(acts, maxAttempts, false) == Some(s)
    ensures "row" in s.rows && s.rows["row"].status == DONE && s.jobs == map[1 := Job("row", Claiming)]
    ensures var more := [ReadBack(1)] + [MarkFailed(1, "timeout")];
            Reopened(s, more, maxAttempts, "row") && Steps(s, more, maxAttempts).value.rows["row"].status == PENDING
  {
    acts, s := FinishedByAnother(maxAttempts, false);
    var more, s' := StepsSnoc(s, [], s, ReadBack(1), maxAttempts);
    more, s' := StepsSnoc(s, more, s', MarkFailed(1, "timeout"), maxAttempts);
    assert more == [ReadBack(1)] + [MarkFailed(1, "timeout")];
  }

  lemma Extend(acts: seq<Action>, s: State, a: Action, maxAttempts: int) returns (acts': seq<Action>, s': State)
    requires Run(acts, maxAttempts, false) == Some(s) && Enabled(s, a)
    ensures acts' == acts + [a] && s' == Do(s, a, maxAttempts) && Run(acts', maxAttempts, false) == Some(s')
  {
    RunSnoc(acts, a, maxAttempts, false);
    acts', s' := acts + [a], Do(s, a, maxAttempts);
  }
}
