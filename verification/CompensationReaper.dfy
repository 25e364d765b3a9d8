/** The statements of the claim/retry table and the loop that works through a claimed batch.
    Each statement does to a row what ClaimQueue says; the loop's own branches, thrown errors
    included, decide which statement a row gets. */
module CompensationReaper {
  import opened Foundations
  import opened ClaimQueue

  datatype Claimed = Claimed(id: RowId, attempts: int)

  /** Rows a claim may take: PENDING, and not locked by another claimer at that moment. */
  function Eligible(rows: map<RowId, QueueRow>, locked: set<RowId>): set<RowId> {
    set id | id in rows && rows[id].status == PENDING && id !in locked
  }

  function Ids(batch: seq<RowId>): set<RowId> {
    set id | id in batch
  }

  predicate Distinct(batch: seq<RowId>) {
    forall i, j :: 0 <= i < j < |batch| ==> batch[i] != batch[j]
  }

  ghost predicate OldestFirst(rows: map<RowId, QueueRow>, batch: seq<RowId>, rest: set<RowId>)
    requires Ids(batch) <= rows.Keys && rest <= rows.Keys
  {
    && (forall i, j :: 0 <= i < j < |batch| ==> rows[batch[i]].createdAt <= rows[batch[j]].createdAt)
    && (forall i, id :: 0 <= i < |batch| && id in rest ==> rows[batch[i]].createdAt <= rows[id].createdAt)
  }

  /** Some of the eligible rows have been taken, oldest first, and the others are left. */
  ghost predicate Taking(rows: map<RowId, QueueRow>, eligible: set<RowId>, batch: seq<RowId>, left: set<RowId>) {
    && eligible <= rows.Keys && Distinct(batch) && Ids(batch) <= eligible
    && left == eligible - Ids(batch) && |left| + |batch| == |eligible|
    && OldestFirst(rows, batch, left)
  }

  lemma TakeOldest(rows: map<RowId, QueueRow>, eligible: set<RowId>, batch: seq<RowId>, left: set<RowId>, id: RowId)
    requires Taking(rows, eligible, batch, left) && id in left
    requires forall other <- left :: rows[id].createdAt <= rows[other].createdAt
    ensures Taking(rows, eligible, batch + [id], left - {id})
  {
    OneMore(batch, id);
    KeepsOrder(rows, batch, left, id);
  }

  lemma OneMore(batch: seq<RowId>, id: RowId)
    requires Distinct(batch) && id !in Ids(batch)
    ensures Ids(batch + [id]) == Ids(batch) + {id} && Distinct(batch + [id])
  {
    assert forall i :: 0 <= i < |batch| ==> batch[i] in Ids(batch);
  }

  lemma KeepsOrder(rows: map<RowId, QueueRow>, batch: seq<RowId>, left: set<RowId>, id: RowId)
    requires Ids(batch) <= rows.Keys && left <= rows.Keys && id in left && OldestFirst(rows, batch, left)
    requires forall other <- left :: rows[id].createdAt <= rows[other].createdAt
    requires Ids(batch + [id]) <= rows.Keys
    ensures OldestFirst(rows, batch + [id], left - {id})
  {
    assert forall i :: 0 <= i < |batch| ==> batch[i] in Ids(batch);
    assert forall i :: 0 <= i < |batch + [id]| ==> (batch + [id])[i] in Ids(batch + [id]);
  }

  function Least(x: nat, y: nat): nat {
    if x <= y then x else y
  }

  /** What reading a batch back from `rows` gives. */
  function AsRead(rows: map<RowId, QueueRow>, batch: seq<RowId>): seq<Claimed>
    requires forall i :: 0 <= i < |batch| ==> batch[i] in rows
  {
    seq(|batch|, i requires 0 <= i < |batch| => Claimed(batch[i], rows[batch[i]].attempts))
  }

  /** What ORDER BY created_at LIMIT may take: the oldest eligible rows, oldest first, as many
      as there are up to the limit. */
  ghost predicate Selected(rows: map<RowId, QueueRow>, locked: set<RowId>, limit: nat, batch: seq<RowId>) {
    && Distinct(batch) && Ids(batch) <= Eligible(rows, locked)
    && |batch| == Least(|Eligible(rows, locked)|, limit)
    && OldestFirst(rows, batch, Eligible(rows, locked) - Ids(batch))
  }

  lemma SelectedArePending(rows: map<RowId, QueueRow>, locked: set<RowId>, limit: nat, batch: seq<RowId>)
    requires Selected(rows, locked, limit, batch)
    ensures Distinct(batch) && forall i :: 0 <= i < |batch| ==> batch[i] in rows && rows[batch[i]].status == PENDING
  {
    assert forall i :: 0 <= i < |batch| ==> batch[i] in Ids(batch);
  }

  lemma CountDistinct(batch: seq<RowId>)
    requires Distinct(batch)
    ensures |Ids(batch)| == |batch|
  {
    if batch == [] {
    } else {
      var n := |batch| - 1;
      CountDistinct(batch[..n]);
      assert Ids(batch) == Ids(batch[..n]) + {batch[n]};
    }
  }

  /** An eligible row is passed over only by a full batch of rows that are at least as old. */
  lemma PassedOver(rows: map<RowId, QueueRow>, locked: set<RowId>, limit: nat, batch: seq<RowId>, id: RowId)
    requires Selected(rows, locked, limit, batch)
    requires id in rows && rows[id].status == PENDING && id !in locked && id !in batch
    ensures |batch| == limit
    ensures forall i :: 0 <= i < |batch| ==> batch[i] in rows && rows[batch[i]].createdAt <= rows[id].createdAt
  {
    SelectedArePending(rows, locked, limit, batch);
    var eligible := Eligible(rows, locked);
    assert id in eligible - Ids(batch);
    CountDistinct(batch);
    assert |eligible - Ids(batch)| == |eligible| - |Ids(batch)|;
  }

  lemma SameAttempts(rows: map<RowId, QueueRow>, batch: seq<RowId>, now: int)
    requires forall i :: 0 <= i < |batch| ==> batch[i] in rows
    ensures forall i :: 0 <= i < |batch| ==>
                          && batch[i] in ClaimAll(rows, Ids(batch), now)
                          && ClaimAll(rows, Ids(batch), now)[batch[i]].attempts == rows[batch[i]].attempts
  {
  }

  lemma ClaimsStandUntil(rows: map<RowId, QueueRow>, locked: set<RowId>, limit: nat, batch: seq<RowId>, now: int,
                         cutoff: int)
    requires Selected(rows, locked, limit, batch)
    ensures forall i :: 0 <= i < |batch| ==> batch[i] in rows
    ensures cutoff <= now ==>
              forall i :: 0 <= i < |batch| ==>
                            ReapRow(ClaimAll(rows, Ids(batch), now)[batch[i]], cutoff)
                            == rows[batch[i]].(status := INFLIGHT, claimedAt := Some(now))
    ensures cutoff > now ==>
              forall i :: 0 <= i < |batch| ==>
                            ReapRow(ClaimAll(rows, Ids(batch), now)[batch[i]], cutoff)
                            == rows[batch[i]].(claimedAt := None)
  {
    SelectedArePending(rows, locked, limit, batch);
    forall i | 0 <= i < |batch|
      ensures ClaimAll(rows, Ids(batch), now)[batch[i]] == ClaimRow(rows[batch[i]], now)
    {
    }
  }

  class Store {
    var rows: map<RowId, QueueRow>

    constructor ()
      ensures rows == map[]
    {
      rows := map[];
    }

    method RecordFailed(id: RowId, error: string, now: int)
      requires id !in rows
      modifies this
      ensures rows == old(rows)[id := NewRow(now, Some(error))]
    {
      rows := rows[id := QueueRow(PENDING, 0, None, now, None, Some(error))];
    }

    /** The oldest row of a set. */
    method Oldest(ids: set<RowId>) returns (oldest: RowId)
      requires ids != {} && ids <= rows.Keys
      ensures oldest in ids && forall id <- ids :: rows[oldest].createdAt <= rows[id].createdAt
    {
      oldest :| oldest in ids;
      var rest := ids - {oldest};
      while rest != {}
        invariant rest <= ids && oldest in ids
        invariant forall id <- ids - rest :: rows[oldest].createdAt <= rows[id].createdAt
      {
        var id :| id in rest;
        if rows[id].createdAt < rows[oldest].createdAt { oldest := id; }
        rest := rest - {id};
      }
    }

    /** ORDER BY created_at LIMIT, over the rows another claimer has not locked. */
    method SelectPending(limit: nat, locked: set<RowId>) returns (batch: seq<RowId>)
      ensures Selected(rows, locked, limit, batch)
    {
      var eligible := Eligible(rows, locked);
      var left := eligible;
      batch := [];
      while |batch| < limit && left != {}
        invariant |batch| <= limit && Taking(rows, eligible, batch, left)
      {
        var id := Oldest(left);
        TakeOldest(rows, eligible, batch, left, id);
        batch, left := batch + [id], left - {id};
      }
    }

    /** Claims the oldest eligible rows, as many as there are up to the limit, and no others;
        then reads them back. */
    method ClaimPendingBatch(limit: nat, locked: set<RowId>, now: int)
      returns (batch: seq<RowId>, claimed: seq<Claimed>)
      modifies this
      ensures Selected(old(rows), locked, limit, batch)
      ensures rows == ClaimAll(old(rows), Ids(batch), now)
      ensures forall i :: 0 <= i < |batch| ==> batch[i] in old(rows)
      ensures claimed == AsRead(old(rows), batch)
      ensures forall i :: 0 <= i < |batch| ==>
                rows[batch[i]].status == INFLIGHT && rows[batch[i]].claimedAt == Some(now)
      ensures forall id <- old(rows) :: id !in batch ==> id in rows && rows[id] == old(rows)[id]
      ensures forall id <- old(rows) :: old(rows)[id].status == PENDING && id !in locked && id !in batch ==>
                |batch| == limit
                && forall i :: 0 <= i < |batch| ==> old(rows)[batch[i]].createdAt <= old(rows)[id].createdAt
    {
      batch := SelectPending(limit, locked);
      SelectedArePending(rows, locked, limit, batch);
      forall id <- rows | rows[id].status == PENDING && id !in locked && id !in batch
        ensures |batch| == limit
                && forall i :: 0 <= i < |batch| ==> rows[batch[i]].createdAt <= rows[id].createdAt
      {
        PassedOver(rows, locked, limit, batch, id);
      }
      rows := ClaimAll(rows, Ids(batch), now);
      SameAttempts(old(rows), batch, now);
      claimed := AsRead(rows, batch);
    }

    /** Updating a row that has been purged meanwhile throws. */
    method MarkProcessed(id: RowId, now: int) returns (ok: bool)
      modifies this
      ensures ok <==> id in old(rows)
      ensures rows == if ok then old(rows)[id := ProcessRow(old(rows)[id], now)] else old(rows)
    {
      if id !in rows { return false; }
      ok := true;
      rows := rows[id := rows[id].(status := DONE, processedAt := Some(now), claimedAt := None)];
    }

    method MarkFailed(id: RowId, currentAttempts: int, error: string, maxAttempts: int) returns (ok: bool)
      modifies this
      ensures ok <==> id in old(rows)
      ensures rows == if ok then old(rows)[id := FailRow(old(rows)[id], currentAttempts, error, maxAttempts)]
              else old(rows)
    {
      if id !in rows { return false; }
      ok := true;
      var nextAttempts := currentAttempts + 1;
      var nextStatus := if nextAttempts >= maxAttempts then FAILED_DLQ else PENDING;
      rows := rows[id := rows[id].(attempts := nextAttempts, lastError := Some(error), status := nextStatus,
                                   claimedAt := None)];
    }

    method ReapStaleInflight(cutoff: int) returns (count: nat)
      modifies this
      ensures rows == map id | id in old(rows) :: ReapRow(old(rows)[id], cutoff)
      ensures count == |set id | id in old(rows) && Stale(old(rows)[id], cutoff)|
    {
      var stale := set id | id in rows && Stale(rows[id], cutoff);
      count := |stale|;
      rows := map id | id in rows :: if id in stale then rows[id].(status := PENDING, claimedAt := None) else rows[id];
    }

    /** A batch is claimed at `now` and the reaper comes by: the claims stand while its cutoff
        has not passed `now`, and are undone, with nothing counted against the rows, once it has. */
    method ClaimThenReap(limit: nat, locked: set<RowId>, now: int, cutoff: int)
      returns (batch: seq<RowId>, claimed: seq<Claimed>)
      modifies this
      ensures Selected(old(rows), locked, limit, batch)
      ensures forall i :: 0 <= i < |batch| ==> batch[i] in old(rows) && batch[i] in rows
      ensures cutoff <= now ==>
                forall i :: 0 <= i < |batch| ==>
                              rows[batch[i]] == old(rows)[batch[i]].(status := INFLIGHT, claimedAt := Some(now))
      ensures cutoff > now ==>
                forall i :: 0 <= i < |batch| ==> rows[batch[i]] == old(rows)[batch[i]].(claimedAt := None)
    {
      batch, claimed := ClaimPendingBatch(limit, locked, now);
      ClaimsStandUntil(old(rows), locked, limit, batch, now, cutoff);
      var _ := ReapStaleInflight(cutoff);
    }

    method PurgeProcessed(cutoff: int) returns (count: nat)
      modifies this
      ensures rows == map id | id in old(rows) && !Purgeable(old(rows)[id], cutoff) :: old(rows)[id]
      ensures count == |set id | id in old(rows) && Purgeable(old(rows)[id], cutoff)|
    {
      var old_ := set id | id in rows && Purgeable(rows[id], cutoff);
      count := |old_|;
      rows := rows - old_;
    }
  }

  // ------------------------------------------------------------------------ the poll loop

  // How one row fares: what its runner throws, and whether the writes that follow throw.
  datatype Fate = Fate(runner: Option<string>, processedWriteThrows: bool, failedWriteThrows: bool) {
    predicate Processed() {
      runner.None? && !processedWriteThrows
    }

    // Marking the row failed is itself outside the inner try.
    predicate Aborts() {
      !Processed() && failedWriteThrows
    }

    function Thrown(): string {
      if runner.Some? then runner.value else "processed write failed"
    }
  }

  /** How many rows of a batch are worked through before the loop is left. */
  function Worked(fates: seq<Fate>): nat
    ensures Worked(fates) <= |fates|
    ensures forall k :: 0 <= k < Worked(fates) ==> !fates[k].Aborts()
    ensures Worked(fates) < |fates| ==> fates[Worked(fates)].Aborts()
  {
    if fates == [] || fates[0].Aborts() then 0 else 1 + Worked(fates[1..])
  }

  /** Where a row that was claimed as `r` (with `seen` attempts) ends up. */
  function Resolved(r: QueueRow, seen: int, fate: Fate, now: int, maxAttempts: int): QueueRow {
    if fate.Processed() then ProcessRow(r, now) else FailRow(r, seen, fate.Thrown(), maxAttempts)
  }

  /** What a row's fate means: it is done exactly if its runner and the write after it went
      well. Otherwise one attempt of those read is gone, the row keeps what was thrown, and it
      is tried again exactly while attempts are left. */
  lemma FateDecides(r: QueueRow, seen: int, fate: Fate, now: int, maxAttempts: int)
    ensures fate.runner.None? && !fate.processedWriteThrows ==>
              !fate.Aborts()
              && Resolved(r, seen, fate, now, maxAttempts)
                 == r.(status := DONE, processedAt := Some(now), claimedAt := None)
    ensures fate.runner.Some? || fate.processedWriteThrows ==>
              (fate.Aborts() <==> fate.failedWriteThrows)
              && Resolved(r, seen, fate, now, maxAttempts)
                 == r.(status := if seen + 1 < maxAttempts then PENDING else FAILED_DLQ, attempts := seen + 1,
              claimedAt := None,
              lastError := Some(if fate.runner.Some? then fate.runner.value else "processed write failed"))
  {
  }

  /** The first `k` rows of a claimed batch are resolved and nothing else has changed. */
  ghost predicate WorkedTo(before: map<RowId, QueueRow>, after: map<RowId, QueueRow>, claimed: seq<Claimed>,
                           fates: seq<Fate>,
                           k: nat, now: int, maxAttempts: int)
    requires |claimed| == |fates| && forall i :: 0 <= i < |claimed| ==> claimed[i].id in before
  {
    && after.Keys == before.Keys
    && (forall i :: 0 <= i < |claimed| ==>
                      after[claimed[i].id] ==
                      if i < k then Resolved(before[claimed[i].id], claimed[i].attempts, fates[i], now, maxAttempts)
                      else before[claimed[i].id])
    && (forall id <- before :: (forall i :: 0 <= i < |claimed| ==> claimed[i].id != id) ==> after[id] == before[id])
  }

  lemma WorkOne(before: map<RowId, QueueRow>, after: map<RowId, QueueRow>, claimed: seq<Claimed>, fates: seq<Fate>,
                k: nat, now: int, maxAttempts: int)
    requires k < |claimed| == |fates| && forall i :: 0 <= i < |claimed| ==> claimed[i].id in before
    requires forall i, j :: 0 <= i < j < |claimed| ==> claimed[i].id != claimed[j].id
    requires WorkedTo(before, after, claimed, fates, k, now, maxAttempts)
    ensures after[claimed[k].id] == before[claimed[k].id]
    ensures var (id, seen) := (claimed[k].id, claimed[k].attempts);
            WorkedTo(before, after[id := Resolved(after[id], seen, fates[k], now, maxAttempts)],
                     claimed, fates, k + 1, now, maxAttempts)
  {
  }

  // ------------------------------------------------------- a tick in terms of the row machine

  function BatchJobs(batch: seq<RowId>, base: JobId): (jobs: map<JobId, RowId>)
    ensures forall j :: j in jobs <==> base <= j < base + |batch|
    ensures forall j <- jobs :: jobs[j] == batch[j - base]
  {
    if batch == [] then map[]
    else BatchJobs(batch[..|batch| - 1], base)[base + |batch| - 1 := batch[|batch| - 1]]
  }

  /** The jobs of the rows from number `k` on, not yet begun. */
  ghost predicate Waiting(jobs: map<JobId, Job>, batch: seq<RowId>, base: JobId, k: nat) {
    forall i :: k <= i < |batch| ==> IsJob(jobs, base + i, Job(batch[i], Stage.Claiming))
  }

  predicate IsJob(jobs: map<JobId, Job>, j: JobId, job: Job) {
    j in jobs && jobs[j] == job
  }

  lemma SameIds(batch: seq<RowId>, base: JobId)
    ensures BatchJobs(batch, base).Values == Ids(batch)
  {
    var jobs := BatchJobs(batch, base);
    forall id
      ensures id in jobs.Values <==> id in Ids(batch)
    {
      if id in Ids(batch) {
        var i :| 0 <= i < |batch| && batch[i] == id;
        assert base + i in jobs && jobs[base + i] == id;
      }
    }
  }

  lemma ClaimEnabled(s: State, batch: seq<RowId>, base: JobId, now: int)
    requires Distinct(batch) && forall i :: 0 <= i < |batch| ==>
               batch[i] in s.rows && s.rows[batch[i]].status == PENDING
    requires forall j <- s.jobs :: j < base
    ensures Enabled(s, Claim(BatchJobs(batch, base), now))
  {
  }

  lemma TakenJob(jobs: map<JobId, Job>, batch: map<JobId, RowId>, j: JobId)
    requires j in batch
    ensures IsJob(Taken(jobs, batch), j, Job(batch[j], Stage.Claiming))
  {
  }

  lemma ClaimsBatch(jobs: map<JobId, Job>, batch: seq<RowId>, base: JobId)
    ensures Waiting(Taken(jobs, BatchJobs(batch, base)), batch, base, 0)
  {
    var taking := BatchJobs(batch, base);
    forall i | 0 <= i < |batch|
      ensures IsJob(Taken(jobs, taking), base + i, Job(batch[i], Stage.Claiming))
    {
      assert base + i in taking && taking[base + i] == batch[base + i - base];
      TakenJob(jobs, taking, base + i);
    }
  }

  function ReadBacks(base: JobId, n: nat): seq<Action> {
    if n == 0 then [] else ReadBacks(base, n - 1) + [ReadBack(base + n - 1)]
  }

  /** What a claim and the reading back of what it got are in the row machine. */
  function Claims(batch: seq<RowId>, base: JobId, now: int): seq<Action> {
    if batch == [] then [] else [Claim(BatchJobs(batch, base), now)] + ReadBacks(base, |batch|)
  }

  /** What a worker does about one row it has read: run it, and mark it by how that went. */
  function Begun(j: JobId, fate: Fate): seq<Action> {
    if fate.runner.None? then [RunSucceeds(j)] else []
  }

  function Marked(j: JobId, fate: Fate, now: int): Action {
    if fate.Processed() then MarkProcessed(j, now) else MarkFailed(j, fate.Thrown())
  }

  function RowScript(j: JobId, fate: Fate, now: int): seq<Action> {
    Begun(j, fate) + [Marked(j, fate, now)]
  }

  /** And about the first `k` rows of a batch, in order. */
  function Script(base: JobId, fates: seq<Fate>, k: nat, now: int): seq<Action>
    requires k <= |fates|
  {
    if k == 0 then []
    else Script(base, fates, k - 1, now) + RowScript(base + k - 1, fates[k - 1], now)
  }

  /** The same if it stopped at row `k`, which it had begun with. */
  function WorkScript(base: JobId, fates: seq<Fate>, k: nat, now: int): seq<Action>
    requires k <= |fates|
  {
    Script(base, fates, k, now) + if k < |fates| then Begun(base + k, fates[k]) else []
  }

  /** The worker holds the rows from number `k` on, each with the attempts it read. */
  ghost predicate Reads(jobs: map<JobId, Job>, claimed: seq<Claimed>, base: JobId, k: nat) {
    ReadsFrom(jobs, claimed, base, k, |claimed|)
  }

  ghost predicate ReadsFrom(jobs: map<JobId, Job>, claimed: seq<Claimed>, base: JobId, k: nat, n: nat) {
    n <= |claimed| && forall i :: k <= i < n ==> IsJob(jobs, base + i, HeldJob(claimed[i]))
  }

  function HeldJob(row: Claimed): Job {
    Job(row.id, Ready(row.attempts))
  }

  lemma {:induction false} ReadsBatch(s: State, batch: seq<RowId>, claimed: seq<Claimed>, base: JobId, n: nat,
                                      maxAttempts: int)
    returns (s': State)
    requires Waiting(s.jobs, batch, base, 0) && n <= |batch| == |claimed|
    requires forall i :: 0 <= i < |batch| ==>
                           batch[i] in s.rows && claimed[i] == Claimed(batch[i], s.rows[batch[i]].attempts)
    ensures Steps(s, ReadBacks(base, n), maxAttempts) == Some(s')
    ensures s'.rows == s.rows && Waiting(s'.jobs, batch, base, n) && ReadsFrom(s'.jobs, claimed, base, 0, n)
  {
    if n == 0 {
      s' := s;
    } else {
      var s1 := ReadsBatch(s, batch, claimed, base, n - 1, maxAttempts);
      assert IsJob(s1.jobs, base + n - 1, Job(batch[n - 1], Stage.Claiming));
      s' := ReadsOne(s, ReadBacks(base, n - 1), s1, base + n - 1, batch[n - 1], maxAttempts);
      ReadsSnoc(s1.jobs, batch, claimed, base, n - 1);
    }
  }

  lemma ReadsOne(s: State, acts: seq<Action>, s1: State, j: JobId, id: RowId, maxAttempts: int) returns (s': State)
    requires Steps(s, acts, maxAttempts) == Some(s1) && id in s1.rows
    requires j in s1.jobs && s1.jobs[j] == Job(id, Stage.Claiming)
    ensures Steps(s, acts + [ReadBack(j)], maxAttempts) == Some(s')
    ensures s'.rows == s1.rows && s'.jobs == s1.jobs[j := Job(id, Ready(s1.rows[id].attempts))]
  {
    var more;
    more, s' := StepsSnoc(s, acts, s1, ReadBack(j), maxAttempts);
  }

  lemma ReadsSnoc(jobs: map<JobId, Job>, batch: seq<RowId>, claimed: seq<Claimed>, base: JobId, n: nat)
    requires n < |batch| == |claimed| && claimed[n].id == batch[n]
    requires Waiting(jobs, batch, base, n) && ReadsFrom(jobs, claimed, base, 0, n)
    ensures var jobs' := jobs[base + n := HeldJob(claimed[n])];
            Waiting(jobs', batch, base, n + 1) && ReadsFrom(jobs', claimed, base, 0, n + 1)
  {
    var jobs' := jobs[base + n := HeldJob(claimed[n])];
    forall i | n + 1 <= i < |batch|
      ensures IsJob(jobs', base + i, Job(batch[i], Stage.Claiming))
    {
      assert IsJob(jobs, base + i, Job(batch[i], Stage.Claiming));
    }
    forall i | 0 <= i < n + 1
      ensures IsJob(jobs', base + i, HeldJob(claimed[i]))
    {
      assert i < n ==> IsJob(jobs, base + i, HeldJob(claimed[i]));
    }
  }

  lemma ClaimsAreSteps(s: State, batch: seq<RowId>, claimed: seq<Claimed>, base: JobId, now: int, maxAttempts: int)
    returns (s': State)
    requires Distinct(batch) && forall j <- s.jobs :: j < base
    requires forall i :: 0 <= i < |batch| ==> batch[i] in s.rows && s.rows[batch[i]].status == PENDING
    requires claimed == AsRead(s.rows, batch)
    ensures IsRun(s, Claims(batch, base, now), s', Claims(batch, base, now), base, base + |batch|, maxAttempts)
    ensures s'.rows == ClaimAll(s.rows, Ids(batch), now) && Reads(s'.jobs, claimed, base, 0)
  {
    if batch == [] {
      s' := s;
      assert ClaimAll(s.rows, Ids(batch), now) == s.rows;
    } else {
      var acts, s0 := TickBegins(s, batch, base, now, maxAttempts);
      SameAttempts(s.rows, batch, now);
      s' := ReadsBatch(s0, batch, claimed, base, |batch|, maxAttempts);
      StepsConcat(s, acts, ReadBacks(base, |batch|), maxAttempts);
      OwnClaims(batch, base, now);
    }
  }

  lemma TickBegins(s: State, batch: seq<RowId>, base: JobId, now: int, maxAttempts: int)
    returns (acts: seq<Action>, s': State)
    requires Distinct(batch) && forall j <- s.jobs :: j < base
    requires forall i :: 0 <= i < |batch| ==> batch[i] in s.rows && s.rows[batch[i]].status == PENDING
    ensures acts == [Claim(BatchJobs(batch, base), now)] && Steps(s, acts, maxAttempts) == Some(s')
    ensures s'.rows == ClaimAll(s.rows, Ids(batch), now) && Waiting(s'.jobs, batch, base, 0)
  {
    ClaimEnabled(s, batch, base, now);
    ClaimsBatch(s.jobs, batch, base);
    SameIds(batch, base);
    acts, s' := StepsSnoc(s, [], s, Claim(BatchJobs(batch, base), now), maxAttempts);
  }

  lemma {:induction false} OwnReadBacks(base: JobId, n: nat, hi: JobId)
    requires base + n <= hi
    ensures Own(ReadBacks(base, n), base, hi) == ReadBacks(base, n)
  {
    if n > 0 {
      OwnReadBacks(base, n - 1, hi);
    }
  }

  lemma OwnOne(a: Action, lo: JobId, hi: JobId)
    requires By(a, lo, hi)
    ensures Own([a], lo, hi) == [a]
  {
    assert [a][..0] == [];
  }

  lemma ClaimIsOwn(batch: seq<RowId>, base: JobId, now: int)
    requires batch != []
    ensures By(Claim(BatchJobs(batch, base), now), base, base + |batch|)
  {
    assert base in BatchJobs(batch, base);
  }

  lemma OwnClaims(batch: seq<RowId>, base: JobId, now: int)
    requires batch != []
    ensures Own(Claims(batch, base, now), base, base + |batch|) == Claims(batch, base, now)
  {
    ClaimIsOwn(batch, base, now);
    OwnClaimAndReads(Claim(BatchJobs(batch, base), now), base, |batch|);
  }

  lemma OwnClaimAndReads(claim: Action, base: JobId, n: nat)
    requires By(claim, base, base + n)
    ensures Own([claim] + ReadBacks(base, n), base, base + n) == [claim] + ReadBacks(base, n)
  {
    OwnOne(claim, base, base + n);
    OwnReadBacks(base, n, base + n);
    OwnBoth([claim], ReadBacks(base, n), base, base + n);
  }

  lemma OwnBoth(acts: seq<Action>, more: seq<Action>, lo: JobId, hi: JobId)
    requires Own(acts, lo, hi) == acts && Own(more, lo, hi) == more
    ensures Own(acts + more, lo, hi) == acts + more
  {
    OwnConcat(acts, more, lo, hi);
  }

  /** Working through one row is running it and marking it by the attempts that were read. */
  lemma ResolvesRow(s: State, j: JobId, fate: Fate, now: int, maxAttempts: int) returns (s': State)
    requires !fate.Aborts() && j in s.jobs && s.jobs[j].stage.Ready? && s.jobs[j].row in s.rows
    ensures Steps(s, RowScript(j, fate, now), maxAttempts) == Some(s') && s'.jobs == s.jobs - {j}
    ensures var (id, seen) := (s.jobs[j].row, s.jobs[j].stage.seen);
            s'.rows == s.rows[id := Resolved(s.rows[id], seen, fate, now, maxAttempts)]
  {
    var s1 := Starts(s, j, fate, maxAttempts);
    var acts;
    acts, s' := StepsSnoc(s, Begun(j, fate), s1, Marked(j, fate, now), maxAttempts);
    assert s'.jobs == s.jobs - {j};
  }

  lemma Starts(s: State, j: JobId, fate: Fate, maxAttempts: int) returns (s': State)
    requires j in s.jobs && s.jobs[j].stage.Ready?
    ensures Steps(s, Begun(j, fate), maxAttempts) == Some(s') && s'.rows == s.rows
    ensures s'.jobs == if fate.runner.None? then s.jobs[j := s.jobs[j].(stage := Succeeded(s.jobs[j].stage.seen))]
            else s.jobs
  {
    s' := s;
    if fate.runner.None? {
      var acts;
      acts, s' := StepsSnoc(s, [], s, RunSucceeds(j), maxAttempts);
    }
  }

  lemma OwnRow(j: JobId, fate: Fate, now: int, lo: JobId, hi: JobId)
    requires lo <= j < hi
    ensures Own(Begun(j, fate), lo, hi) == Begun(j, fate)
    ensures Own(RowScript(j, fate, now), lo, hi) == RowScript(j, fate, now)
  {
    if fate.runner.None? {
      OwnOne(RunSucceeds(j), lo, hi);
    }
    OwnOne(Marked(j, fate, now), lo, hi);
    OwnBoth(Begun(j, fate), [Marked(j, fate, now)], lo, hi);
  }

  /** `acts` lead from `s0` to `s`, and `own` is what the jobs from `lo` up to `hi` did in them. */
  ghost predicate IsRun(s0: State, acts: seq<Action>, s: State, own: seq<Action>, lo: JobId, hi: JobId,
                        maxAttempts: int) {
    Steps(s0, acts, maxAttempts) == Some(s) && Own(acts, lo, hi) == own
  }

  lemma RunGoesOn(s0: State, acts: seq<Action>, s: State, own: seq<Action>, more: seq<Action>, s': State,
                  own': seq<Action>,
                  lo: JobId, hi: JobId, maxAttempts: int)
    requires IsRun(s0, acts, s, own, lo, hi, maxAttempts) && IsRun(s, more, s', own', lo, hi, maxAttempts)
    ensures IsRun(s0, acts + more, s', own + own', lo, hi, maxAttempts)
  {
    StepsConcat(s0, acts, more, maxAttempts);
    OwnConcat(acts, more, lo, hi);
  }

  /** Others' actions, then some of the worker's own, are a run. */
  lemma TurnThen(s: State, turn: seq<Action>, others: State, own: seq<Action>, s': State, lo: JobId, hi: JobId,
                 maxAttempts: int)
    returns (acts: seq<Action>)
    requires others == Others(s, turn, lo, hi, maxAttempts)
    requires Steps(others, own, maxAttempts) == Some(s') && Own(own, lo, hi) == own
    ensures IsRun(s, acts, s', own, lo, hi, maxAttempts)
  {
    var done := OthersAreSteps(s, turn, lo, hi, maxAttempts);
    RunGoesOn(s, done, others, [], own, s', own, lo, hi, maxAttempts);
    assert [] + own == own;
    acts := done + own;
  }

  /** Others leave the worker's jobs alone, so it still holds its rows when it goes on. */
  lemma OthersLeaveReads(s: State, turn: seq<Action>, claimed: seq<Claimed>, base: JobId, k: nat, maxAttempts: int)
    requires Reads(s.jobs, claimed, base, k) && k < |claimed|
    ensures Reads(Others(s, turn, base, base + |claimed|, maxAttempts).jobs, claimed, base, k)
  {
    var others := OthersAreSteps(s, turn, base, base + |claimed|, maxAttempts);
    var s1 := Others(s, turn, base, base + |claimed|, maxAttempts);
    forall i | k <= i < |claimed|
      ensures IsJob(s1.jobs, base + i, HeldJob(claimed[i]))
    {
      assert IsJob(s.jobs, base + i, HeldJob(claimed[i]));
    }
  }

  lemma OthersStillHeld(jobs: map<JobId, Job>, jobs': map<JobId, Job>, claimed: seq<Claimed>, base: JobId, k: nat)
    requires Reads(jobs, claimed, base, k) && forall j <- jobs :: j != base + k ==> IsJob(jobs', j, jobs[j])
    ensures Reads(jobs', claimed, base, k + 1)
  {
    forall i | k + 1 <= i < |claimed|
      ensures IsJob(jobs', base + i, HeldJob(claimed[i]))
    {
      assert IsJob(jobs, base + i, HeldJob(claimed[i]));
    }
  }

  /** What the worker does about row `k`, all of it or only the start. */
  function Deed(j: JobId, fate: Fate, ok: bool, now: int): seq<Action> {
    if ok then RowScript(j, fate, now) else Begun(j, fate)
  }

  lemma RowDone(s: State, claimed: seq<Claimed>, base: JobId, k: nat, fate: Fate, ok: bool, now: int, maxAttempts: int)
    returns (s': State)
    requires Reads(s.jobs, claimed, base, k) && k < |claimed|
    requires ok <==> !fate.Aborts() && claimed[k].id in s.rows
    ensures Steps(s, Deed(base + k, fate, ok, now), maxAttempts) == Some(s')
    ensures s'.rows == AfterRow(s.rows, claimed[k], fate, now, maxAttempts) && Reads(s'.jobs, claimed, base, k + 1)
  {
    assert IsJob(s.jobs, base + k, HeldJob(claimed[k]));
    if ok {
      s' := ResolvesRow(s, base + k, fate, now, maxAttempts);
    } else {
      s' := Starts(s, base + k, fate, maxAttempts);
    }
    OthersStillHeld(s.jobs, s'.jobs, claimed, base, k);
  }

  /** Others' actions, then row `k`: the run goes on. */
  lemma RowGoesOn(s0: State, acts: seq<Action>, s: State, own: seq<Action>, turn: seq<Action>, others: State,
                  claimed: seq<Claimed>, base: JobId, k: nat, fate: Fate, ok: bool, now: int, maxAttempts: int)
    returns (acts': seq<Action>, s': State)
    requires k < |claimed| && Reads(s.jobs, claimed, base, k)
    requires others == Others(s, turn, base, base + |claimed|, maxAttempts)
    requires IsRun(s0, acts, s, own, base, base + |claimed|, maxAttempts)
    requires ok <==> !fate.Aborts() && claimed[k].id in others.rows
    ensures Steps(others, Deed(base + k, fate, ok, now), maxAttempts) == Some(s')
    ensures s'.rows == AfterRow(others.rows, claimed[k], fate, now, maxAttempts) && Reads(s'.jobs, claimed, base, k + 1)
    ensures IsRun(s0, acts', s', own + Deed(base + k, fate, ok, now), base, base + |claimed|, maxAttempts)
  {
    var j, hi := base + k, base + |claimed|;
    OthersLeaveReads(s, turn, claimed, base, k, maxAttempts);
    s' := RowDone(others, claimed, base, k, fate, ok, now, maxAttempts);
    OwnRow(j, fate, now, base, hi);
    var more := TurnThen(s, turn, others, Deed(j, fate, ok, now), s', base, hi, maxAttempts);
    RunGoesOn(s0, acts, s, own, more, s', Deed(j, fate, ok, now), base, hi, maxAttempts);
    acts' := acts + more;
  }

  /** What one row's handling does to the table on its own. */
  function AfterRow(rows: map<RowId, QueueRow>, row: Claimed, fate: Fate, now: int, maxAttempts: int)
    : map<RowId, QueueRow>
  {
    if fate.Aborts() || row.id !in rows then rows
    else rows[row.id := Resolved(rows[row.id], row.attempts, fate, now, maxAttempts)]
  }

  /** Nobody else does anything while the batch is worked through. */
  predicate Quiet(turns: seq<seq<Action>>) {
    forall i :: 0 <= i < |turns| ==> turns[i] == []
  }

  /** A tick from `s0` to `s`: a run of the row machine in which this worker claimed the batch,
      read it back, and did about its rows what their fates say, in order, up to the first one
      whose failure could not be recorded. */
  ghost predicate Ticked(s0: State, acts: seq<Action>, s: State, batch: seq<RowId>, fates: seq<Fate>, k: nat,
                         now: int, base: JobId, maxAttempts: int) {
    && k <= |batch| == |fates|
    && IsRun(s0, acts, s, Claims(batch, base, now) + WorkScript(base, fates, k, now), base, base + |batch|, maxAttempts)
    && (k < |batch| ==> fates[k].Aborts() || batch[k] !in s.rows)
  }

  lemma IdleTick(s: State, fates: seq<Fate>, now: int, base: JobId, maxAttempts: int)
    requires fates == []
    ensures Ticked(s, [], s, [], fates, 0, now, base, maxAttempts)
  {
  }

  /** What a tick does to the table if nobody else does anything. */
  ghost predicate QuietTick(before: map<RowId, QueueRow>, after: map<RowId, QueueRow>, batch: seq<RowId>,
                            fates: seq<Fate>,
                            k: nat, now: int, maxAttempts: int)
    requires |fates| == |batch| && forall i :: 0 <= i < |batch| ==> batch[i] in before
  {
    k == Worked(fates)
    && WorkedTo(ClaimAll(before, Ids(batch), now), after, AsRead(before, batch), fates, k, now, maxAttempts)
  }

  /** Working through a claimed batch from `s0` to `s`, from the table `before`. */
  ghost predicate WorkDone(s0: State, acts: seq<Action>, s: State, before: map<RowId, QueueRow>, claimed: seq<Claimed>,
                           fates: seq<Fate>, turns: seq<seq<Action>>, k: nat, now: int, base: JobId, maxAttempts: int) {
    && k <= |claimed| == |fates|
    && IsRun(s0, acts, s, WorkScript(base, fates, k, now), base, base + |claimed|, maxAttempts)
    && (k < |claimed| ==> fates[k].Aborts() || claimed[k].id !in s.rows)
    && Reads(s.jobs, claimed, base, k + 1)
    && (Quiet(turns) && AllThere(before, claimed) ==>
          k == Worked(fates) && WorkedTo(before, s.rows, claimed, fates, k, now, maxAttempts))
  }

  /** The same with row `k` still to come. */
  ghost predicate Working(s0: State, acts: seq<Action>, s: State, before: map<RowId, QueueRow>, claimed: seq<Claimed>,
                          fates: seq<Fate>, turns: seq<seq<Action>>, k: nat, now: int, base: JobId, maxAttempts: int) {
    && k <= |claimed| == |fates|
    && IsRun(s0, acts, s, Script(base, fates, k, now), base, base + |claimed|, maxAttempts)
    && Reads(s.jobs, claimed, base, k)
    && (Quiet(turns) && AllThere(before, claimed) ==>
          && (forall i :: 0 <= i < k ==> !fates[i].Aborts())
          && WorkedTo(before, s.rows, claimed, fates, k, now, maxAttempts))
  }

  lemma WorkBegins(s0: State, claimed: seq<Claimed>, fates: seq<Fate>, turns: seq<seq<Action>>, now: int, base: JobId,
                   maxAttempts: int)
    requires |claimed| == |fates| && Reads(s0.jobs, claimed, base, 0)
    ensures Working(s0, [], s0, s0.rows, claimed, fates, turns, 0, now, base, maxAttempts)
  {
  }

  lemma WorkGoesOn(s0: State, acts: seq<Action>, s: State, acts': seq<Action>, s': State, before: map<RowId, QueueRow>,
                   claimed: seq<Claimed>, fates: seq<Fate>, turns: seq<seq<Action>>, k: nat, now: int, base: JobId,
                   maxAttempts: int)
    requires Working(s0, acts, s, before, claimed, fates, turns, k, now, base, maxAttempts) && k < |claimed| == |turns|
    requires IsRun(s0, acts', s', Script(base, fates, k, now) + RowScript(base + k, fates[k], now), base,
                   base + |claimed|, maxAttempts)
    requires Reads(s'.jobs, claimed, base, k + 1)
    requires turns[k] == [] ==> !fates[k].Aborts() && claimed[k].id in s.rows
                                && s'.rows == AfterRow(s.rows, claimed[k], fates[k], now, maxAttempts)
    ensures Working(s0, acts', s', before, claimed, fates, turns, k + 1, now, base, maxAttempts)
  {
    if Quiet(turns) && AllThere(before, claimed) {
      assert turns[k] == [];
      QuietRow(before, s.rows, claimed, fates, k, now, maxAttempts);
    }
  }

  lemma QuietRow(before: map<RowId, QueueRow>, after: map<RowId, QueueRow>, claimed: seq<Claimed>, fates: seq<Fate>,
                 k: nat, now: int, maxAttempts: int)
    requires k < |claimed| == |fates| && AllThere(before, claimed) && !fates[k].Aborts() && claimed[k].id in after
    requires WorkedTo(before, after, claimed, fates, k, now, maxAttempts)
    ensures WorkedTo(before, AfterRow(after, claimed[k], fates[k], now, maxAttempts), claimed, fates, k + 1, now,
                     maxAttempts)
  {
    WorkOne(before, after, claimed, fates, k, now, maxAttempts);
  }

  lemma WorkStops(s0: State, acts: seq<Action>, s: State, acts': seq<Action>, s': State, before: map<RowId, QueueRow>,
                  claimed: seq<Claimed>, fates: seq<Fate>, turns: seq<seq<Action>>, k: nat, now: int, base: JobId,
                  maxAttempts: int)
    requires Working(s0, acts, s, before, claimed, fates, turns, k, now, base, maxAttempts) && k < |claimed| == |turns|
    requires IsRun(s0, acts', s', Script(base, fates, k, now) + Begun(base + k, fates[k]), base, base + |claimed|,
                   maxAttempts)
    requires Reads(s'.jobs, claimed, base, k + 1) && (fates[k].Aborts() || claimed[k].id !in s'.rows)
    requires turns[k] == [] ==> (fates[k].Aborts() || claimed[k].id !in s.rows) && s'.rows == s.rows
    ensures WorkDone(s0, acts', s', before, claimed, fates, turns, k, now, base, maxAttempts)
  {
  }

  lemma WorkEnds(s0: State, acts: seq<Action>, s: State, before: map<RowId, QueueRow>, claimed: seq<Claimed>,
                 fates: seq<Fate>, turns: seq<seq<Action>>, now: int, base: JobId, maxAttempts: int)
    requires Working(s0, acts, s, before, claimed, fates, turns, |claimed|, now, base, maxAttempts)
    ensures WorkDone(s0, acts, s, before, claimed, fates, turns, |claimed|, now, base, maxAttempts)
  {
    assert Script(base, fates, |claimed|, now) + [] == Script(base, fates, |claimed|, now);
  }

  lemma ClaimsThenWork(before: map<RowId, QueueRow>, s0: State, s1: State, acts: seq<Action>, s: State,
                       batch: seq<RowId>,
                       fates: seq<Fate>, turns: seq<seq<Action>>, k: nat, now: int, base: JobId, maxAttempts: int)
    requires Distinct(batch) && forall i :: 0 <= i < |batch| ==> batch[i] in before
    requires IsRun(s0, Claims(batch, base, now), s1, Claims(batch, base, now), base, base + |batch|, maxAttempts)
    requires WorkDone(s1, acts, s, ClaimAll(before, Ids(batch), now), AsRead(before, batch), fates, turns, k, now,
                      base, maxAttempts)
    ensures Ticked(s0, Claims(batch, base, now) + acts, s, batch, fates, k, now, base, maxAttempts)
    ensures Quiet(turns) ==> QuietTick(before, s.rows, batch, fates, k, now, maxAttempts)
  {
    ClaimedAreThere(before, batch, now);
    RunGoesOn(s0, Claims(batch, base, now), s1, Claims(batch, base, now), acts, s, WorkScript(base, fates, k, now),
              base, base + |batch|, maxAttempts);
  }

  lemma ClaimedAreThere(before: map<RowId, QueueRow>, batch: seq<RowId>, now: int)
    requires Distinct(batch) && forall i :: 0 <= i < |batch| ==> batch[i] in before
    ensures AllThere(ClaimAll(before, Ids(batch), now), AsRead(before, batch))
  {
  }

  ghost predicate AllThere(rows: map<RowId, QueueRow>, claimed: seq<Claimed>) {
    && (forall i :: 0 <= i < |claimed| ==> claimed[i].id in rows)
    && forall i, j :: 0 <= i < j < |claimed| ==> claimed[i].id != claimed[j].id
  }

  class Reaper {
    const store: Store
    const maxAttempts: int
    const claimTimeoutMs: int
    var polling: bool
    var reaping: bool

    constructor (store: Store, maxAttempts: int, claimTimeoutMs: int)
      requires maxAttempts >= 1
      ensures this.store == store && this.maxAttempts == maxAttempts && this.claimTimeoutMs == claimTimeoutMs
      ensures !polling && !reaping
    {
      this.store, this.maxAttempts, this.claimTimeoutMs := store, maxAttempts, claimTimeoutMs;
      polling, reaping := false, false;
    }

    /** One row: run it, mark it done; if either throws, mark it failed, which may throw too. */
    method WorkRow(row: Claimed, fate: Fate, now: int) returns (ok: bool)
      modifies store
      ensures ok <==> !fate.Aborts() && row.id in old(store.rows)
      ensures store.rows == AfterRow(old(store.rows), row, fate, now, maxAttempts)
      ensures forall id <- old(store.rows) :: id in store.rows
                && (id != row.id || !ok ==> store.rows[id] == old(store.rows)[id])
      ensures ok ==> row.id in store.rows
                     && (store.rows[row.id].status == DONE <==> fate.runner.None? && !fate.processedWriteThrows)
                     && (store.rows[row.id].status != DONE ==> store.rows[row.id].attempts == row.attempts + 1)
    {
      if fate.runner.None? && !fate.processedWriteThrows {
        ok := store.MarkProcessed(row.id, now);
        if ok { return; }
      }
      if fate.failedWriteThrows { return false; }
      ok := store.MarkFailed(row.id, row.attempts, fate.Thrown(), maxAttempts);
    }

    /** What others do, and then row `k`. */
    method WorkNext(claimed: seq<Claimed>, k: nat, fate: Fate, turn: seq<Action>, now: int, base: JobId, s: State,
                    ghost s0: State, ghost acts: seq<Action>, ghost own: seq<Action>)
      returns (ok: bool, s': State, ghost acts': seq<Action>)
      requires k < |claimed| && s.rows == store.rows && Reads(s.jobs, claimed, base, k)
      requires IsRun(s0, acts, s, own, base, base + |claimed|, maxAttempts)
      modifies store
      ensures s'.rows == store.rows && Reads(s'.jobs, claimed, base, k + 1)
      ensures IsRun(s0, acts', s', own + Deed(base + k, fate, ok, now), base, base + |claimed|, maxAttempts)
      ensures !ok ==> fate.Aborts() || claimed[k].id !in store.rows
      ensures turn == [] ==> (ok <==> !fate.Aborts() && claimed[k].id in old(store.rows))
                             && store.rows == AfterRow(old(store.rows), claimed[k], fate, now, maxAttempts)
    {
      var others := Others(s, turn, base, base + |claimed|, maxAttempts);
      store.rows := others.rows;
      ok := WorkRow(claimed[k], fate, now);
      ghost var s1;
      acts', s1 := RowGoesOn(s0, acts, s, own, turn, others, claimed, base, k, fate, ok, now, maxAttempts);
      s' := Steps(others, Deed(base + k, fate, ok, now), maxAttempts).value;
    }

    /** Works through a claimed batch in order while others go on: `turns` is what they try
        before each row. Whatever they do, all of it together is a run of the row machine in
        which this worker did exactly what its rows' fates say, in order, up to the first row
        whose failure could not be recorded; from there on it still holds its claims. If the
        others are quiet, its rows before that one are resolved and nothing else has changed. */
    method Work(claimed: seq<Claimed>, fates: seq<Fate>, turns: seq<seq<Action>>, now: int, base: JobId, s0: State)
      returns (k: nat, s: State, ghost acts: seq<Action>)
      requires |claimed| == |fates| == |turns| && s0.rows == store.rows && Reads(s0.jobs, claimed, base, 0)
      modifies store
      ensures s.rows == store.rows
      ensures WorkDone(s0, acts, s, s0.rows, claimed, fates, turns, k, now, base, maxAttempts)
    {
      k, s, acts := 0, s0, [];
      WorkBegins(s0, claimed, fates, turns, now, base, maxAttempts);
      while k < |claimed|
        invariant s.rows == store.rows
        invariant Working(s0, acts, s, s0.rows, claimed, fates, turns, k, now, base, maxAttempts)
      {
        ghost var acts1, s1 := acts, s;
        var ok;
        ok, s, acts := WorkNext(claimed, k, fates[k], turns[k], now, base, s, s0, acts, Script(base, fates, k, now));
        if !ok {
          WorkStops(s0, acts1, s1, acts, s, s0.rows, claimed, fates, turns, k, now, base, maxAttempts);
          return;
        }
        WorkGoesOn(s0, acts1, s1, acts, s, s0.rows, claimed, fates, turns, k, now, base, maxAttempts);
        k := k + 1;
      }
      WorkEnds(s0, acts, s, s0.rows, claimed, fates, turns, now, base, maxAttempts);
    }

    /** Claims the oldest rows and reads them back. */
    method Take(batchSize: nat, locked: set<RowId>, now: int, base: JobId, s0: State)
      returns (batch: seq<RowId>, claimed: seq<Claimed>, s: State)
      requires s0.rows == store.rows && forall j <- s0.jobs :: j < base
      modifies store
      ensures Selected(old(store.rows), locked, batchSize, batch)
      ensures forall i :: 0 <= i < |batch| ==> batch[i] in old(store.rows)
      ensures claimed == AsRead(old(store.rows), batch)
      ensures store.rows == ClaimAll(old(store.rows), Ids(batch), now) && s.rows == store.rows
      ensures IsRun(s0, Claims(batch, base, now), s, Claims(batch, base, now), base, base + |batch|, maxAttempts)
      ensures Reads(s.jobs, claimed, base, 0)
    {
      batch, claimed := store.ClaimPendingBatch(batchSize, locked, now);
      SelectedArePending(old(store.rows), locked, batchSize, batch);
      ghost var s' := ClaimsAreSteps(s0, batch, claimed, base, now, maxAttempts);
      s := Steps(s0, Claims(batch, base, now), maxAttempts).value;
    }

    /** Claims the oldest rows and works through them. */
    method Tick(batchSize: nat, locked: set<RowId>, fateOf: map<RowId, Fate>, turnOf: map<RowId, seq<Action>>, now: int,
                base: JobId, s0: State)
      returns (batch: seq<RowId>, k: nat, s: State, ghost acts: seq<Action>)
      requires s0.rows == store.rows && forall j <- s0.jobs :: j < base
      modifies store
      ensures Selected(old(store.rows), locked, batchSize, batch)
      ensures s.rows == store.rows && Ticked(s0, acts, s, batch, Fates(batch, fateOf), k, now, base, maxAttempts)
      ensures forall i :: 0 <= i < |batch| ==> batch[i] in old(store.rows)
      ensures Quiet(Turns(batch, turnOf)) ==>
                QuietTick(old(store.rows), store.rows, batch, Fates(batch, fateOf), k, now, maxAttempts)
    {
      var claimed, s1;
      batch, claimed, s1 := Take(batchSize, locked, now, base, s0);
      k, s, acts := Work(claimed, Fates(batch, fateOf), Turns(batch, turnOf), now, base, s1);
      ClaimsThenWork(old(store.rows), s0, s1, acts, s, batch, Fates(batch, fateOf), Turns(batch, turnOf), k, now,
                     base, maxAttempts);
      acts := Claims(batch, base, now) + acts;
    }

    /** A tick that finds another one running, or whose claim throws, does nothing. Any other
        claims the oldest rows, as many as there are up to the batch size, and works through
        them while others go on. */
    method Poll(batchSize: nat, locked: set<RowId>, claimThrows: bool, fateOf: map<RowId, Fate>,
                turnOf: map<RowId, seq<Action>>, now: int, base: JobId, s0: State)
      returns (batch: seq<RowId>, k: nat, s: State, ghost acts: seq<Action>)
      requires s0.rows == store.rows && forall j <- s0.jobs :: j < base
      modifies this, store
      ensures polling == old(polling) && reaping == old(reaping)
      ensures old(polling) || claimThrows ==> store.rows == old(store.rows) && batch == [] && s == s0
      ensures !old(polling) && !claimThrows ==> Selected(old(store.rows), locked, batchSize, batch)
      ensures s.rows == store.rows && Ticked(s0, acts, s, batch, Fates(batch, fateOf), k, now, base, maxAttempts)
      ensures forall i :: 0 <= i < |batch| ==> batch[i] in old(store.rows)
      ensures !old(polling) && !claimThrows && Quiet(Turns(batch, turnOf)) ==>
                QuietTick(old(store.rows), store.rows, batch, Fates(batch, fateOf), k, now, maxAttempts)
    {
      batch, k, s, acts := [], 0, s0, [];
      IdleTick(s0, Fates(batch, fateOf), now, base, maxAttempts);
      if polling { return; }
      polling := true;
      if !claimThrows {
        batch, k, s, acts := Tick(batchSize, locked, fateOf, turnOf, now, base, s0);
      }
      polling := false;
    }

    static function Turns(batch: seq<RowId>, turnOf: map<RowId, seq<Action>>): (turns: seq<seq<Action>>)
      ensures |turns| == |batch|
    {
      seq(|batch|, i requires 0 <= i < |batch| => if batch[i] in turnOf then turnOf[batch[i]] else [])
    }

    /** The other tick: exactly the rows claimed longer ago than the timeout go back to
        PENDING, with their attempts as they were. */
    method ReapStaleClaims(now: int, updateThrows: bool) returns (count: nat)
      modifies this, store
      ensures polling == old(polling) && reaping == old(reaping)
      ensures old(reaping) || updateThrows ==> store.rows == old(store.rows) && count == 0
      ensures !old(reaping) && !updateThrows ==> store.rows.Keys == old(store.rows).Keys
                                                 && count == |set id | id in old(store.rows) &&
                                                                       Stale(old(store.rows)[id], now - claimTimeoutMs)|
      ensures !old(reaping) && !updateThrows ==>
                forall id <- old(store.rows) ::
                  id in store.rows
                  && store.rows[id] ==
                  if old(store.rows)[id].status == INFLIGHT && old(store.rows)[id].claimedAt.Some?
                     && old(store.rows)[id].claimedAt.value < now - claimTimeoutMs
                  then old(store.rows)[id].(status := PENDING, claimedAt := None)
                  else old(store.rows)[id]
    {
      count := 0;
      if reaping { return; }
      reaping := true;
      if !updateThrows {
        count := store.ReapStaleInflight(now - claimTimeoutMs);
      }
      reaping := false;
    }

    static function Fates(batch: seq<RowId>, fateOf: map<RowId, Fate>): (fates: seq<Fate>)
      ensures |fates| == |batch|
    {
      seq(|batch|, i requires 0 <= i < |batch| =>
          if batch[i] in fateOf then fateOf[batch[i]] else Fate(None, false, false))
    }
  }
}
