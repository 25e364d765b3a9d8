/** Edits of a knowledge item under optimistic concurrency, next to the writers that change
    its flags without a version check, and the revision history the edits leave. */
module KnowledgeRevisions {
  import opened Foundations

  datatype Status = DRAFT | PUBLISHED | ARCHIVED | STALE

  datatype Item = Item(title: string, body: string, status: Status, isVerified: bool, acceptedAnswerId: Option<string>,
                       version: int, updatedBy: Option<string>, deleted: bool)

  datatype Revision = Revision(version: int, bodySnapshot: string, editedBy: string)

  datatype Edit = Edit(title: string, body: string, editor: string, expectedVersion: int)

  // What the handlers without a version check do to a loaded item.
  datatype Touch = Publish | Verify(verifier: string) | SoftDelete | AcceptAnswer(id: string) | ClearAcceptedAnswer

  // ------------------------------------------------------------------------ as values

  function Edited(i: Item, title: string, body: string, editor: string): Item {
    i.(title := title, body := body, updatedBy := Some(editor), version := i.version + 1)
  }

  /** None when the handler stops before writing. */
  function Touched(i: Item, c: Touch): Option<Item> {
    match c
    case Publish => if i.status == DRAFT then Some(i.(status := PUBLISHED)) else None
    case Verify(verifier) => if i.isVerified then None else Some(i.(isVerified := true, updatedBy := Some(verifier)))
    case SoftDelete => Some(i.(deleted := true))
    case AcceptAnswer(id) => Some(i.(acceptedAnswerId := Some(id)))
    case ClearAcceptedAnswer => Some(i.(acceptedAnswerId := None))
  }

  /** Columns of the update with a version check, all taken from the loaded item. */
  function OccUpdate(row: Item, item: Item): Item {
    item.(acceptedAnswerId := row.acceptedAnswerId)
  }

  /** Columns of the update without one: neither title, body nor version. */
  function PlainUpdate(row: Item, item: Item): Item {
    row.(status := item.status, isVerified := item.isVerified, acceptedAnswerId := item.acceptedAnswerId,
    updatedBy := item.updatedBy, deleted := item.deleted)
  }

  datatype Outcome = Done | NotFound | VersionConflict | DuplicateRevision | NotADraft | AlreadyVerified

  datatype Store = Store(row: Item, revisions: map<int, Revision>)

  /** The edit transaction: rolled back as a whole if the revision's key is taken. */
  function CommitEdit(s: Store, loaded: Item, e: Edit): (Store, Outcome) {
    var item := Edited(loaded, e.title, e.body, e.editor);
    if s.row.version != e.expectedVersion then (s, VersionConflict)
    else if item.version in s.revisions then (s, DuplicateRevision)
    else (Store(OccUpdate(s.row, item), s.revisions[item.version := Revision(item.version, item.body, e.editor)]), Done)
  }

  function CommitTouch(s: Store, loaded: Item, c: Touch): Store {
    match Touched(loaded, c)
    case None => s
    case Some(item) => s.(row := PlainUpdate(s.row, item))
  }

  // ------------------------------------------------------------------ every interleaving

  type TxId = nat

  datatype Tx = Editing(loaded: Item, edit: Edit) | Touching(loaded: Item, touch: Touch)

  datatype State = State(store: Store, txs: map<TxId, Tx>)

  datatype Action =
    | BeginEdit(tx: TxId, edit: Edit)
    | BeginTouch(tx: TxId, touch: Touch)
    | Commit(tx: TxId)
    | Abort(tx: TxId)

  function Init(title: string, body: string): State {
    State(Store(Item(title, body, DRAFT, false, None, 1, None, false), map[]), map[])
  }

  predicate Enabled(s: State, a: Action) {
    match a
    // A soft-deleted row is not found.
    case BeginEdit(t, _) => t !in s.txs && !s.store.row.deleted
    case BeginTouch(t, _) => t !in s.txs && !s.store.row.deleted
    case Commit(t) => t in s.txs
    case Abort(t) => t in s.txs
  }

  function Do(s: State, a: Action): State
    requires Enabled(s, a)
  {
    match a
    case BeginEdit(t, edit) => s.(txs := s.txs[t := Editing(s.store.row, edit)])
    case BeginTouch(t, touch) => s.(txs := s.txs[t := Touching(s.store.row, touch)])
    case Commit(t) =>
      var store := match s.txs[t] {
        case Editing(loaded, e) => CommitEdit(s.store, loaded, e).0
        case Touching(loaded, c) => CommitTouch(s.store, loaded, c)
      };
      State(store, s.txs - {t})
    case Abort(t) => s.(txs := s.txs - {t})
  }

  function Exec(title: string, body: string, acts: seq<Action>): Option<State> {
    if acts == [] then Some(Init(title, body))
    else
      match Exec(title, body, acts[..|acts| - 1])
      case None => None
      case Some(s) => if Enabled(s, acts[|acts| - 1]) then Some(Do(s, acts[|acts| - 1])) else None
  }

  // -------------------------------------------------------------------- the invariant

  /** The body version `v` had: the one created, or the snapshot that revision holds. */
  function BodyAt(s: Store, body: string, v: int): string {
    if v in s.revisions then s.revisions[v].bodySnapshot else body
  }

  ghost predicate HistoryOk(s: Store, body: string) {
    && s.row.version >= 1
    && (forall v :: v in s.revisions <==> 2 <= v <= s.row.version)
    && (forall v <- s.revisions :: s.revisions[v].version == v)
    && s.row.body == BodyAt(s, body, s.row.version)
  }

  ghost predicate LoadedOk(s: Store, body: string, loaded: Item) {
    1 <= loaded.version <= s.row.version && loaded.body == BodyAt(s, body, loaded.version) && !loaded.deleted
  }

  ghost predicate Inv(s: State, body: string) {
    HistoryOk(s.store, body) && forall t <- s.txs :: LoadedOk(s.store, body, s.txs[t].loaded)
  }

  lemma StepKeepsInv(s: State, a: Action, body: string)
    requires Inv(s, body) && Enabled(s, a)
    ensures Inv(Do(s, a), body)
  {
  }

  /** Under any interleaving an item's committed revisions are exactly 2 to its version, and
      its body is the newest one's snapshot (or the original body). */
  lemma {:induction false} HistoryAlwaysOk(title: string, body: string, acts: seq<Action>)
    requires Exec(title, body, acts).Some?
    ensures Inv(Exec(title, body, acts).value, body)
  {
    if acts != [] {
      HistoryAlwaysOk(title, body, acts[..|acts| - 1]);
      StepKeepsInv(Exec(title, body, acts[..|acts| - 1]).value, acts[|acts| - 1], body);
    }
  }

  /** What a committed edit leaves: the row under the next version with the edit's title, body
      and editor, the flags as loaded and the accepted answer as it is; and one new revision
      that holds the body. */
  ghost predicate EditWritten(s: Store, loaded: Item, e: Edit, s': Store) {
    var v := s.row.version + 1;
    && s'.row == Item(e.title, e.body, loaded.status, loaded.isVerified, s.row.acceptedAnswerId, v, Some(e.editor),
                      loaded.deleted)
    && s'.revisions == s.revisions[v := Revision(v, e.body, e.editor)]
  }

  /** What becomes of an edit. It commits exactly if the version it expected is the one it
      loaded and still the current one, so it was made on the current body and no edit is
      lost; if the row has moved on the version check stops it; and if it expected the current
      version but had loaded an older one, it is the unique revision key that does. */
  lemma EditCommitsIff(title: string, body: string, acts: seq<Action>, t: TxId)
    requires Exec(title, body, acts).Some? && t in Exec(title, body, acts).value.txs
    requires Exec(title, body, acts).value.txs[t].Editing?
    ensures var s := Exec(title, body, acts).value;
            var (loaded, e) := (s.txs[t].loaded, s.txs[t].edit);
            var (after, outcome) := CommitEdit(s.store, loaded, e);
            && (outcome == Done <==> loaded.version == e.expectedVersion == s.store.row.version)
            && (outcome == VersionConflict <==> s.store.row.version != e.expectedVersion)
            && (outcome == DuplicateRevision <==> loaded.version < e.expectedVersion == s.store.row.version)
            && (outcome == Done ==> loaded.body == s.store.row.body && EditWritten(s.store, loaded, e, after))
            && (outcome != Done ==> after == s.store)
  {
    HistoryAlwaysOk(title, body, acts);
    var s := Exec(title, body, acts).value;
    assert LoadedOk(s.store, body, s.txs[t].loaded);
  }

  /** What becomes of a writer without a version check: when it stops without writing, and
      which column it is about. It writes the flags it loaded along with its own, and neither
      title, body, version nor revisions. */
  lemma TouchWrites(s: Store, loaded: Item, c: Touch)
    ensures var after := CommitTouch(s, loaded, c);
            var stops := (c.Publish? && loaded.status != DRAFT) || (c.Verify? && loaded.isVerified);
            && (stops ==> after == s)
            && (!stops ==>
                  && after.revisions == s.revisions
                  && after.row == Item(s.row.title, s.row.body, if c.Publish? then PUBLISHED else loaded.status,
                                       c.Verify? || loaded.isVerified,
                                       if c.AcceptAnswer? then Some(c.id)
                                       else if c.ClearAcceptedAnswer? then None else loaded.acceptedAnswerId,
                                       s.row.version, if c.Verify? then Some(c.verifier) else loaded.updatedBy,
                                       c.SoftDelete? || loaded.deleted))
  {
  }

  /** Revisions are only ever added: what a revision says never changes. */
  lemma {:induction false} RevisionsAreForever(title: string, body: string, acts: seq<Action>, more: seq<Action>,
                                               v: int)
    requires Exec(title, body, acts).Some? && Exec(title, body, acts + more).Some?
    requires v in Exec(title, body, acts).value.store.revisions
    ensures v in Exec(title, body, acts + more).value.store.revisions
    ensures Exec(title, body, acts + more).value.store.revisions[v] == Exec(title, body, acts).value.store.revisions[v]
    ensures Exec(title, body, acts + more).value.store.row.version >= Exec(title, body, acts).value.store.row.version
    decreases |more|
  {
    if more == [] {
      assert acts + more == acts;
    } else {
      var before := more[..|more| - 1];
      assert (acts + more)[..|acts + more| - 1] == acts + before;
      RevisionsAreForever(title, body, acts, before, v);
      HistoryAlwaysOk(title, body, acts + before);
      var s, a := Exec(title, body, acts + before).value, (acts + more)[|acts + more| - 1];
      HistoryAlwaysOk(title, body, acts + more);
      if a.Commit? && s.txs[a.tx].Editing? {
        assert LoadedOk(s.store, body, s.txs[a.tx].loaded);
      }
    }
  }

  // ------------------------------------------------- what the version check does not cover

  /** A deleted item is back, a verified one unverified, or a published one a draft again. */
  predicate FallsBack(before: Item, after: Item) {
    || (before.deleted && !after.deleted)
    || (before.isVerified && !after.isVerified)
    || (before.status != DRAFT && after.status == DRAFT)
  }

  /** The transaction will get as far as writing the flags it loaded. */
  predicate Writes(s: State, t: TxId)
    requires t in s.txs
  {
    match s.txs[t]
    case Editing(loaded, e) => loaded.version == e.expectedVersion == s.store.row.version
    case Touching(loaded, c) => Touched(loaded, c).Some?
  }

  predicate Does(tx: Tx, c: Touch) {
    tx.Touching? && tx.touch == c
  }

  predicate Undeletes(s: State, t: TxId)
    requires t in s.txs
  {
    s.store.row.deleted && Writes(s, t) && !Does(s.txs[t], SoftDelete)
  }

  predicate Unverifies(s: State, t: TxId)
    requires t in s.txs
  {
    s.store.row.isVerified && Writes(s, t) && !s.txs[t].loaded.isVerified
    && !(s.txs[t].Touching? && s.txs[t].touch.Verify?)
  }

  predicate Unpublishes(s: State, t: TxId)
    requires t in s.txs
  {
    s.store.row.status != DRAFT && Writes(s, t) && s.txs[t].loaded.status == DRAFT && !Does(s.txs[t], Publish)
  }

  /** The transaction writes another accepted answer: one it sets, or the one it loaded. */
  predicate ChangesAnswer(s: State, t: TxId)
    requires t in s.txs
  {
    && s.txs[t].Touching? && Writes(s, t)
    && Touched(s.txs[t].loaded, s.txs[t].touch).value.acceptedAnswerId != s.store.row.acceptedAnswerId
  }

  predicate Reverts(s: State, a: Action) {
    a.Commit? && a.tx in s.txs && (Undeletes(s, a.tx) || Unverifies(s, a.tx) || Unpublishes(s, a.tx))
  }

  /** In every reachable state, for every transaction: which flag its commit takes back. A
      deleted item comes back with any commit that writes and does not delete; a verification
      or a publication is undone by one that loaded the item before it, and is not itself a
      verification or a publication. The accepted answer changes with
      a commit without a version check that carries another one, and with no edit. */
  lemma CommitTakesBackIff(title: string, body: string, acts: seq<Action>, s: State, t: TxId)
    requires Exec(title, body, acts) == Some(s) && t in s.txs
    ensures var row := Do(s, Commit(t)).store.row;
            && (s.store.row.deleted && !row.deleted <==> Undeletes(s, t))
            && (s.store.row.isVerified && !row.isVerified <==> Unverifies(s, t))
            && (s.store.row.status != DRAFT && row.status == DRAFT <==> Unpublishes(s, t))
            && (row.acceptedAnswerId != s.store.row.acceptedAnswerId <==> ChangesAnswer(s, t))
  {
    HistoryAlwaysOk(title, body, acts);
    assert LoadedOk(s.store, body, s.txs[t].loaded);
  }

  lemma FallsBackIff(title: string, body: string, acts: seq<Action>, s: State, a: Action)
    requires Exec(title, body, acts) == Some(s) && Enabled(s, a)
    ensures FallsBack(s.store.row, Do(s, a).store.row) <==> Reverts(s, a)
  {
    if a.Commit? {
      CommitTakesBackIff(title, body, acts, s, a.tx);
    }
  }

  /** No commit of `more`, run after `acts`, takes a flag back. */
  predicate NothingReverts(title: string, body: string, acts: seq<Action>, more: seq<Action>) {
    more == [] ||
    (var before := more[..|more| - 1];
     && NothingReverts(title, body, acts, before)
     && (Exec(title, body, acts + before).Some? ==> !Reverts(Exec(title, body, acts + before).value, more[|more| - 1])))
  }

  /** Over whole runs: as long as no such commit occurs, a deleted item stays deleted, a
      verified one verified and a published one published. */
  lemma {:induction false} FlagsNeverFallBack(title: string, body: string, acts: seq<Action>, more: seq<Action>)
    requires Exec(title, body, acts).Some? && Exec(title, body, acts + more).Some?
    requires NothingReverts(title, body, acts, more)
    ensures !FallsBack(Exec(title, body, acts).value.store.row, Exec(title, body, acts + more).value.store.row)
    decreases |more|
  {
    if more == [] {
      assert acts + more == acts;
    } else {
      var before := more[..|more| - 1];
      assert (acts + more)[..|acts + more| - 1] == acts + before;
      FlagsNeverFallBack(title, body, acts, before);
      FallsBackIff(title, body, acts + before, Exec(title, body, acts + before).value, more[|more| - 1]);
    }
  }

  lemma ExecSnoc(title: string, body: string, acts: seq<Action>, s: State, a: Action)
    returns (acts': seq<Action>, s': State)
    requires Exec(title, body, acts) == Some(s) && Enabled(s, a)
    ensures acts' == acts + [a] && s' == Do(s, a) && Exec(title, body, acts') == Some(s')
  {
    acts', s' := acts + [a], Do(s, a);
    assert acts'[..|acts|] == acts;
  }

  /** A new item, on which a transaction begins and another one begins and commits. */
  lemma Overtakes(first: Action, c: Touch) returns (acts: seq<Action>, s: State)
    requires first.BeginEdit? || first.BeginTouch?
    requires first.tx == 1
    requires Touched(Init("t", "b").store.row, c).Some?
    ensures Exec("t", "b", acts) == Some(s)
    ensures s.store == Store(Touched(Init("t", "b").store.row, c).value, map[])
    ensures s.txs == map[1 := if first.BeginEdit? then Editing(Init("t", "b").store.row, first.edit)
                              else Touching(Init("t", "b").store.row, first.touch)]
  {
    acts, s := ExecSnoc("t", "b", [], Init("t", "b"), first);
    acts, s := CommitsTouch(acts, s, c);
  }

  lemma CommitsTouch(acts: seq<Action>, s: State, c: Touch) returns (acts': seq<Action>, s': State)
    requires Exec("t", "b", acts) == Some(s) && 2 !in s.txs && !s.store.row.deleted
    ensures Exec("t", "b", acts') == Some(s') && s' == State(CommitTouch(s.store, s.store.row, c), s.txs)
  {
    acts', s' := ExecSnoc("t", "b", acts, s, BeginTouch(2, c));
    acts', s' := ExecSnoc("t", "b", acts', s', Commit(2));
  }

  /** So an edit that races with a delete can bring the item back. */
  lemma EditCanUndeleteAnItem() returns (acts: seq<Action>, s: State)
    ensures Exec("t", "b", acts) == Some(s) && s.store.row.deleted
    ensures 1 in s.txs && !Do(s, Commit(1)).store.row.deleted
  {
    acts, s := Overtakes(BeginEdit(1, Edit("t", "b2", "ann", 1)), SoftDelete);
  }

  /** A verification that races with a delete can bring it back as well. */
  lemma VerifyCanUndeleteAnItem() returns (acts: seq<Action>, s: State)
    ensures Exec("t", "b", acts) == Some(s) && s.store.row.deleted
    ensures 1 in s.txs && !Do(s, Commit(1)).store.row.deleted
  {
    acts, s := Overtakes(BeginTouch(1, Verify("ann")), SoftDelete);
  }

  /** And a publication can take a verification back. */
  lemma PublishCanUnverifyAnItem() returns (acts: seq<Action>, s: State)
    ensures Exec("t", "b", acts) == Some(s) && s.store.row.isVerified
    ensures 1 in s.txs && !Do(s, Commit(1)).store.row.isVerified
  {
    acts, s := Overtakes(BeginTouch(1, Publish), Verify("ann"));
  }

  /** Or an accepted answer. */
  lemma PublishCanClearAcceptedAnswer() returns (acts: seq<Action>, s: State)
    ensures Exec("t", "b", acts) == Some(s) && s.store.row.acceptedAnswerId == Some("a")
    ensures 1 in s.txs && Does(s.txs[1], Publish) && Do(s, Commit(1)).store.row.acceptedAnswerId == None
  {
    acts, s := Overtakes(BeginTouch(1, Publish), AcceptAnswer("a"));
  }

  // ----------------------------------------------------------------------- in place

  class KnowledgeItem {
    var title: string
    var body: string
    var status: Status
    var isVerified: bool
    var acceptedAnswerId: Option<string>
    var version: int
    var updatedBy: Option<string>
    var deleted: bool

    function State(): Item
      reads this
    {
      Item(title, body, status, isVerified, acceptedAnswerId, version, updatedBy, deleted)
    }

    constructor Rehydrate(row: Item)
      ensures State() == row
    {
      title, body, status, isVerified := row.title, row.body, row.status, row.isVerified;
      acceptedAnswerId, version, updatedBy, deleted := row.acceptedAnswerId, row.version, row.updatedBy, row.deleted;
    }

    method ApplyEdit(newTitle: string, newBody: string, editor: string)
      modifies this
      ensures State() == Edited(old(State()), newTitle, newBody, editor)
      ensures title == newTitle && body == newBody && updatedBy == Some(editor) && version == old(version) + 1
      ensures status == old(status) && isVerified == old(isVerified) && deleted == old(deleted)
    {
      title, body, updatedBy, version := newTitle, newBody, Some(editor), version + 1;
    }

    method Publish()
      modifies this`status
      ensures State() == old(State()).(status := PUBLISHED)
    {
      status := PUBLISHED;
    }

    method SoftDelete()
      modifies this`deleted
      ensures State() == old(State()).(deleted := true)
    {
      deleted := true;
    }

    method SetAcceptedAnswer(id: Option<string>)
      modifies this`acceptedAnswerId
      ensures State() == old(State()).(acceptedAnswerId := id)
    {
      acceptedAnswerId := id;
    }

    /** Idempotent: only the call that flips the flag is attributed to its caller. */
    method MarkVerified(verifier: string) returns (changed: bool)
      modifies this
      ensures changed <==> Touched(old(State()), Verify(verifier)).Some?
      ensures State() == if changed then Touched(old(State()), Verify(verifier)).value else old(State())
      ensures changed <==> !old(isVerified)
      ensures isVerified && updatedBy == if changed then Some(verifier) else old(updatedBy)
    {
      if isVerified { return false; }
      isVerified, updatedBy := true, Some(verifier);
      changed := true;
    }
  }

  class Repository {
    var row: Option<Item>
    var revisions: map<int, Revision>

    constructor (row: Item)
      ensures this.row == Some(row) && revisions == map[]
    {
      this.row, revisions := Some(row), map[];
    }

    method UpdateWithOcc(item: KnowledgeItem, expectedVersion: int) returns (ok: bool)
      modifies this`row
      ensures ok <==> old(row).Some? && old(row).value.version == expectedVersion
      ensures row == if ok then Some(OccUpdate(old(row).value, item.State())) else old(row)
    {
      if row.None? || row.value.version != expectedVersion { return false; }
      row := Some(Item(item.title, item.body, item.status, item.isVerified, row.value.acceptedAnswerId, item.version,
                       item.updatedBy, item.deleted));
      ok := true;
    }

    method Update(item: KnowledgeItem)
      modifies this`row
      ensures row == if old(row).Some? then Some(PlainUpdate(old(row).value, item.State())) else None
    {
      if row.Some? {
        row := Some(row.value.(status := item.status, isVerified := item.isVerified,
                               acceptedAnswerId := item.acceptedAnswerId,
        updatedBy := item.updatedBy, deleted := item.deleted));
      }
    }

    /** The unique key on (item, version). */
    method SaveRevision(r: Revision) returns (ok: bool)
      modifies this`revisions
      ensures ok <==> r.version !in old(revisions)
      ensures revisions == if ok then old(revisions)[r.version := r] else old(revisions)
    {
      if r.version in revisions { return false; }
      revisions := revisions[r.version := r];
      ok := true;
    }

    /** The edit handler, `found` being what its lookup returned. A duplicate revision aborts
        the transaction, which takes the row update back with it. */
    method UpdateKnowledge(found: Option<Item>, e: Edit) returns (outcome: Outcome)
      requires row.Some?
      modifies this
      ensures found.None? ==> outcome == NotFound && row == old(row) && revisions == old(revisions)
      ensures found.Some? ==> row.Some? &&
                              (Store(row.value, revisions), outcome)
                              == CommitEdit(Store(old(row.value), old(revisions)), found.value, e)
    {
      if found.None? { return NotFound; }
      var item := new KnowledgeItem.Rehydrate(found.value);
      item.ApplyEdit(e.title, e.body, e.editor);
      var begun := row;
      var ok := UpdateWithOcc(item, e.expectedVersion);
      if !ok { return VersionConflict; }
      ok := SaveRevision(Revision(item.version, item.body, e.editor));
      if !ok {
        row := begun;
        return DuplicateRevision;
      }
      outcome := Done;
    }

    /** The handlers that write without a version check. Publishing what is no draft is an
        error, verifying what is verified is not; neither writes. */
    method TouchKnowledge(found: Option<Item>, c: Touch) returns (outcome: Outcome)
      requires row.Some?
      modifies this`row
      ensures row == Some(if found.None? then old(row).value
                          else CommitTouch(Store(old(row).value, revisions), found.value, c).row)
      ensures outcome == if found.None? then NotFound
                         else if Touched(found.value, c).Some? then Done
                         else if c.Publish? then NotADraft else AlreadyVerified
    {
      if found.None? { return NotFound; }
      var item := new KnowledgeItem.Rehydrate(found.value);
      match c {
        case Publish =>
          if item.status != DRAFT { return NotADraft; }
          item.Publish();
        case Verify(verifier) =>
          var changed := item.MarkVerified(verifier);
          if !changed { return AlreadyVerified; }
        case SoftDelete =>
          item.SoftDelete();
        case AcceptAnswer(id) =>
          item.SetAcceptedAnswer(Some(id));
        case ClearAcceptedAnswer =>
          item.SetAcceptedAnswer(None);
      }
      Update(item);
      outcome := Done;
    }
  }
}
