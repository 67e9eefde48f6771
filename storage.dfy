/** The backend's store helpers: creating a job, creating its children in
    batches, hydrating a child, deleting a job with its children, the queries
    that find work, and the Status-only update. */
module Storage {
  import opened Records
  import opened Firestore

  /** Firestore accepts at most this many writes in one batch. */
  const MaxBatch: nat := 500

  /** The error a lookup of a document that does not exist fails with. */
  const MissingDocument: Error := NotFound("rpc error: code = NotFound")

  /** The error an update of a document that does not exist fails with. */
  const NoDocumentToUpdate: Error := NotFound("rpc error: code = NotFound desc = No document to update")

  /** Every commit in the sequence is non-empty and at most limit long. */
  predicate Batched(commits: seq<seq<Op>>, limit: nat) {
    forall i :: 0 <= i < |commits| ==> 0 < |commits[i]| <= limit
  }

  /** The commits made by a call: what the log gained. */
  ghost function NewCommits(before: seq<seq<Op>>, after: seq<seq<Op>>): seq<seq<Op>>
    requires |before| <= |after|
  {
    after[|before|..]
  }

  // ---------------------------------------------------------------------------
  // Queries

  /** getApplicationUser: the user, or None when no such document exists. */
  function GetApplicationUser(db: Store, userID: string): (r: Option<User>)
    reads db
    ensures r.Some? <==> userID in db.users
    ensures r.Some? ==> r.value == db.users[userID]
  {
    if userID in db.users then Some(db.users[userID]) else None
  }

  /** getRootHandleFromString: the job stored under the owner and root ID. */
  function GetRootHandleFromString(db: Store, userID: string, twitterID: string): (r: Result<RootHandle>)
    reads db
    ensures r.Ok? <==> (userID, twitterID) in db.roots
    ensures r.Ok? ==> r.value == db.roots[(userID, twitterID)]
    ensures r.Err? ==> r.error == MissingDocument
  {
    if (userID, twitterID) in db.roots then Ok(db.roots[(userID, twitterID)])
    else Err(MissingDocument)
  }

  /** The unfinished jobs stored under an owner. */
  function UnfinishedRoots(s: DbState, owner: string): set<RootHandle> {
    set k | k in s.roots && k.0 == owner && !s.roots[k].node.done :: s.roots[k]
  }

  /** The keys of the children of a job that are not hydrated yet. */
  function PendingKeys(s: DbState, owner: string, root: string): set<ChildKey> {
    set k | k in s.children && k.0 == owner && k.1 == root && !s.children[k].node.done
  }

  /** In a consistent store an unfinished job found under an owner belongs to
      that owner. */
  lemma UnfinishedRootOwner(s: DbState, owner: string, r: RootHandle)
    requires Consistent(s) && r in UnfinishedRoots(s, owner)
    ensures r.loginID == owner && !r.node.done
  {
    var k :| k in s.roots && k.0 == owner && !s.roots[k].node.done && s.roots[k] == r;
  }

  /** getUnfinishedRootHandle: some unfinished job of the owner (the query has no
      order), or None when the owner has none. */
  method GetUnfinishedRootHandle(db: Store, userID: string) returns (r: Option<RootHandle>)
    ensures r.None? <==> UnfinishedRoots(db.State(), userID) == {}
    ensures r.Some? ==> r.value in UnfinishedRoots(db.State(), userID)
  {
    var candidates := UnfinishedRoots(db.State(), userID);
    if candidates == {} {
      return None;
    }
    var h :| h in candidates;
    r := Some(h);
  }

  /** getRootHandlePerUser: walks the users in some order and keeps the
      unfinished job getUnfinishedRootHandle finds for each; users without one
      are skipped, so no owner appears twice. */
  method GetRootHandlePerUser(db: Store) returns (rootHandles: seq<RootHandle>, ghost owners: seq<string>)
    ensures |owners| == |rootHandles|
    ensures forall i, j :: 0 <= i < j < |owners| ==> owners[i] != owners[j]
    ensures forall i :: 0 <= i < |owners| ==>
      owners[i] in db.users && rootHandles[i] in UnfinishedRoots(db.State(), owners[i])
    ensures forall u | u in db.users && UnfinishedRoots(db.State(), u) != {} :: u in owners
    ensures forall i :: 0 <= i < |rootHandles| ==> !rootHandles[i].node.done
  {
    var rest := db.users.Keys;
    rootHandles := [];
    owners := [];
    while rest != {}
      invariant rest <= db.users.Keys
      invariant |owners| == |rootHandles|
      invariant forall i, j :: 0 <= i < j < |owners| ==> owners[i] != owners[j]
      invariant forall i :: 0 <= i < |owners| ==>
        owners[i] in db.users && owners[i] !in rest && rootHandles[i] in UnfinishedRoots(db.State(), owners[i])
      invariant forall u | u in db.users && u !in rest && UnfinishedRoots(db.State(), u) != {} :: u in owners
      invariant forall i :: 0 <= i < |rootHandles| ==> !rootHandles[i].node.done
      decreases |rest|
    {
      var userID :| userID in rest;
      rest := rest - {userID};
      var rootHandle := GetUnfinishedRootHandle(db, userID);
      if rootHandle.None? {
        continue;
      }
      rootHandles := rootHandles + [rootHandle.value];
      owners := owners + [userID];
    }
  }

  /** In a consistent store the jobs getRootHandlePerUser returns have pairwise
      different owners: at most one unfinished job per user. */
  lemma PerUserDistinctOwners(s: DbState, rootHandles: seq<RootHandle>, owners: seq<string>)
    requires Consistent(s)
    requires |owners| == |rootHandles|
    requires forall i, j :: 0 <= i < j < |owners| ==> owners[i] != owners[j]
    requires forall i :: 0 <= i < |owners| ==> rootHandles[i] in UnfinishedRoots(s, owners[i])
    ensures forall i, j :: 0 <= i < j < |rootHandles| ==> rootHandles[i].loginID != rootHandles[j].loginID
    ensures forall i :: 0 <= i < |rootHandles| ==> !rootHandles[i].node.done
  {
    forall i | 0 <= i < |rootHandles|
      ensures rootHandles[i].loginID == owners[i] && !rootHandles[i].node.done
    {
      UnfinishedRootOwner(s, owners[i], rootHandles[i]);
    }
  }

  /** getUnfinishedFetchHandle: some child of the job that is not hydrated yet,
      or None when there is none. */
  method GetUnfinishedFetchHandle(db: Store, userID: string, rootHandle: RootHandle)
    returns (h: Option<FetchedHandle>, ghost key: ChildKey)
    ensures h.None? <==> PendingKeys(db.State(), userID, rootHandle.node.twitterID) == {}
    ensures h.Some? ==>
      key in PendingKeys(db.State(), userID, rootHandle.node.twitterID) && db.children[key] == h.value
  {
    var candidates := PendingKeys(db.State(), userID, rootHandle.node.twitterID);
    if candidates == {} {
      return None, ("", "", "");
    }
    var k :| k in candidates;
    h, key := Some(db.children[k]), k;
  }

  /** getDoneJobs: every hydrated child of the job, each once, in some order. */
  method GetDoneJobs(db: Store, rootHandle: RootHandle)
    returns (fetchedHandles: seq<FetchedHandle>, ghost keys: seq<ChildKey>)
    ensures Enumerates(keys, DoneKeys(db.State(), rootHandle.loginID, rootHandle.node.twitterID))
    ensures |fetchedHandles| == |keys|
    ensures forall i :: 0 <= i < |keys| ==> keys[i] in db.children && fetchedHandles[i] == db.children[keys[i]]
  {
    var all := DoneKeys(db.State(), rootHandle.loginID, rootHandle.node.twitterID);
    var rest := all;
    fetchedHandles := [];
    keys := [];
    while rest != {}
      invariant rest <= all
      invariant |fetchedHandles| == |keys|
      invariant forall i, j :: 0 <= i < j < |keys| ==> keys[i] != keys[j]
      invariant forall x :: x in keys <==> x in all && x !in rest
      invariant forall i :: 0 <= i < |keys| ==> keys[i] in db.children && fetchedHandles[i] == db.children[keys[i]]
      decreases |rest|
    {
      var k :| k in rest;
      fetchedHandles := fetchedHandles + [db.children[k]];
      keys := keys + [k];
      rest := rest - {k};
    }
  }

  // ---------------------------------------------------------------------------
  // Writes

  /** updateRootHandleStatus: changes the Status of the stored job and nothing
      else; a job that is not stored is a NotFound error and nothing changes. */
  method UpdateRootHandleStatus(db: Store, msg: string, handle: RootHandle) returns (err: Option<Error>)
    modifies db
    ensures RootKeyOf(handle) in old(db.roots) ==>
      && err.None?
      && db.State() == old(db.State()).(roots := old(db.roots)[RootKeyOf(handle) := old(db.roots)[RootKeyOf(handle)].(status := msg)])
    ensures RootKeyOf(handle) !in old(db.roots) ==>
      err == Some(NoDocumentToUpdate) && db.State() == old(db.State())
    ensures RootKeyOf(handle) in old(db.roots) ==> db.log == old(db.log) + [[UpdateStatus(RootKeyOf(handle), msg)]]
    ensures RootKeyOf(handle) !in old(db.roots) ==> db.log == old(db.log)
  {
    var key := RootKeyOf(handle);
    if key !in db.roots {
      return Some(NoDocumentToUpdate);
    }
    db.Commit([UpdateStatus(key, msg)]);
    err := None;
  }

  /** saveRootHandle (and its in-transaction form): overwrites the job document
      named by the record's own owner and root ID. */
  method SaveRootHandle(db: Store, rootHandle: RootHandle)
    modifies db
    ensures db.State() == old(db.State()).(roots := old(db.roots)[RootKeyOf(rootHandle) := rootHandle])
    ensures db.log == old(db.log) + [[SetRoot(rootHandle)]]
  {
    db.Commit([SetRoot(rootHandle)]);
  }

  /** The record newRootHandle creates for a profile: both cursors at -1, nothing
      counted, not done, not preparing, the "Root" relationship and the first
      message, with the profile's name, counts, URLs and truncated description. */
  function InitialRoot(userID: string, user: TwitterUser): (r: RootHandle)
    ensures r.loginID == userID && r.node.twitterID == user.idStr
    ensures r.followersCursor == -1 && r.friendsCursor == -1 && r.remaining == -1
    ensures r.status == "Preparing to fetch" && !r.prepareGraph && !r.node.done
    ensures r.node.relationship == RelRoot && r.node.friendIDs == [] && r.node.followerIDs == []
    ensures r.node.screenName == user.screenName && r.node.profileURL == user.url
    ensures r.node.friendsCount == user.friendsCount && r.node.followersCount == user.followersCount
    ensures r.node.profileImageURL == user.profileImageURLHttps
    ensures r.node.description == TruncateDescription(user.description)
  {
    RootHandle(
      userID,
      GephiNode(user.idStr, user.screenName, RelRoot, user.friendsCount, user.followersCount,
                [], [], false, user.url, TruncateDescription(user.description), user.profileImageURLHttps),
      -1, -1, "Preparing to fetch", -1, false)
  }

  /** newRootHandle: creates the job document; fails without writing when a job
      for that owner and account already exists. */
  method NewRootHandle(db: Store, userID: string, user: TwitterUser) returns (err: Option<Error>)
    modifies db
    ensures (userID, user.idStr) in old(db.roots) ==>
      err.Some? && err.value.AlreadyExists? && db.State() == old(db.State()) && db.log == old(db.log)
    ensures (userID, user.idStr) !in old(db.roots) ==>
      && err.None?
      && db.State() == old(db.State()).(roots := old(db.roots)[(userID, user.idStr) := InitialRoot(userID, user)])
      && db.log == old(db.log) + [[SetRoot(InitialRoot(userID, user))]]
  {
    var rootHandle := InitialRoot(userID, user);
    if RootKeyOf(rootHandle) in db.roots {
      return Some(AlreadyExists("Document already exists"));
    }
    db.Commit([SetRoot(rootHandle)]);
    err := None;
  }

  /** The store as a sequence of batch commits since (s0, log0) left it. */
  ghost predicate CommittedSince(db: Store, s0: DbState, log0: seq<seq<Op>>, committed: seq<seq<Op>>)
    reads db
  {
    && db.log == log0 + committed
    && Batched(committed, MaxBatch)
    && db.State() == ApplyAll(s0, Flatten(committed))
  }

  /** WriteBatch.Commit: commits a non-empty batch of at most 500 writes. */
  method CommitBatch(db: Store, batch: seq<Op>, ghost s0: DbState, ghost log0: seq<seq<Op>>, ghost committed: seq<seq<Op>>)
    returns (ghost committed': seq<seq<Op>>)
    requires 0 < |batch| <= MaxBatch
    requires CommittedSince(db, s0, log0, committed)
    modifies db
    ensures committed' == committed + [batch]
    ensures CommittedSince(db, s0, log0, committed')
    ensures Flatten(committed') == Flatten(committed) + batch
  {
    ApplyAllAppend(s0, Flatten(committed), batch);
    FlattenAppend(committed, batch);
    db.Commit(batch);
    committed' := committed + [batch];
  }

  /** The record newFetchedHandles writes for one ID. */
  function BareChild(parentID: string, relationship: string, twitterID: string): (h: FetchedHandle)
    ensures h.parentID == parentID && h.node == BareNode(twitterID, relationship)
  {
    FetchedHandle(parentID, BareNode(twitterID, relationship))
  }

  /** The writes newFetchedHandles makes, one per ID in order. */
  function SetChildOps(userID: string, relationship: string, parentID: string, ids: seq<string>): (ops: seq<Op>)
    ensures |ops| == |ids|
    ensures forall i :: 0 <= i < |ids| ==> ops[i] == SetChild(userID, BareChild(parentID, relationship, ids[i]))
  {
    seq(|ids|, i requires 0 <= i < |ids| => SetChild(userID, BareChild(parentID, relationship, ids[i])))
  }

  /** The documents newFetchedHandles leaves behind: one per distinct ID, at the
      ID's key under the job. */
  function ChildMap(userID: string, relationship: string, parentID: string, ids: seq<string>): map<ChildKey, FetchedHandle> {
    map id | id in ids :: (userID, parentID, id) := BareChild(parentID, relationship, id)
  }

  /** The children newFetchedHandles leaves behind: exactly one per listed ID,
      under the job, naming the job as parent, with the given relationship and
      not hydrated. */
  lemma ChildMapFacts(userID: string, relationship: string, parentID: string, ids: seq<string>)
    ensures forall k | k in ChildMap(userID, relationship, parentID, ids) ::
      && k.0 == userID && k.1 == parentID && k.2 in ids
      && ChildMap(userID, relationship, parentID, ids)[k] == BareChild(parentID, relationship, k.2)
    ensures forall id | id in ids :: (userID, parentID, id) in ChildMap(userID, relationship, parentID, ids)
  {
    forall id | id in ids ensures (userID, parentID, id) in ChildMap(userID, relationship, parentID, ids) {
    }
  }

  lemma ChildMapSnoc(userID: string, relationship: string, parentID: string, ids: seq<string>)
    requires ids != []
    ensures ChildMap(userID, relationship, parentID, ids) ==
      ChildMap(userID, relationship, parentID, ids[..|ids| - 1])[(userID, parentID, ids[|ids| - 1]) := BareChild(parentID, relationship, ids[|ids| - 1])]
  {
    assert ids == ids[..|ids| - 1] + [ids[|ids| - 1]];
  }

  lemma UnionUpdate<K, V>(a: map<K, V>, b: map<K, V>, k: K, v: V)
    ensures (a + b)[k := v] == a + b[k := v]
  {
  }

  lemma {:induction false} ApplySetChildOps(s: DbState, userID: string, relationship: string, parentID: string, ids: seq<string>)
    ensures ApplyAll(s, SetChildOps(userID, relationship, parentID, ids)) ==
            s.(children := s.children + ChildMap(userID, relationship, parentID, ids))
    decreases |ids|
  {
    var ops := SetChildOps(userID, relationship, parentID, ids);
    if ids == [] {
      assert ChildMap(userID, relationship, parentID, ids) == map[];
      assert s.children + map[] == s.children;
    } else {
      var init := ids[..|ids| - 1];
      var last := ids[|ids| - 1];
      var child := BareChild(parentID, relationship, last);
      assert ops[..|ops| - 1] == SetChildOps(userID, relationship, parentID, init);
      ApplySetChildOps(s, userID, relationship, parentID, init);
      var initMap := ChildMap(userID, relationship, parentID, init);
      ChildMapSnoc(userID, relationship, parentID, ids);
      UnionUpdate(s.children, initMap, (userID, parentID, last), child);
    }
  }

  lemma SetChildOpsSnoc(userID: string, relationship: string, parentID: string, ids: seq<string>, i: nat)
    requires i < |ids|
    ensures SetChildOps(userID, relationship, parentID, ids[..i + 1]) ==
            SetChildOps(userID, relationship, parentID, ids[..i]) + [SetChild(userID, BareChild(parentID, relationship, ids[i]))]
  {
  }

  /** One write added to the open batch; a batch that reaches 500 writes is
      committed and a new one opened. */
  method AddToBatch(db: Store, batch: seq<Op>, numBatched: nat, op: Op,
                    ghost s0: DbState, ghost log0: seq<seq<Op>>, ghost committed: seq<seq<Op>>)
    returns (batch': seq<Op>, numBatched': nat, ghost committed': seq<seq<Op>>)
    requires numBatched == |batch| < MaxBatch
    requires CommittedSince(db, s0, log0, committed)
    modifies db
    ensures numBatched' == |batch'| < MaxBatch
    ensures CommittedSince(db, s0, log0, committed')
    ensures Flatten(committed') + batch' == Flatten(committed) + batch + [op]
  {
    batch' := batch + [op];
    numBatched' := numBatched + 1;
    committed' := committed;
    if numBatched' >= MaxBatch {
      committed' := CommitBatch(db, batch', s0, log0, committed);
      assert Flatten(committed') + [] == Flatten(committed') == Flatten(committed) + batch';
      batch' := [];
      numBatched' := 0;
    }
  }

  /** newFetchedHandles: one child document per ID, written in batches of at most
      500 in ID order; a final partial batch is committed only when non-empty.
      Nothing but the children changes. */
  method NewFetchedHandles(db: Store, userID: string, relationship: string, parentID: string, twitterIDs: seq<string>)
    modifies db
    ensures db.State() == old(db.State()).(children := old(db.children) + ChildMap(userID, relationship, parentID, twitterIDs))
    ensures |old(db.log)| <= |db.log|
    ensures Batched(NewCommits(old(db.log), db.log), MaxBatch)
    ensures Flatten(NewCommits(old(db.log), db.log)) == SetChildOps(userID, relationship, parentID, twitterIDs)
  {
    ghost var s0 := db.State();
    ghost var log0 := db.log;
    ghost var committed: seq<seq<Op>> := [];
    var batch: seq<Op> := [];
    var numBatched := 0;
    for i := 0 to |twitterIDs|
      invariant numBatched == |batch| < MaxBatch
      invariant CommittedSince(db, s0, log0, committed)
      invariant Flatten(committed) + batch == SetChildOps(userID, relationship, parentID, twitterIDs[..i])
    {
      var fetched := BareChild(parentID, relationship, twitterIDs[i]);
      SetChildOpsSnoc(userID, relationship, parentID, twitterIDs, i);
      batch, numBatched, committed := AddToBatch(db, batch, numBatched, SetChild(userID, fetched), s0, log0, committed);
    }
    assert twitterIDs[..|twitterIDs|] == twitterIDs;
    if numBatched > 0 {
      committed := CommitBatch(db, batch, s0, log0, committed);
    } else {
      assert Flatten(committed) + [] == Flatten(committed);
    }
    assert NewCommits(log0, db.log) == committed;
    ApplySetChildOps(s0, userID, relationship, parentID, twitterIDs);
  }

  /** The deletes of the given children, in order. */
  function DeleteChildOps(keys: seq<ChildKey>): (ops: seq<Op>)
    ensures |ops| == |keys|
    ensures forall i :: 0 <= i < |keys| ==> ops[i] == DeleteChild(keys[i])
  {
    seq(|keys|, i requires 0 <= i < |keys| => DeleteChild(keys[i]))
  }

  lemma {:induction false} ApplyDeleteChildOps(s: DbState, keys: seq<ChildKey>)
    ensures ApplyAll(s, DeleteChildOps(keys)) == s.(children := s.children - set k | k in keys)
    decreases |keys|
  {
    if keys == [] {
      assert (set k | k in keys) == {};
    } else {
      var init := keys[..|keys| - 1];
      assert DeleteChildOps(keys)[..|keys| - 1] == DeleteChildOps(init);
      ApplyDeleteChildOps(s, init);
      assert (set k | k in keys) == (set k | k in init) + {keys[|keys| - 1]};
    }
  }

  /** deleteRootHandle: deletes every child of the job in batches of at most 500
      (a final partial batch only when non-empty), then deletes the job document
      itself in a last, separate write. Nothing else changes. */
  method DeleteRootHandle(db: Store, rootHandle: RootHandle)
    modifies db
    ensures var k := RootKeyOf(rootHandle);
      db.State() == old(db.State()).(
        roots := old(db.roots) - {k},
        children := old(db.children) - ChildKeys(old(db.State()), k.0, k.1))
    ensures |old(db.log)| < |db.log|
    ensures db.log[|db.log| - 1] == [DeleteRoot(RootKeyOf(rootHandle))]
    ensures Batched(db.log[|old(db.log)|..|db.log| - 1], MaxBatch)
    ensures OnlyChildDeletes(db.log[|old(db.log)|..|db.log| - 1])
  {
    ghost var log0 := db.log;
    var rootRef := RootKeyOf(rootHandle);
    ghost var committed := DeleteChildren(db, ChildKeys(db.State(), rootRef.0, rootRef.1));
    db.Commit([DeleteRoot(rootRef)]);
    assert db.log[|log0|..|db.log| - 1] == committed;
  }

  /** The child loop of deleteRootHandle: walks the children in some order,
      committing a batch whenever 500 deletes have accumulated and the rest at
      the end. */
  method DeleteChildren(db: Store, all: set<ChildKey>) returns (ghost committed: seq<seq<Op>>)
    modifies db
    ensures db.State() == old(db.State()).(children := old(db.children) - all)
    ensures db.log == old(db.log) + committed
    ensures Batched(committed, MaxBatch)
    ensures OnlyChildDeletes(committed)
  {
    ghost var s0 := db.State();
    ghost var log0 := db.log;
    var rest := all;
    ghost var order: seq<ChildKey> := [];
    committed := [];
    var batch: seq<Op> := [];
    var numBatched := 0;
    while rest != {}
      invariant rest <= all
      invariant forall x :: x in order <==> x in all && x !in rest
      invariant numBatched == |batch| < MaxBatch
      invariant CommittedSince(db, s0, log0, committed)
      invariant Flatten(committed) + batch == DeleteChildOps(order)
      decreases |rest|
    {
      var fetchedDoc :| fetchedDoc in rest;
      batch, numBatched, order, committed := StageDelete(db, batch, numBatched, fetchedDoc, order, s0, log0, committed);
      rest := rest - {fetchedDoc};
    }
    if numBatched > 0 {
      committed := CommitBatch(db, batch, s0, log0, committed);
    } else {
      assert Flatten(committed) + [] == Flatten(committed);
    }
    DeletesApplied(s0, committed, order, all);
  }

  /** One iteration of the child loop of deleteRootHandle: queue the delete of
      one child and commit the batch once it holds 500 deletes. */
  method StageDelete(db: Store, batch: seq<Op>, numBatched: nat, k: ChildKey, ghost order: seq<ChildKey>,
                     ghost s0: DbState, ghost log0: seq<seq<Op>>, ghost committed: seq<seq<Op>>)
    returns (batch': seq<Op>, numBatched': nat, ghost order': seq<ChildKey>, ghost committed': seq<seq<Op>>)
    requires numBatched == |batch| < MaxBatch
    requires CommittedSince(db, s0, log0, committed)
    requires Flatten(committed) + batch == DeleteChildOps(order)
    modifies db
    ensures numBatched' == |batch'| < MaxBatch
    ensures order' == order + [k]
    ensures CommittedSince(db, s0, log0, committed')
    ensures Flatten(committed') + batch' == DeleteChildOps(order')
  {
    DeleteChildOpsSnoc(order, k);
    batch' := batch + [DeleteChild(k)];
    order' := order + [k];
    numBatched' := numBatched + 1;
    committed' := committed;
    if numBatched' >= MaxBatch {
      committed' := CommitBatch(db, batch', s0, log0, committed);
      batch' := [];
      numBatched' := 0;
    }
  }

  lemma DeleteChildOpsSnoc(order: seq<ChildKey>, k: ChildKey)
    ensures DeleteChildOps(order + [k]) == DeleteChildOps(order) + [DeleteChild(k)]
  {
  }

  lemma DeletesApplied(s0: DbState, committed: seq<seq<Op>>, order: seq<ChildKey>, all: set<ChildKey>)
    requires Flatten(committed) == DeleteChildOps(order)
    requires forall x :: x in order <==> x in all
    ensures ApplyAll(s0, Flatten(committed)) == s0.(children := s0.children - all)
    ensures OnlyChildDeletes(committed)
  {
    ApplyDeleteChildOps(s0, order);
    assert (set k | k in order) == all;
    FlattenOnlyDeletes(committed, order);
  }

  /** Every operation of every commit deletes a child. */
  predicate OnlyChildDeletes(commits: seq<seq<Op>>) {
    forall i, j :: 0 <= i < |commits| && 0 <= j < |commits[i]| ==> commits[i][j].DeleteChild?
  }

  lemma FlattenOnlyDeletes(committed: seq<seq<Op>>, order: seq<ChildKey>)
    requires Flatten(committed) == DeleteChildOps(order)
    ensures OnlyChildDeletes(committed)
  {
    forall i, j | 0 <= i < |committed| && 0 <= j < |committed[i]|
      ensures committed[i][j].DeleteChild?
    {
      FlattenContains(committed, i, committed[i][j]);
    }
  }

  lemma {:induction false} FlattenContains(committed: seq<seq<Op>>, i: nat, op: Op)
    requires i < |committed| && op in committed[i]
    ensures op in Flatten(committed)
    decreases |committed|
  {
    if i < |committed| - 1 {
      assert committed[..|committed| - 1][i] == committed[i];
      FlattenContains(committed[..|committed| - 1], i, op);
    }
  }
}
