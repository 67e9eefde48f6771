/** The store helpers of the first, Datastore-backed version of the service.
    Job records are keyed by owner and root ID; child records by owner and child
    ID alone, the parent being a field the queries filter on. Writes go through
    Put, PutMulti, Delete and DeleteMulti calls, recorded in order. */
module LegacyStore {
  import opened Strconv
  import opened Records
  import opened Twitter
  import Storage
  import Firestore

  /** Children are written at most this many per PutMulti call. */
  const PutChunk: nat := 50

  /** Keys are deleted at most this many per DeleteMulti call. */
  const DeleteChunk: nat := 500

  /** Child keys are listed at most this many per query page. */
  const KeyPage: nat := 1000

  /** The error a Get of an entity that does not exist fails with. */
  const NoSuchEntity: Error := NotFound("datastore: no such entity")

  /** A job of the first version: the root account and its two cursors; no
      status, count or output phase. */
  datatype LegacyRoot = LegacyRoot(loginID: string, node: GephiNode, followersCursor: Int64, friendsCursor: Int64)

  /** (owner login ID, root account ID) */
  type RootKey = (string, string)

  /** (owner login ID, child account ID) */
  type ChildKey = (string, string)

  /** The key a job record is saved under: its own owner and root ID. */
  function RootKeyOf(r: LegacyRoot): RootKey {
    (r.loginID, r.node.twitterID)
  }

  /** One entity write or delete. */
  datatype Write =
    | PutRoot(rootKey: RootKey, root: LegacyRoot)
    | PutChild(childKey: ChildKey, child: FetchedHandle)
    | DeleteRootKey(deletedRoot: RootKey)
    | DeleteChildKey(deletedChild: ChildKey)

  datatype LegacyState = LegacyState(roots: map<RootKey, LegacyRoot>, children: map<ChildKey, FetchedHandle>)

  function Apply(s: LegacyState, w: Write): LegacyState {
    match w
    case PutRoot(k, r) => s.(roots := s.roots[k := r])
    case PutChild(k, h) => s.(children := s.children[k := h])
    case DeleteRootKey(k) => s.(roots := s.roots - {k})
    case DeleteChildKey(k) => s.(children := s.children - {k})
  }

  /** The state after the writes, in order. */
  function ApplyAll(s: LegacyState, ws: seq<Write>): LegacyState {
    if ws == [] then s else Apply(ApplyAll(s, ws[..|ws| - 1]), ws[|ws| - 1])
  }

  lemma {:induction false} ApplyAllAppend(s: LegacyState, a: seq<Write>, b: seq<Write>)
    ensures ApplyAll(s, a + b) == ApplyAll(ApplyAll(s, a), b)
    decreases |b|
  {
    if b == [] {
      assert a + b == a;
    } else {
      assert (a + b)[..|a + b| - 1] == a + b[..|b| - 1];
      ApplyAllAppend(s, a, b[..|b| - 1]);
    }
  }

  /** Every call writes at least one and at most limit entities, and every call
      but the last exactly limit. */
  predicate Chunked(calls: seq<seq<Write>>, limit: nat) {
    && (forall i :: 0 <= i < |calls| ==> 0 < |calls[i]| <= limit)
    && (forall i :: 0 <= i < |calls| - 1 ==> |calls[i]| == limit)
  }

  /** The Datastore entities with the log of every call made so far. */
  class Datastore {
    var roots: map<RootKey, LegacyRoot>
    var children: map<ChildKey, FetchedHandle>
    ghost var log: seq<seq<Write>>

    function State(): LegacyState
      reads this
    {
      LegacyState(roots, children)
    }

    constructor (s: LegacyState)
      ensures State() == s && log == []
    {
      roots := s.roots;
      children := s.children;
      log := [];
    }

    /** One Put, PutMulti, Delete or DeleteMulti call. */
    method Call(ws: seq<Write>)
      modifies this
      ensures State() == ApplyAll(old(State()), ws)
      ensures log == old(log) + [ws]
    {
      var s := ApplyAll(State(), ws);
      roots := s.roots;
      children := s.children;
      log := log + [ws];
    }
  }

  // ---------------------------------------------------------------------------
  // Queries

  /** The records of the jobs that are not done, of every owner. */
  function NotDoneRoots(s: LegacyState): set<LegacyRoot> {
    set k | k in s.roots && !s.roots[k].node.done :: s.roots[k]
  }

  /** The records of an owner's jobs that are not done. */
  function UnfinishedRoots(s: LegacyState, owner: string): set<LegacyRoot> {
    set k | k in s.roots && k.0 == owner && !s.roots[k].node.done :: s.roots[k]
  }

  /** The records of an owner's children naming the parent that are not hydrated. */
  function UnfinishedChildren(s: LegacyState, owner: string, parentID: string): set<FetchedHandle> {
    set k | k in s.children && k.0 == owner && s.children[k].parentID == parentID && !s.children[k].node.done :: s.children[k]
  }

  /** The keys of an owner's children naming the parent. */
  function ChildKeysOf(s: LegacyState, owner: string, parentID: string): set<ChildKey> {
    set k | k in s.children && k.0 == owner && s.children[k].parentID == parentID
  }

  /** getRootHandleFromString: the ID text is parsed as a 64-bit integer, and the
      job is read under the integer's key. */
  function GetRootHandleFromString(s: LegacyState, userID: string, twitterIDString: string): Result<LegacyRoot> {
    match ParseID(twitterIDString)
    case Err(e) => Err(e)
    case Ok(id) =>
      if (userID, FormatInt(id)) in s.roots then Ok(s.roots[(userID, FormatInt(id))]) else Err(NoSuchEntity)
  }

  /** The ID text of a stored job reads that job back; text that is not a
      number fails with the parse error, and a missing job with NoSuchEntity. */
  lemma GetRootHandleByID(s: LegacyState, userID: string, id: Int64)
    ensures var r := GetRootHandleFromString(s, userID, FormatInt(id));
      && (r.Ok? <==> (userID, FormatInt(id)) in s.roots)
      && (r.Ok? ==> r.value == s.roots[(userID, FormatInt(id))])
      && (r.Err? ==> r.error == NoSuchEntity)
  {
    FormatParseRoundTrip(id);
  }

  lemma GetRootHandleBadID(s: LegacyState, userID: string, text: string)
    requires !ParseInt(text).Parsed?
    ensures GetRootHandleFromString(s, userID, text).Err?
    ensures GetRootHandleFromString(s, userID, text).error.NumError?
  {
  }

  /** The map getRootHandlePerUser fills from the query's records: each
      LoginID mapped to the last record carrying it. */
  function PerOwner(found: seq<LegacyRoot>): (m: map<string, LegacyRoot>)
    ensures m.Keys == set r | r in found :: r.loginID
    ensures forall l | l in m :: m[l] in found && m[l].loginID == l
  {
    if found == [] then map[]
    else
      var init := found[..|found| - 1];
      var last := found[|found| - 1];
      assert forall r | r in init :: r in found;
      assert found == init + [last];
      PerOwner(init)[last.loginID := last]
  }

  /** A record with no later record of the same owner is the one kept. */
  lemma {:induction false} PerOwnerKeepsLast(found: seq<LegacyRoot>, i: nat)
    requires i < |found|
    requires forall j :: i < j < |found| ==> found[j].loginID != found[i].loginID
    ensures PerOwner(found)[found[i].loginID] == found[i]
    decreases |found|
  {
    if i < |found| - 1 {
      var init := found[..|found| - 1];
      assert init[i] == found[i];
      forall j | i < j < |init| ensures init[j].loginID != init[i].loginID {
        assert init[j] == found[j];
      }
      PerOwnerKeepsLast(init, i);
    }
  }

  /** getRootHandlePerUser: every job that is not done, in the order the query
      returns them (found), folded into one record per LoginID with the last one
      winning, then listed in map order. */
  method GetRootHandlePerUser(db: Datastore) returns (flattened: seq<LegacyRoot>, ghost found: seq<LegacyRoot>)
    ensures Enumerates(found, NotDoneRoots(db.State()))
    ensures |flattened| == |PerOwner(found)|
    ensures forall i, j :: 0 <= i < j < |flattened| ==> flattened[i].loginID != flattened[j].loginID
    ensures forall i :: 0 <= i < |flattened| ==>
      flattened[i].loginID in PerOwner(found) && flattened[i] == PerOwner(found)[flattened[i].loginID]
    ensures forall r | r in NotDoneRoots(db.State()) :: PerOwner(found)[r.loginID] in flattened
  {
    var rootHandles := QueryNotDone(db);
    found := rootHandles;
    var m: map<string, LegacyRoot> := map[];
    for i := 0 to |rootHandles|
      invariant m == PerOwner(rootHandles[..i])
    {
      assert rootHandles[..i + 1][..i] == rootHandles[..i];
      m := m[rootHandles[i].loginID := rootHandles[i]];
    }
    assert rootHandles[..|rootHandles|] == rootHandles;
    flattened := Flattened(m);
    forall r | r in NotDoneRoots(db.State()) ensures r.loginID in m {
      assert r in found;
    }
  }

  /** The query for every job that is not done, drained in some order. */
  method QueryNotDone(db: Datastore) returns (rootHandles: seq<LegacyRoot>)
    ensures Enumerates(rootHandles, NotDoneRoots(db.State()))
  {
    var rest := NotDoneRoots(db.State());
    rootHandles := [];
    while rest != {}
      invariant rest <= NotDoneRoots(db.State())
      invariant forall i, j :: 0 <= i < j < |rootHandles| ==> rootHandles[i] != rootHandles[j]
      invariant forall x :: x in rootHandles <==> x in NotDoneRoots(db.State()) && x !in rest
      decreases |rest|
    {
      var h :| h in rest;
      rootHandles := rootHandles + [h];
      rest := rest - {h};
    }
  }

  /** The values of the per-owner map, in map order. */
  method Flattened(m: map<string, LegacyRoot>) returns (flattened: seq<LegacyRoot>)
    requires forall l | l in m :: m[l].loginID == l
    ensures |flattened| == |m|
    ensures forall i, j :: 0 <= i < j < |flattened| ==> flattened[i].loginID != flattened[j].loginID
    ensures forall i :: 0 <= i < |flattened| ==> flattened[i].loginID in m && flattened[i] == m[flattened[i].loginID]
    ensures forall l | l in m :: m[l] in flattened
  {
    var owners := m.Keys;
    flattened := [];
    while owners != {}
      invariant owners <= m.Keys
      invariant |flattened| + |owners| == |m|
      invariant forall i, j :: 0 <= i < j < |flattened| ==> flattened[i].loginID != flattened[j].loginID
      invariant forall i :: 0 <= i < |flattened| ==>
        flattened[i].loginID in m && flattened[i].loginID !in owners && flattened[i] == m[flattened[i].loginID]
      invariant forall l | l in m && l !in owners :: m[l] in flattened
      decreases |owners|
    {
      var l :| l in owners;
      flattened := flattened + [m[l]];
      owners := owners - {l};
    }
  }

  /** getUnfinishedRootHandle: a query limited to one record; no record is no
      work to do. */
  method GetUnfinishedRootHandle(db: Datastore, userID: string) returns (r: Option<LegacyRoot>)
    ensures r.None? <==> UnfinishedRoots(db.State(), userID) == {}
    ensures r.Some? ==> r.value in UnfinishedRoots(db.State(), userID)
  {
    var candidates := UnfinishedRoots(db.State(), userID);
    var results: seq<LegacyRoot> := [];
    if candidates != {} {
      var h :| h in candidates;
      results := [h];
    }
    if |results| != 1 {
      return None;
    }
    r := Some(results[0]);
  }

  /** getUnfinishedFetchHandle: the same for the children of a job. */
  method GetUnfinishedFetchHandle(db: Datastore, userID: string, rootHandle: LegacyRoot) returns (r: Option<FetchedHandle>)
    ensures r.None? <==> UnfinishedChildren(db.State(), userID, rootHandle.node.twitterID) == {}
    ensures r.Some? ==> r.value in UnfinishedChildren(db.State(), userID, rootHandle.node.twitterID)
  {
    var candidates := UnfinishedChildren(db.State(), userID, rootHandle.node.twitterID);
    var results: seq<FetchedHandle> := [];
    if candidates != {} {
      var h :| h in candidates;
      results := [h];
    }
    if |results| != 1 {
      return None;
    }
    r := Some(results[0]);
  }

  // ---------------------------------------------------------------------------
  // Writes

  /** The calls made since (s0, log0), each within the limit. */
  ghost predicate CalledSince(db: Datastore, s0: LegacyState, log0: seq<seq<Write>>, calls: seq<seq<Write>>, limit: nat)
    reads db
  {
    && db.log == log0 + calls
    && db.State() == ApplyAll(s0, Firestore.Flatten(calls))
    && (forall i :: 0 <= i < |calls| ==> 0 < |calls[i]| <= limit)
  }

  method CallChunk(db: Datastore, ws: seq<Write>, limit: nat, ghost s0: LegacyState, ghost log0: seq<seq<Write>>,
                   ghost calls: seq<seq<Write>>)
    returns (ghost calls': seq<seq<Write>>)
    requires 0 < |ws| <= limit
    requires CalledSince(db, s0, log0, calls, limit)
    modifies db
    ensures calls' == calls + [ws]
    ensures CalledSince(db, s0, log0, calls', limit)
    ensures Firestore.Flatten(calls') == Firestore.Flatten(calls) + ws
  {
    ApplyAllAppend(s0, Firestore.Flatten(calls), ws);
    Firestore.FlattenAppend(calls, ws);
    db.Call(ws);
    calls' := calls + [ws];
  }

  /** saveRootHandle: overwrites the job under its own key. */
  method SaveRootHandle(db: Datastore, rootHandle: LegacyRoot)
    modifies db
    ensures db.State() == old(db.State()).(roots := old(db.roots)[RootKeyOf(rootHandle) := rootHandle])
    ensures db.log == old(db.log) + [[PutRoot(RootKeyOf(rootHandle), rootHandle)]]
  {
    assert [PutRoot(RootKeyOf(rootHandle), rootHandle)][..0] == [];
    db.Call([PutRoot(RootKeyOf(rootHandle), rootHandle)]);
  }

  /** The writes newFetchedHandles makes, one per ID in order. */
  function ChildWrites(userID: string, relationship: string, parentID: string, ids: seq<string>): (ws: seq<Write>)
    ensures |ws| == |ids|
    ensures forall i :: 0 <= i < |ids| ==> ws[i] == PutChild((userID, ids[i]), Storage.BareChild(parentID, relationship, ids[i]))
  {
    seq(|ids|, i requires 0 <= i < |ids| => PutChild((userID, ids[i]), Storage.BareChild(parentID, relationship, ids[i])))
  }

  /** The children newFetchedHandles leaves behind: one per distinct ID, at the
      owner's key for the ID. */
  function LegacyChildMap(userID: string, relationship: string, parentID: string, ids: seq<string>): map<ChildKey, FetchedHandle> {
    map id | id in ids :: (userID, id) := Storage.BareChild(parentID, relationship, id)
  }

  lemma {:induction false} ApplyChildWrites(s: LegacyState, userID: string, relationship: string, parentID: string, ids: seq<string>)
    ensures ApplyAll(s, ChildWrites(userID, relationship, parentID, ids)) ==
            s.(children := s.children + LegacyChildMap(userID, relationship, parentID, ids))
    decreases |ids|
  {
    if ids == [] {
      assert LegacyChildMap(userID, relationship, parentID, ids) == map[];
      assert s.children + map[] == s.children;
    } else {
      var init := ids[..|ids| - 1];
      var last := ids[|ids| - 1];
      var ws := ChildWrites(userID, relationship, parentID, ids);
      assert ws[..|ws| - 1] == ChildWrites(userID, relationship, parentID, init);
      ApplyChildWrites(s, userID, relationship, parentID, init);
      LegacyChildMapSnoc(userID, relationship, parentID, ids);
      Storage.UnionUpdate(s.children, LegacyChildMap(userID, relationship, parentID, init),
                          (userID, last), Storage.BareChild(parentID, relationship, last));
    }
  }

  lemma LegacyChildMapSnoc(userID: string, relationship: string, parentID: string, ids: seq<string>)
    requires ids != []
    ensures LegacyChildMap(userID, relationship, parentID, ids) ==
      LegacyChildMap(userID, relationship, parentID, ids[..|ids| - 1])[(userID, ids[|ids| - 1]) := Storage.BareChild(parentID, relationship, ids[|ids| - 1])]
  {
    assert ids == ids[..|ids| - 1] + [ids[|ids| - 1]];
  }

  /** The writes of one PutMulti call. */
  function PutMulti(keys: seq<ChildKey>, hs: seq<FetchedHandle>): (ws: seq<Write>)
    requires |keys| == |hs|
    ensures |ws| == |keys|
    ensures forall i :: 0 <= i < |keys| ==> ws[i] == PutChild(keys[i], hs[i])
  {
    seq(|keys|, i requires 0 <= i < |keys| => PutChild(keys[i], hs[i]))
  }

  /** The writes still to send, split after the first n: the page sent now and
      the writes after it. */
  lemma PutMultiSplit(keys: seq<ChildKey>, hs: seq<FetchedHandle>, all: seq<Write>, pos: nat, n: nat)
    requires |keys| == |hs| && n <= |keys| && pos <= |all| && PutMulti(keys, hs) == all[pos..]
    ensures PutMulti(keys[..n], hs[..n]) == all[pos..pos + n]
    ensures PutMulti(keys[n..], hs[n..]) == all[pos + n..]
    ensures all[..pos + n] == all[..pos] + all[pos..pos + n]
  {
  }

  /** newFetchedHandles: one child per ID, written in ID order in PutMulti calls
      of at most 50 (every call but the last exactly 50). A repeated ID is
      written again at the same key, so the last write wins. */
  method NewFetchedHandles(db: Datastore, userID: string, relationship: string, parentID: string, twitterIDs: seq<string>)
    returns (ghost calls: seq<seq<Write>>)
    modifies db
    ensures db.State() == old(db.State()).(children := old(db.children) + LegacyChildMap(userID, relationship, parentID, twitterIDs))
    ensures db.log == old(db.log) + calls
    ensures Chunked(calls, PutChunk)
    ensures Firestore.Flatten(calls) == ChildWrites(userID, relationship, parentID, twitterIDs)
  {
    ghost var s0 := db.State();
    ghost var log0 := db.log;
    var keys: seq<ChildKey> := [];
    var fetched: seq<FetchedHandle> := [];
    for i := 0 to |twitterIDs|
      invariant |keys| == |fetched| == i
      invariant PutMulti(keys, fetched) == ChildWrites(userID, relationship, parentID, twitterIDs[..i])
    {
      fetched := fetched + [Storage.BareChild(parentID, relationship, twitterIDs[i])];
      keys := keys + [(userID, twitterIDs[i])];
    }
    assert twitterIDs[..|twitterIDs|] == twitterIDs;
    ghost var all := PutMulti(keys, fetched);
    ghost var pos := 0;
    calls := [];
    while |fetched| > 0
      invariant 0 <= pos <= |all| && |keys| == |fetched| == |all| - pos
      invariant PutMulti(keys, fetched) == all[pos..]
      invariant CalledSince(db, s0, log0, calls, PutChunk)
      invariant Firestore.Flatten(calls) == all[..pos]
      invariant forall i :: 0 <= i < |calls| - 1 ==> |calls[i]| == PutChunk
      invariant fetched != [] ==> forall i :: 0 <= i < |calls| ==> |calls[i]| == PutChunk
      decreases |fetched|
    {
      var fetchedPage, keysPage;
      PutMultiSplit(keys, fetched, all, pos, if |fetched| > PutChunk then PutChunk else |fetched|);
      if |fetched| > PutChunk {
        fetchedPage, keysPage := fetched[..PutChunk], keys[..PutChunk];
        fetched, keys := fetched[PutChunk..], keys[PutChunk..];
      } else {
        fetchedPage, keysPage := fetched, keys;
        fetched, keys := [], [];
      }
      calls := CallChunk(db, PutMulti(keysPage, fetchedPage), PutChunk, s0, log0, calls);
      pos := pos + |keysPage|;
    }
    assert all[..pos] == all;
    ApplyChildWrites(s0, userID, relationship, parentID, twitterIDs);
  }

  /** hydrateHandle: the child written back with its profile (done, counts,
      name, URLs, truncated description) at the owner's key for its ID. */
  method HydrateHandle(db: Datastore, userID: string, twitterUser: TwitterUser, fetchedHandle: FetchedHandle)
    returns (hydrated: FetchedHandle)
    modifies db
    ensures hydrated == Hydrated(fetchedHandle, twitterUser)
    ensures db.State() == old(db.State()).(children := old(db.children)[(userID, fetchedHandle.node.twitterID) := hydrated])
    ensures db.log == old(db.log) + [[PutChild((userID, fetchedHandle.node.twitterID), hydrated)]]
  {
    hydrated := Hydrated(fetchedHandle, twitterUser);
    assert [PutChild((userID, fetchedHandle.node.twitterID), hydrated)][..0] == [];
    db.Call([PutChild((userID, fetchedHandle.node.twitterID), hydrated)]);
  }

  /** The record newRootHandle writes for a profile: both cursors at -1, not
      done, the "Root" relationship, with the profile's name, counts, URLs and
      truncated description. */
  function LegacyInitialRoot(userID: string, user: TwitterUser): (r: LegacyRoot)
    ensures r.loginID == userID && r.node.twitterID == user.idStr
    ensures r.followersCursor == -1 && r.friendsCursor == -1 && !r.node.done
    ensures r.node.relationship == RelRoot && r.node.friendIDs == [] && r.node.followerIDs == []
    ensures r.node.screenName == user.screenName && r.node.profileURL == user.url
    ensures r.node.friendsCount == user.friendsCount && r.node.followersCount == user.followersCount
    ensures r.node.profileImageURL == user.profileImageURLHttps
    ensures r.node.description == TruncateDescription(user.description)
  {
    LegacyRoot(
      userID,
      GephiNode(user.idStr, user.screenName, RelRoot, user.friendsCount, user.followersCount,
                [], [], false, user.url, TruncateDescription(user.description), user.profileImageURLHttps),
      -1, -1)
  }

  /** newRootHandle: writes the job with a Put, replacing any job already stored
      for that owner and account. */
  method NewRootHandle(db: Datastore, userID: string, user: TwitterUser)
    modifies db
    ensures db.State() == old(db.State()).(roots := old(db.roots)[(userID, user.idStr) := LegacyInitialRoot(userID, user)])
    ensures db.log == old(db.log) + [[PutRoot((userID, user.idStr), LegacyInitialRoot(userID, user))]]
  {
    var rootHandle := LegacyInitialRoot(userID, user);
    assert [PutRoot((userID, user.idStr), rootHandle)][..0] == [];
    db.Call([PutRoot((userID, user.idStr), rootHandle)]);
  }

  /** The deletes of the given children, in order. */
  function DeleteWrites(keys: seq<ChildKey>): (ws: seq<Write>)
    ensures |ws| == |keys|
    ensures forall i :: 0 <= i < |keys| ==> ws[i] == DeleteChildKey(keys[i])
  {
    seq(|keys|, i requires 0 <= i < |keys| => DeleteChildKey(keys[i]))
  }

  lemma {:induction false} ApplyDeleteWrites(s: LegacyState, keys: seq<ChildKey>)
    ensures ApplyAll(s, DeleteWrites(keys)) == s.(children := s.children - set k | k in keys)
    decreases |keys|
  {
    if keys == [] {
      assert (set k | k in keys) == {};
    } else {
      var init := keys[..|keys| - 1];
      assert DeleteWrites(keys)[..|keys| - 1] == DeleteWrites(init);
      ApplyDeleteWrites(s, init);
      assert (set k | k in keys) == (set k | k in init) + {keys[|keys| - 1]};
    }
  }

  lemma KeyPageCount(pages: nat, last: nat)
    requires last < KeyPage
    ensures (KeyPage * pages + last) / KeyPage == pages
  {
  }

  /** The key query of deleteRootHandle: pages of at most 1000 keys, each page
      continuing where the last one ended, until a page comes back with fewer
      than 1000 (so an exact multiple of 1000 costs one empty page more). */
  method ListChildKeys(db: Datastore, owner: string, parentID: string) returns (keys: seq<ChildKey>, ghost pages: nat)
    ensures Enumerates(keys, ChildKeysOf(db.State(), owner, parentID))
    ensures pages == |ChildKeysOf(db.State(), owner, parentID)| / KeyPage + 1
  {
    var rest := ChildKeysOf(db.State(), owner, parentID);
    ghost var all := rest;
    keys := [];
    pages := 0;
    var more := true;
    while more
      invariant rest <= all && |keys| + |rest| == |all|
      invariant forall i, j :: 0 <= i < j < |keys| ==> keys[i] != keys[j]
      invariant forall x :: x in keys <==> x in all && x !in rest
      invariant more ==> |keys| == KeyPage * pages
      invariant !more ==> rest == {} && pages > 0 && KeyPage * (pages - 1) <= |keys| < KeyPage * pages
      decreases |rest|, more
    {
      var fetched := 0;
      while fetched < KeyPage && rest != {}
        invariant rest <= all && |keys| + |rest| == |all|
        invariant forall i, j :: 0 <= i < j < |keys| ==> keys[i] != keys[j]
        invariant forall x :: x in keys <==> x in all && x !in rest
        invariant fetched <= KeyPage && |keys| == KeyPage * pages + fetched
        decreases |rest|
      {
        var k :| k in rest;
        keys := keys + [k];
        rest := rest - {k};
        fetched := fetched + 1;
      }
      pages := pages + 1;
      if fetched < KeyPage {
        more := false;
      }
    }
    KeyPageCount(pages - 1, |keys| - KeyPage * (pages - 1));
  }

  /** The delete loop of deleteRootHandle: DeleteMulti calls of at most 500
      keys, in list order, every call but the last exactly 500. */
  method DeleteKeys(db: Datastore, keys: seq<ChildKey>) returns (ghost calls: seq<seq<Write>>)
    modifies db
    ensures db.State() == old(db.State()).(children := old(db.children) - set k | k in keys)
    ensures db.log == old(db.log) + calls
    ensures Chunked(calls, DeleteChunk)
    ensures Firestore.Flatten(calls) == DeleteWrites(keys)
  {
    ghost var s0 := db.State();
    ghost var log0 := db.log;
    ghost var all := DeleteWrites(keys);
    ghost var pos := 0;
    var fetchedKeys := keys;
    calls := [];
    while |fetchedKeys| > 0
      invariant 0 <= pos <= |keys| && fetchedKeys == keys[pos..]
      invariant CalledSince(db, s0, log0, calls, DeleteChunk)
      invariant Firestore.Flatten(calls) == all[..pos]
      invariant forall i :: 0 <= i < |calls| - 1 ==> |calls[i]| == DeleteChunk
      invariant fetchedKeys != [] ==> forall i :: 0 <= i < |calls| ==> |calls[i]| == DeleteChunk
      decreases |fetchedKeys|
    {
      var keysPage;
      if |fetchedKeys| > DeleteChunk {
        keysPage := fetchedKeys[..DeleteChunk];
        fetchedKeys := fetchedKeys[DeleteChunk..];
      } else {
        keysPage := fetchedKeys;
        fetchedKeys := [];
      }
      assert DeleteWrites(keysPage) == all[pos..pos + |keysPage|];
      assert all[..pos + |keysPage|] == all[..pos] + all[pos..pos + |keysPage|];
      calls := CallChunk(db, DeleteWrites(keysPage), DeleteChunk, s0, log0, calls);
      pos := pos + |keysPage|;
    }
    assert all[..pos] == all;
    ApplyDeleteWrites(s0, keys);
  }

  /** deleteRootHandle: lists the job's children, deletes them in calls of at
      most 500, and deletes the job itself in a last, separate call. Nothing
      else changes. */
  method DeleteRootHandle(db: Datastore, rootHandle: LegacyRoot) returns (ghost pages: nat)
    modifies db
    ensures var all := ChildKeysOf(old(db.State()), rootHandle.loginID, rootHandle.node.twitterID);
      && pages == |all| / KeyPage + 1
      && db.State() == LegacyState(old(db.roots) - {RootKeyOf(rootHandle)}, old(db.children) - all)
    ensures |old(db.log)| < |db.log|
    ensures db.log[|db.log| - 1] == [DeleteRootKey(RootKeyOf(rootHandle))]
    ensures Chunked(db.log[|old(db.log)|..|db.log| - 1], DeleteChunk)
    ensures forall w | w in Firestore.Flatten(db.log[|old(db.log)|..|db.log| - 1]) :: w.DeleteChildKey?
  {
    ghost var log0 := db.log;
    var fetchedKeys;
    fetchedKeys, pages := ListChildKeys(db, rootHandle.loginID, rootHandle.node.twitterID);
    assert (set k | k in fetchedKeys) == ChildKeysOf(db.State(), rootHandle.loginID, rootHandle.node.twitterID);
    ghost var calls := DeleteKeys(db, fetchedKeys);
    assert [DeleteRootKey(RootKeyOf(rootHandle))][..0] == [];
    db.Call([DeleteRootKey(RootKeyOf(rootHandle))]);
    assert db.log[|log0|..|db.log| - 1] == calls;
  }
}
