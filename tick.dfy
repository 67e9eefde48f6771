/** The backend's crawl state machine (runTick). Each call advances one job by
    exactly one step, chosen by the first test that holds, in this order:
    reject a finished job, build the graph, page the followers cursor, page the
    friends cursor, count the distinct neighbours, or (in one transaction)
    hydrate one pending child or switch the job to graph building. The store
    is a Store; the upstream API of the job's owner is a parameter. */
module Tick {
  import opened Strconv
  import opened Records
  import opened Firestore
  import opened Storage
  import opened Twitter
  import opened Gephi

  // ---------------------------------------------------------------------------
  // Phases

  /** The step runTick takes for a job. */
  datatype Phase = Finished | BuildGraph | PageFollowers | PageFriends | Count | Hydrate

  /** The branch of runTick that fires for the job: the first test that holds. */
  function PhaseOf(job: RootHandle): Phase {
    if job.node.done then Finished
    else if job.prepareGraph then BuildGraph
    else if job.followersCursor != 0 then PageFollowers
    else if job.friendsCursor != 0 then PageFriends
    else if job.remaining == -1 then Count
    else Hydrate
  }

  /** How far along its life a job is. */
  function Rank(p: Phase): nat {
    match p
    case PageFollowers => 0
    case PageFriends => 1
    case Count => 2
    case Hydrate => 3
    case BuildGraph => 4
    case Finished => 5
  }

  // ---------------------------------------------------------------------------
  // The specification of one tick

  /** What a tick returns to its caller, the caller's job record afterwards, and
      the store afterwards. */
  datatype Outcome = Outcome(result: Result<string>, job: RootHandle, state: DbState)

  /** The choices the store's queries make, which have no defined order: the
      order getDoneJobs returns the hydrated children in and the order the edge
      set is walked in (graph step), and the pending child the transaction
      picks, if any (hydration step). */
  datatype Picks =
    | NoPick
    | GraphOrder(doneKeys: seq<ChildKey>, edgeOrder: seq<string>)
    | ChildPick(child: Option<ChildKey>)

  /** The stored children under the given keys, in that order. */
  function DoneHandles(s: DbState, keys: seq<ChildKey>): (hs: seq<FetchedHandle>)
    requires forall k | k in keys :: k in s.children
    ensures |hs| == |keys|
    ensures forall i :: 0 <= i < |keys| ==> hs[i] == s.children[keys[i]]
  {
    seq(|keys|, i requires 0 <= i < |keys| => s.children[keys[i]])
  }

  /** The query for an unfinished child picks one when there is one. */
  ghost predicate ChildPicked(s: DbState, owner: string, root: string, c: Option<ChildKey>) {
    && (c.None? <==> PendingKeys(s, owner, root) == {})
    && (c.Some? ==> c.value in PendingKeys(s, owner, root))
  }

  /** The choices are ones the store could make for this job. */
  ghost predicate Admissible(s: DbState, loginID: string, job: RootHandle, p: Picks) {
    match PhaseOf(job)
    case BuildGraph =>
      && p.GraphOrder?
      && Enumerates(p.doneKeys, DoneKeys(s, job.loginID, job.node.twitterID))
      && (forall k | k in p.edgeOrder :: ' ' in k)
      && Enumerates(p.edgeOrder, EdgeSetOf(ValidIDs(job.node), ExportedNodes(job.node, DoneHandles(s, p.doneKeys))))
    case Hydrate =>
      && p.ChildPick?
      && (RootKeyOf(job) in s.roots ==> ChildPicked(s, loginID, s.roots[RootKeyOf(job)].node.twitterID, p.child))
    case _ => p == NoPick
  }

  /** Where the graph file of a job is stored. */
  function GraphPath(job: RootHandle): string {
    "graphs/" + job.loginID + "/" + job.node.twitterID
  }

  /** The Content-Disposition the graph file is given. */
  function Disposition(job: RootHandle): string {
    "Attachment; filename=" + job.node.screenName + ".gml"
  }

  /** The job once its graph is built: empty Status, flag cleared, node done. */
  function Built(job: RootHandle): RootHandle {
    job.(status := "", prepareGraph := false, node := job.node.(done := true))
  }

  /** Graph step: upload the GML file of the job and its hydrated children,
      set its disposition, then save the built job. */
  function GraphSpec(s: DbState, job: RootHandle, p: Picks): Outcome
    requires p.GraphOrder?
    requires forall k | k in p.doneKeys :: k in s.children
    requires forall k | k in p.edgeOrder :: ' ' in k
  {
    var content := GraphFile(job.node, DoneHandles(s, p.doneKeys), p.edgeOrder);
    Outcome(Ok("Graph built"), Built(job),
      s.(objects := s.objects[GraphPath(job) := StoredObject(content, Disposition(job))],
         roots := s.roots[RootKeyOf(Built(job)) := Built(job)]))
  }

  /** The cursor of the given list. */
  function Cursor(job: RootHandle, kind: ListKind): Int64 {
    if kind == Followers then job.followersCursor else job.friendsCursor
  }

  /** The job with the cursor of the given list replaced. */
  function WithCursor(job: RootHandle, kind: ListKind, c: Int64): RootHandle {
    if kind == Followers then job.(followersCursor := c) else job.(friendsCursor := c)
  }

  /** The relationship the children found on a list are tagged with. */
  function RelationshipOf(kind: ListKind): string {
    if kind == Followers then RelFollower else RelFriend
  }

  function PageMessage(kind: ListKind, n: nat): string {
    "Fetched " + FormatInt(n) + (if kind == Followers then " follower IDs" else " friend IDs")
  }

  /** The job after a page of the given list: IDs appended to the node, the
      cursor moved to the next page, the new Status. */
  function Paged(job: RootHandle, kind: ListKind, page: IDPage): RootHandle {
    var added := FormatAll(page.ids);
    WithCursor(job.(node := WithIDList(job.node, kind, IDList(job.node, kind) + added),
                    status := PageMessage(kind, |added|)),
               kind, page.nextCursor)
  }

  /** Paging step for one list: fetch the page at the list's cursor, append the
      IDs to the root node, move the cursor, create one child per ID, then save
      the job. */
  function PageSpec(s: DbState, api: Upstream, loginID: string, job: RootHandle, kind: ListKind): Outcome {
    match FetchIDs(api, job.node.twitterID, kind, Cursor(job, kind))
    case Err(e) => Outcome(Err(e), job, s)
    case Ok(page) =>
      var added := FormatAll(page.ids);
      Outcome(Ok(PageMessage(kind, |added|)), Paged(job, kind, page),
        s.(children := s.children + ChildMap(loginID, RelationshipOf(kind), job.node.twitterID, added),
           roots := s.roots[RootKeyOf(Paged(job, kind, page)) := Paged(job, kind, page)]))
  }

  function CountMessage(n: nat): string {
    "Enqueued " + FormatInt(n) + " handles"
  }

  /** Count step: Remaining becomes the number of distinct IDs the root lists. */
  function CountSpec(s: DbState, job: RootHandle): Outcome {
    var n := |ListedIDs(job.node)|;
    var counted := job.(status := CountMessage(n), remaining := n);
    Outcome(Ok(CountMessage(n)), counted, s.(roots := s.roots[RootKeyOf(counted) := counted]))
  }

  /** A hydrated child's own list is fetched only when its count passes this
      test (the test lets negative counts through). */
  predicate Expands(count: int) {
    count != 0 && count <= FanOutCeiling
  }

  /** The first page of one of a node's lists appended to it, or the error. */
  function AppendFirstPage(api: Upstream, node: GephiNode, kind: ListKind): Result<GephiNode> {
    match FetchIDs(api, node.twitterID, kind, -1)
    case Err(e) => Err(e)
    case Ok(page) => Ok(WithIDList(node, kind, IDList(node, kind) + FormatAll(page.ids)))
  }

  /** The inline expansion of a child being hydrated: its first friend page when
      the profile's friend count passes Expands, then its first follower page
      when the follower count does; a failing fetch fails the whole step. Lists
      whose count does not pass are left alone, and nothing else changes. */
  function ExpandChild(api: Upstream, node: GephiNode, u: TwitterUser): (r: Result<GephiNode>)
    ensures !Expands(u.friendsCount) && !Expands(u.followersCount) ==> r == Ok(node)
    ensures r.Ok? ==> r.value == node.(friendIDs := r.value.friendIDs, followerIDs := r.value.followerIDs)
    ensures r.Ok? && !Expands(u.friendsCount) ==> r.value.friendIDs == node.friendIDs
    ensures r.Ok? && !Expands(u.followersCount) ==> r.value.followerIDs == node.followerIDs
    ensures r.Ok? && Expands(u.friendsCount) ==>
      && FetchIDs(api, node.twitterID, Friends, -1).Ok?
      && r.value.friendIDs == node.friendIDs + FormatAll(FetchIDs(api, node.twitterID, Friends, -1).value.ids)
    ensures r.Ok? && Expands(u.followersCount) ==>
      && FetchIDs(api, node.twitterID, Followers, -1).Ok?
      && r.value.followerIDs == node.followerIDs + FormatAll(FetchIDs(api, node.twitterID, Followers, -1).value.ids)
  {
    var withFriends := if Expands(u.friendsCount) then AppendFirstPage(api, node, Friends) else Ok(node);
    match withFriends
    case Err(e) => Err(e)
    case Ok(n1) => if Expands(u.followersCount) then AppendFirstPage(api, n1, Followers) else Ok(n1)
  }

  /** The stored job once the transaction finds no pending child. */
  function Prepared(stored: RootHandle): RootHandle {
    stored.(prepareGraph := true, status := "Preparing graph", remaining := 0)
  }

  /** The stored job once a child is hydrated. */
  function Decremented(stored: RootHandle, msg: string): RootHandle {
    stored.(status := msg, remaining := stored.remaining - 1)
  }

  /** The hydration part of the transaction: look the child up, expand and
      hydrate it, and write it together with the decremented job. */
  function HydrateSpec(s: DbState, api: Upstream, loginID: string, job: RootHandle, stored: RootHandle, h: FetchedHandle): Outcome {
    match GetTwitterUser(api, h.node.twitterID)
    case Err(e) => Outcome(Err(e), job, s)
    case Ok(u) =>
      match ExpandChild(api, h.node, u)
      case Err(e) => Outcome(Err(e), job, s)
      case Ok(node) =>
        var hydrated := Hydrated(FetchedHandle(h.parentID, node), u);
        var msg := "Fetched " + hydrated.node.screenName;
        Outcome(Ok(msg), job,
          s.(children := s.children[ChildKeyOf(loginID, hydrated) := hydrated],
             roots := s.roots[RootKeyOf(Decremented(stored, msg)) := Decremented(stored, msg)]))
  }

  /** The transaction: reload the stored job; with no pending child, switch it
      to graph building; otherwise hydrate the picked child. Any failure
      aborts the transaction and writes nothing. The caller's record is never
      changed (the transaction works on the reloaded copy). */
  function TxSpec(s: DbState, api: Upstream, loginID: string, job: RootHandle, c: Option<ChildKey>): Outcome
    requires RootKeyOf(job) in s.roots && c.Some? ==> c.value in s.children
  {
    if RootKeyOf(job) !in s.roots then Outcome(Err(MissingDocument), job, s)
    else
      var stored := s.roots[RootKeyOf(job)];
      match c
      case None =>
        Outcome(Ok("Preparing graph"), job, s.(roots := s.roots[RootKeyOf(Prepared(stored)) := Prepared(stored)]))
      case Some(ck) => HydrateSpec(s, api, loginID, job, stored, s.children[ck])
  }

  /** One call of runTick. */
  ghost function TickSpec(s: DbState, api: Upstream, loginID: string, job: RootHandle, p: Picks): Outcome
    requires Admissible(s, loginID, job, p)
  {
    match PhaseOf(job)
    case Finished => Outcome(Err(AlreadyDone(job.node.twitterID)), job, s)
    case BuildGraph => GraphSpec(s, job, p)
    case PageFollowers => PageSpec(s, api, loginID, job, Followers)
    case PageFriends => PageSpec(s, api, loginID, job, Friends)
    case Count => CountSpec(s, job)
    case Hydrate => TxSpec(s, api, loginID, job, p.child)
  }

  // ---------------------------------------------------------------------------
  // The steps

  /** The graph branch of runTick: getDoneJobs, buildGephiFile, the upload and
      the attribute update, then saveRootHandle. */
  method GraphStep(db: Store, job: RootHandle) returns (r: Result<string>, job': RootHandle, ghost p: Picks)
    requires PhaseOf(job) == BuildGraph
    modifies db
    ensures Admissible(old(db.State()), job.loginID, job, p)
    ensures Outcome(r, job', db.State()) == GraphSpec(old(db.State()), job, p)
  {
    ghost var s0 := db.State();
    var fetchedHandles, keys := GetDoneJobs(db, job);
    var content, edgeOrder := BuildGephiFile(job.node, fetchedHandles);
    assert fetchedHandles == DoneHandles(s0, keys);
    p := GraphOrder(keys, edgeOrder);
    var path := "graphs/" + job.loginID + "/" + job.node.twitterID;
    UploadGraph(db, path, content, "Attachment; filename=" + job.node.screenName + ".gml");
    job' := job.(status := "", prepareGraph := false, node := job.node.(done := true));
    SaveRootHandle(db, job');
    r := Ok("Graph built");
  }

  /** The upload of a graph file (the writer's Write and Close) followed by the
      update of its Content-Disposition attribute. */
  method UploadGraph(db: Store, path: string, content: string, disposition: string)
    modifies db
    ensures db.State() == old(db.State()).(objects := old(db.objects)[path := StoredObject(content, disposition)])
  {
    db.Commit([PutObject(path, StoredObject(content, ""))]);
    db.Commit([SetDisposition(path, disposition)]);
  }

  /** The paging branches of runTick (addFollowersPage or addFriendsPage). */
  method PageStep(db: Store, api: Upstream, loginID: string, job: RootHandle, kind: ListKind)
    returns (r: Result<string>, job': RootHandle)
    modifies db
    ensures Outcome(r, job', db.State()) == PageSpec(old(db.State()), api, loginID, job, kind)
  {
    var page, node := AddPage(api, job.node, kind, Cursor(job, kind));
    if page.Err? {
      return Err(page.error), job;
    }
    var addedIDs := page.value.addedIDs;
    job' := job.(node := node);
    if kind == Followers {
      job' := job'.(followersCursor := page.value.nextCursor);
    } else {
      job' := job'.(friendsCursor := page.value.nextCursor);
    }
    NewFetchedHandles(db, loginID, RelationshipOf(kind), job'.node.twitterID, addedIDs);
    var msg := PageMessage(kind, |addedIDs|);
    job' := job'.(status := msg);
    SaveRootHandle(db, job');
    r := Ok(msg);
  }

  /** The counting branch of runTick: the distinct friend and follower IDs are
      gathered in a set, and Remaining becomes its size. */
  method CountStep(db: Store, job: RootHandle) returns (r: Result<string>, job': RootHandle)
    modifies db
    ensures Outcome(r, job', db.State()) == CountSpec(old(db.State()), job)
  {
    var n := CountUnique(job.node);
    var msg := "Enqueued " + FormatInt(n) + " handles";
    job' := job.(status := msg, remaining := n);
    SaveRootHandle(db, job');
    r := Ok(msg);
  }

  /** The unique map of the counting branch: friend IDs, then follower IDs,
      inserted into a set; its size is the number of distinct IDs listed. */
  method CountUnique(node: GephiNode) returns (n: nat)
    ensures n == |ListedIDs(node)|
  {
    var unique: set<string> := {};
    var friends := node.friendIDs;
    for i := 0 to |friends|
      invariant unique == set f | f in friends[..i]
    {
      SetOfSnoc(friends[..i], friends[i], friends[..i + 1]);
      unique := unique + {friends[i]};
    }
    assert friends[..|friends|] == friends;
    var followers := node.followerIDs;
    for i := 0 to |followers|
      invariant unique == (set f | f in friends) + (set f | f in followers[..i])
    {
      SetOfSnoc(followers[..i], followers[i], followers[..i + 1]);
      unique := unique + {followers[i]};
    }
    assert followers[..|followers|] == followers;
    n := |unique|;
  }

  /** The IDs of a list with one more entry at its end. */
  lemma SetOfSnoc(xs: seq<string>, x: string, ys: seq<string>)
    requires ys == xs + [x]
    ensures (set f | f in ys) == (set f | f in xs) + {x}
  {
  }

  /** The transaction branch of runTick. */
  method TxStep(db: Store, api: Upstream, loginID: string, job: RootHandle)
    returns (r: Result<string>, ghost c: Option<ChildKey>)
    modifies db
    ensures RootKeyOf(job) in old(db.roots) ==>
      ChildPicked(old(db.State()), loginID, old(db.roots)[RootKeyOf(job)].node.twitterID, c)
    ensures RootKeyOf(job) in old(db.roots) && c.Some? ==> c.value in old(db.children)
    ensures Outcome(r, job, db.State()) == TxSpec(old(db.State()), api, loginID, job, c)
  {
    var reloaded := GetRootHandleFromString(db, job.loginID, job.node.twitterID);
    if reloaded.Err? {
      return Err(reloaded.error), None;
    }
    var stored := reloaded.value;
    var fetchedHandle, key := GetUnfinishedFetchHandle(db, loginID, stored);
    if fetchedHandle.None? {
      var prepared := stored.(prepareGraph := true, status := "Preparing graph", remaining := 0);
      SaveRootHandle(db, prepared);
      return Ok("Preparing graph"), None;
    }
    c := Some(key);
    r := HydrateStep(db, api, loginID, job, stored, fetchedHandle.value);
  }

  /** The hydration part of the transaction: getTwitterUser, the inline
      expansion, hydrateHandle and the decrement, committed together. */
  method HydrateStep(db: Store, api: Upstream, loginID: string, job: RootHandle, stored: RootHandle, h: FetchedHandle)
    returns (r: Result<string>)
    modifies db
    ensures Outcome(r, job, db.State()) == HydrateSpec(old(db.State()), api, loginID, job, stored, h)
  {
    var twitterUser := GetTwitterUser(api, h.node.twitterID);
    if twitterUser.Err? {
      return Err(twitterUser.error);
    }
    var u := twitterUser.value;
    var expanded := ExpandStep(api, h.node, u);
    if expanded.Err? {
      return Err(expanded.error);
    }
    var hydrated := Hydrated(FetchedHandle(h.parentID, expanded.value), u);
    var msg := "Fetched " + hydrated.node.screenName;
    var updated := stored.(status := msg, remaining := stored.remaining - 1);
    ghost var s0 := db.State();
    var ops := [SetChild(loginID, hydrated), SetRoot(updated)];
    ApplyTwo(s0, ops[0], ops[1]);
    db.Commit(ops);
    assert db.State() == s0.(children := s0.children[ChildKeyOf(loginID, hydrated) := hydrated],
                             roots := s0.roots[RootKeyOf(updated) := updated]);
    r := Ok(msg);
  }

  /** The inline expansion of the transaction branch: addFriendsPage and then
      addFollowersPage at cursor -1 on the child, each only when the profile's
      count passes Expands. */
  method ExpandStep(api: Upstream, node: GephiNode, u: TwitterUser) returns (r: Result<GephiNode>)
    ensures r == ExpandChild(api, node, u)
  {
    var n := node;
    if u.friendsCount != 0 && u.friendsCount <= FanOutCeiling {
      var added;
      added, n := AddPage(api, n, Friends, -1);
      if added.Err? {
        return Err(added.error);
      }
    }
    if u.followersCount != 0 && u.followersCount <= FanOutCeiling {
      var added;
      added, n := AddPage(api, n, Followers, -1);
      if added.Err? {
        return Err(added.error);
      }
    }
    r := Ok(n);
  }

  /** runTick: one step of the job, by the first branch whose test holds. The
      caller's record is returned as the step left it. */
  method RunTick(db: Store, api: Upstream, loginID: string, job: RootHandle)
    returns (r: Result<string>, job': RootHandle, ghost p: Picks)
    modifies db
    ensures Admissible(old(db.State()), loginID, job, p)
    ensures Outcome(r, job', db.State()) == TickSpec(old(db.State()), api, loginID, job, p)
  {
    if job.node.done {
      return Err(AlreadyDone(job.node.twitterID)), job, NoPick;
    }
    if job.prepareGraph {
      r, job', p := GraphStep(db, job);
      return;
    }
    p := NoPick;
    if job.followersCursor != 0 {
      r, job' := PageStep(db, api, loginID, job, Followers);
      return;
    }
    if job.friendsCursor != 0 {
      r, job' := PageStep(db, api, loginID, job, Friends);
      return;
    }
    if job.remaining == -1 {
      r, job' := CountStep(db, job);
      return;
    }
    ghost var child;
    r, child := TxStep(db, api, loginID, job);
    job', p := job, ChildPick(child);
  }
}
