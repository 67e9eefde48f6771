/** The first version's state machine and worker endpoint: page the followers,
    page the friends, then hydrate children one per tick until none is left and
    mark the job done. Also its page links: the URL builders and when a
    download link is offered. */
module LegacyMain {
  import opened Strconv
  import opened Records
  import opened Twitter
  import opened Strings
  import opened LegacyStore
  import Tick
  import Driver

  // ---------------------------------------------------------------------------
  // The specification of one tick

  /** Where a job stands: the branch its next tick takes. */
  datatype LegacyPhase = Done | PageFollowers | PageFriends | Hydrate

  function LegacyPhaseOf(job: LegacyRoot): LegacyPhase {
    if job.node.done then Done
    else if job.followersCursor != 0 then PageFollowers
    else if job.friendsCursor != 0 then PageFriends
    else Hydrate
  }

  /** The order the phases follow. */
  function LegacyRank(p: LegacyPhase): nat {
    match p
    case PageFollowers => 0
    case PageFriends => 1
    case Hydrate => 2
    case Done => 3
  }

  /** What a tick returns, the caller's job record afterwards, and the store. */
  datatype LegacyOutcome = LegacyOutcome(result: Result<string>, job: LegacyRoot, state: LegacyState)

  function LegacyCursor(job: LegacyRoot, kind: ListKind): Int64 {
    if kind == Followers then job.followersCursor else job.friendsCursor
  }

  function LegacyWithCursor(job: LegacyRoot, kind: ListKind, c: Int64): LegacyRoot {
    if kind == Followers then job.(followersCursor := c) else job.(friendsCursor := c)
  }

  function LegacyPageMessage(kind: ListKind, n: nat): string {
    "Fetched " + FormatInt(n) + (if kind == Followers then " followers" else " friends")
  }

  /** The job after one page: the IDs appended to its list and the cursor
      replaced by the page's next cursor. */
  function LegacyPaged(job: LegacyRoot, kind: ListKind, page: IDPage): LegacyRoot {
    LegacyWithCursor(job.(node := WithIDList(job.node, kind, IDList(job.node, kind) + FormatAll(page.ids))),
                     kind, page.nextCursor)
  }

  /** A paging step: fetch the page at the cursor, write one child per ID
      (tagged with the list's relationship), save the job. */
  function LegacyPageSpec(s: LegacyState, api: Upstream, loginID: string, job: LegacyRoot, kind: ListKind): LegacyOutcome {
    match FetchIDs(api, job.node.twitterID, kind, LegacyCursor(job, kind))
    case Err(e) => LegacyOutcome(Err(e), job, s)
    case Ok(page) =>
      var job' := LegacyPaged(job, kind, page);
      var ids := FormatAll(page.ids);
      var s1 := s.(children := s.children + LegacyChildMap(loginID, Tick.RelationshipOf(kind), job.node.twitterID, ids));
      LegacyOutcome(Ok(LegacyPageMessage(kind, |ids|)), job', s1.(roots := s1.roots[RootKeyOf(job') := job']))
  }

  /** The child the query for unfinished children picks, if any; only the
      hydration step asks. */
  ghost predicate LegacyPicked(s: LegacyState, loginID: string, job: LegacyRoot, pick: Option<FetchedHandle>) {
    if LegacyPhaseOf(job) == Hydrate then
      && (pick.None? <==> UnfinishedChildren(s, loginID, job.node.twitterID) == {})
      && (pick.Some? ==> pick.value in UnfinishedChildren(s, loginID, job.node.twitterID))
    else pick.None?
  }

  /** The hydration step: with no unfinished child the job is marked done;
      otherwise the child's profile is read, its lists expanded and the child
      written back hydrated. */
  function LegacyHydrateSpec(s: LegacyState, api: Upstream, loginID: string, job: LegacyRoot, pick: Option<FetchedHandle>): LegacyOutcome {
    match pick
    case None =>
      var job' := job.(node := job.node.(done := true));
      LegacyOutcome(Ok("Marked Done"), job', s.(roots := s.roots[RootKeyOf(job') := job']))
    case Some(h) =>
      match GetTwitterUser(api, h.node.twitterID)
      case Err(e) => LegacyOutcome(Err(e), job, s)
      case Ok(u) =>
        match Tick.ExpandChild(api, h.node, u)
        case Err(e) => LegacyOutcome(Err(e), job, s)
        case Ok(node) =>
          LegacyOutcome(Ok("Hydrated " + h.node.twitterID), job,
                        s.(children := s.children[(loginID, h.node.twitterID) := Hydrated(h.(node := node), u)]))
  }

  /** One tick, by the first branch whose test holds. */
  function LegacyTickSpec(s: LegacyState, api: Upstream, loginID: string, job: LegacyRoot, pick: Option<FetchedHandle>): LegacyOutcome
    requires LegacyPicked(s, loginID, job, pick)
  {
    match LegacyPhaseOf(job)
    case Done => LegacyOutcome(Err(AlreadyDone(job.node.twitterID)), job, s)
    case PageFollowers => LegacyPageSpec(s, api, loginID, job, Followers)
    case PageFriends => LegacyPageSpec(s, api, loginID, job, Friends)
    case Hydrate => LegacyHydrateSpec(s, api, loginID, job, pick)
  }

  // ---------------------------------------------------------------------------
  // The tick

  method LegacyPageStep(db: Datastore, api: Upstream, loginID: string, job: LegacyRoot, kind: ListKind)
    returns (r: Result<string>, job': LegacyRoot)
    modifies db
    ensures LegacyOutcome(r, job', db.State()) == LegacyPageSpec(old(db.State()), api, loginID, job, kind)
  {
    var added, node := AddPage(api, job.node, kind, LegacyCursor(job, kind));
    if added.Err? {
      return Err(added.error), job;
    }
    job' := LegacyWithCursor(job.(node := node), kind, added.value.nextCursor);
    ghost var calls := NewFetchedHandles(db, loginID, Tick.RelationshipOf(kind), job.node.twitterID, added.value.addedIDs);
    SaveRootHandle(db, job');
    r := Ok(LegacyPageMessage(kind, |added.value.addedIDs|));
  }

  /** runTick of the first version. The caller's record is returned as the step
      left it. */
  method LegacyRunTick(db: Datastore, api: Upstream, loginID: string, job: LegacyRoot)
    returns (r: Result<string>, job': LegacyRoot, ghost pick: Option<FetchedHandle>)
    modifies db
    ensures LegacyPicked(old(db.State()), loginID, job, pick)
    ensures LegacyOutcome(r, job', db.State()) == LegacyTickSpec(old(db.State()), api, loginID, job, pick)
  {
    pick := None;
    if job.node.done {
      return Err(AlreadyDone(job.node.twitterID)), job, pick;
    }
    if job.followersCursor != 0 {
      r, job' := LegacyPageStep(db, api, loginID, job, Followers);
      return;
    }
    if job.friendsCursor != 0 {
      r, job' := LegacyPageStep(db, api, loginID, job, Friends);
      return;
    }
    var fetchedHandle := GetUnfinishedFetchHandle(db, loginID, job);
    pick := fetchedHandle;
    if fetchedHandle.None? {
      job' := job.(node := job.node.(done := true));
      SaveRootHandle(db, job');
      return Ok("Marked Done"), job', pick;
    }
    var h := fetchedHandle.value;
    job' := job;
    var twitterUser := GetTwitterUser(api, h.node.twitterID);
    if twitterUser.Err? {
      return Err(twitterUser.error), job', pick;
    }
    var node := Tick.ExpandStep(api, h.node, twitterUser.value);
    if node.Err? {
      return Err(node.error), job', pick;
    }
    var hydrated := HydrateHandle(db, loginID, twitterUser.value, h.(node := node.value));
    r := Ok("Hydrated " + h.node.twitterID);
  }

  // ---------------------------------------------------------------------------
  // Properties of a tick

  /** A failing tick writes nothing and leaves the caller's record alone; a done
      job is refused. */
  lemma LegacyFailsCleanly(s: LegacyState, api: Upstream, loginID: string, job: LegacyRoot, pick: Option<FetchedHandle>)
    requires LegacyPicked(s, loginID, job, pick)
    ensures var o := LegacyTickSpec(s, api, loginID, job, pick);
      o.result.Err? ==> o.job == job && o.state == s
    ensures job.node.done ==>
      LegacyTickSpec(s, api, loginID, job, pick) == LegacyOutcome(Err(AlreadyDone(job.node.twitterID)), job, s)
  {
  }

  /** Phases never go backward: a cursor once 0 stays 0, and a done job stays
      done. */
  lemma LegacyPhaseMonotone(s: LegacyState, api: Upstream, loginID: string, job: LegacyRoot, pick: Option<FetchedHandle>)
    requires LegacyPicked(s, loginID, job, pick)
    ensures var job' := LegacyTickSpec(s, api, loginID, job, pick).job;
      && LegacyRank(LegacyPhaseOf(job')) >= LegacyRank(LegacyPhaseOf(job))
      && (job.followersCursor == 0 ==> job'.followersCursor == 0)
      && (job.friendsCursor == 0 ==> job'.friendsCursor == 0)
  {
    match LegacyPhaseOf(job)
    case Done =>
    case PageFollowers =>
      match FetchIDs(api, job.node.twitterID, Followers, job.followersCursor) {
        case Err(_) =>
        case Ok(page) =>
          assert LegacyTickSpec(s, api, loginID, job, pick).job.friendsCursor == job.friendsCursor;
      }
    case PageFriends =>
      match FetchIDs(api, job.node.twitterID, Friends, job.friendsCursor) {
        case Err(_) =>
        case Ok(page) =>
          assert LegacyTickSpec(s, api, loginID, job, pick).job.followersCursor == 0;
      }
    case Hydrate =>
  }

  /** A paging step that succeeds: the cursor replaced by the next one, the
      other cursor kept, the IDs appended to the list, one child per ID tagged
      with the list's relationship, the job saved, and the count reported. */
  lemma LegacyPagingEffect(s: LegacyState, api: Upstream, loginID: string, job: LegacyRoot, kind: ListKind)
    requires LegacyPhaseOf(job) == (if kind == Followers then PageFollowers else PageFriends)
    requires FetchIDs(api, job.node.twitterID, kind, LegacyCursor(job, kind)).Ok?
    ensures var page := FetchIDs(api, job.node.twitterID, kind, LegacyCursor(job, kind)).value;
      var ids := FormatAll(page.ids);
      var o := LegacyTickSpec(s, api, loginID, job, None);
      && o.result == Ok(LegacyPageMessage(kind, |page.ids|))
      && LegacyCursor(o.job, kind) == page.nextCursor
      && LegacyCursor(o.job, if kind == Followers then Friends else Followers) == LegacyCursor(job, if kind == Followers then Friends else Followers)
      && IDList(o.job.node, kind) == IDList(job.node, kind) + ids
      && o.state.roots == s.roots[RootKeyOf(job) := o.job]
      && (forall id | id in ids :: (loginID, id) in o.state.children &&
            o.state.children[(loginID, id)] == Storage.BareChild(job.node.twitterID, Tick.RelationshipOf(kind), id))
      && (forall k | k in o.state.children && k !in s.children :: k.0 == loginID && k.1 in ids)
  {
    var page := FetchIDs(api, job.node.twitterID, kind, LegacyCursor(job, kind)).value;
    var ids := FormatAll(page.ids);
    var m := LegacyChildMap(loginID, Tick.RelationshipOf(kind), job.node.twitterID, ids);
    forall id | id in ids ensures (loginID, id) in m {
    }
  }

  /** With no unfinished child left the job is marked done and nothing else
      changes. */
  lemma LegacyMarksDone(s: LegacyState, api: Upstream, loginID: string, job: LegacyRoot)
    requires LegacyPhaseOf(job) == Hydrate
    requires UnfinishedChildren(s, loginID, job.node.twitterID) == {}
    ensures var o := LegacyTickSpec(s, api, loginID, job, None);
      && o.result == Ok("Marked Done")
      && o.job == job.(node := job.node.(done := true))
      && o.state == s.(roots := s.roots[RootKeyOf(job) := o.job])
  {
  }

  /** Otherwise one child is hydrated: the record at its key becomes the done,
      profiled child; no job record and no other child changes. */
  lemma LegacyHydratesOne(s: LegacyState, api: Upstream, loginID: string, job: LegacyRoot, h: FetchedHandle)
    requires LegacyPhaseOf(job) == Hydrate
    requires h in UnfinishedChildren(s, loginID, job.node.twitterID)
    ensures var o := LegacyTickSpec(s, api, loginID, job, Some(h));
      && o.job == job
      && o.state.roots == s.roots
      && (o.result.Ok? ==>
           && o.result.value == "Hydrated " + h.node.twitterID
           && (loginID, h.node.twitterID) in o.state.children
           && o.state.children[(loginID, h.node.twitterID)].node.done
           && o.state.children[(loginID, h.node.twitterID)].parentID == job.node.twitterID
           && |o.state.children[(loginID, h.node.twitterID)].node.description| <= MaxDescription
           && (forall k | k != (loginID, h.node.twitterID) ::
                 (k in o.state.children <==> k in s.children) &&
                 (k in s.children ==> o.state.children[k] == s.children[k])))
  {
  }

  // ---------------------------------------------------------------------------
  // The worker endpoint

  /** Whether a request that does not come from the scheduler may still tick: a
      signed-in administrator. */
  predicate MayForceTick(viewer: Option<string>, admins: set<string>) {
    viewer.Some? && viewer.value != "" && viewer.value in admins
  }

  /** The jobs a selection stands for; for every owner, found is the order the
      query returned the unfinished jobs in. */
  ghost predicate LegacySelected(s: LegacyState, sel: Driver.Selection, jobs: seq<LegacyRoot>, found: seq<LegacyRoot>) {
    match sel
    case OneJob(l, t) =>
      GetRootHandleFromString(s, l, t).Ok? && jobs == [GetRootHandleFromString(s, l, t).value]
    case OwnerJob(l) =>
      && (jobs == [] <==> UnfinishedRoots(s, l) == {})
      && (jobs != [] ==> |jobs| == 1 && jobs[0] in UnfinishedRoots(s, l))
    case EveryOwner =>
      && Enumerates(found, NotDoneRoots(s))
      && |jobs| == |PerOwner(found)|
      && (forall i, j :: 0 <= i < j < |jobs| ==> jobs[i].loginID != jobs[j].loginID)
      && (forall i :: 0 <= i < |jobs| ==> jobs[i].loginID in PerOwner(found) && jobs[i] == PerOwner(found)[jobs[i].loginID])
  }

  /** The line of one job and the store after it. */
  datatype LegacyStep = LegacyStep(line: string, state: LegacyState)

  ghost predicate LegacyJobAdmissible(s: LegacyState, clients: string -> Result<Upstream>, job: LegacyRoot, pick: Option<FetchedHandle>) {
    clients(job.loginID).Ok? ==> LegacyPicked(s, job.loginID, job, pick)
  }

  /** One job's turn: make its owner's client, run one tick and report; a
      failure is only reported, never saved. */
  function LegacyJobStep(s: LegacyState, clients: string -> Result<Upstream>, job: LegacyRoot, pick: Option<FetchedHandle>): LegacyStep
    requires LegacyJobAdmissible(s, clients, job, pick)
  {
    match clients(job.loginID)
    case Err(e) => LegacyStep(Driver.TwitterErrorLine(job.loginID, e), s)
    case Ok(api) =>
      var o := LegacyTickSpec(s, api, job.loginID, job, pick);
      match o.result
      case Ok(status) => LegacyStep(Driver.UpdatedLine(job.loginID, status), o.state)
      case Err(e) => LegacyStep(Driver.WorkerErrorLine(job.loginID, e), o.state)
  }

  datatype LegacyRun = LegacyRun(lines: seq<string>, state: LegacyState)

  ghost predicate LegacyAdmissibleRun(s: LegacyState, clients: string -> Result<Upstream>, jobs: seq<LegacyRoot>, picks: seq<Option<FetchedHandle>>)
    decreases |jobs|, 0
  {
    && |picks| == |jobs|
    && (jobs != [] ==>
         && LegacyAdmissibleRun(s, clients, jobs[..|jobs| - 1], picks[..|jobs| - 1])
         && LegacyJobAdmissible(LegacyRunJobs(s, clients, jobs[..|jobs| - 1], picks[..|jobs| - 1]).state,
                                clients, jobs[|jobs| - 1], picks[|jobs| - 1]))
  }

  ghost function LegacyRunJobs(s: LegacyState, clients: string -> Result<Upstream>, jobs: seq<LegacyRoot>, picks: seq<Option<FetchedHandle>>): LegacyRun
    requires LegacyAdmissibleRun(s, clients, jobs, picks)
    decreases |jobs|, 1
  {
    if jobs == [] then LegacyRun([], s)
    else
      var n := |jobs| - 1;
      var before := LegacyRunJobs(s, clients, jobs[..n], picks[..n]);
      var st := LegacyJobStep(before.state, clients, jobs[n], picks[n]);
      LegacyRun(before.lines + [st.line], st.state)
  }

  /** The test before the loop: nothing selected, or the first job done. */
  function LegacyDoneCheck(jobs: seq<LegacyRoot>): (c: Driver.Check)
    ensures c == Driver.UserDone <==> jobs == [] || jobs[0].node.done
    ensures c != Driver.NilDereference
  {
    if jobs == [] || jobs[0].node.done then Driver.UserDone else Driver.Proceed
  }

  /** What the handler does once it goes ahead. */
  ghost predicate LegacyHandled(s: LegacyState, clients: string -> Result<Upstream>, path: string,
                                jobs: seq<LegacyRoot>, found: seq<LegacyRoot>, picks: seq<Option<FetchedHandle>>,
                                resp: Driver.Response, s': LegacyState)
  {
    var sel := Driver.ParseWorkerPath(path);
    if sel.OneJob? && GetRootHandleFromString(s, sel.loginID, sel.twitterID).Err? then
      resp == Driver.Reply(500, Driver.WorkerErrorLine(sel.loginID, GetRootHandleFromString(s, sel.loginID, sel.twitterID).error) + "\n")
      && s' == s
    else
      && LegacySelected(s, sel, jobs, found)
      && if LegacyDoneCheck(jobs) == Driver.UserDone then resp == Driver.Reply(200, Driver.UserDoneMessage) && s' == s
         else
           && LegacyAdmissibleRun(s, clients, jobs, picks)
           && resp == Driver.Reply(200, Concat(LegacyRunJobs(s, clients, jobs, picks).lines))
           && s' == LegacyRunJobs(s, clients, jobs, picks).state
  }

  method LegacyAdvanceJob(db: Datastore, clients: string -> Result<Upstream>, job: LegacyRoot)
    returns (line: string, ghost pick: Option<FetchedHandle>)
    modifies db
    ensures LegacyJobAdmissible(old(db.State()), clients, job, pick)
    ensures LegacyStep(line, db.State()) == LegacyJobStep(old(db.State()), clients, job, pick)
  {
    var client := clients(job.loginID);
    if client.Err? {
      return Driver.TwitterErrorLine(job.loginID, client.error), None;
    }
    var status, job';
    status, job', pick := LegacyRunTick(db, client.value, job.loginID, job);
    if status.Err? {
      return Driver.WorkerErrorLine(job.loginID, status.error), pick;
    }
    line := Driver.UpdatedLine(job.loginID, status.value);
  }

  /** workerHandler of the first version: the scheduler ticks outside every
      tenth minute; an administrator may tick at any minute; anyone else is sent
      to the front page. */
  method LegacyWorkerHandler(db: Datastore, clients: string -> Result<Upstream>, isCron: bool,
                             viewer: Option<string>, admins: set<string>, minute: nat, path: string)
    returns (resp: Driver.Response, ghost jobs: seq<LegacyRoot>, ghost found: seq<LegacyRoot>, ghost picks: seq<Option<FetchedHandle>>)
    modifies db
    ensures !isCron && !MayForceTick(viewer, admins) ==> resp == Driver.Redirect("/") && db.State() == old(db.State())
    ensures isCron && minute % 10 == 0 ==> resp == Driver.Reply(200, Driver.SkipMessage) && db.State() == old(db.State())
    ensures (if isCron then minute % 10 != 0 else MayForceTick(viewer, admins)) ==>
      LegacyHandled(old(db.State()), clients, path, jobs, found, picks, resp, db.State())
  {
    jobs, found, picks := [], [], [];
    if !isCron {
      if !MayForceTick(viewer, admins) {
        return Driver.Redirect("/"), jobs, found, picks;
      }
    } else if minute % 10 == 0 {
      return Driver.Reply(200, Driver.SkipMessage), jobs, found, picks;
    }
    ghost var s0 := db.State();
    var sel := Driver.ParseWorkerPath(path);
    var rootHandles: seq<LegacyRoot>;
    match sel {
      case OneJob(l, t) =>
        var r := GetRootHandleFromString(db.State(), l, t);
        if r.Err? {
          return Driver.Reply(500, Driver.WorkerErrorLine(l, r.error) + "\n"), jobs, found, picks;
        }
        rootHandles := [r.value];
      case OwnerJob(l) =>
        var r := GetUnfinishedRootHandle(db, l);
        rootHandles := Driver.SelectOwner(r);
      case EveryOwner =>
        rootHandles, found := GetRootHandlePerUser(db);
    }
    jobs := rootHandles;
    assert LegacySelected(s0, sel, jobs, found);
    if LegacyDoneCheck(rootHandles) == Driver.UserDone {
      return Driver.Reply(200, Driver.UserDoneMessage), jobs, found, picks;
    }
    var lines;
    lines, picks := LegacyAdvanceAll(db, clients, rootHandles);
    resp := Driver.Reply(200, Concat(lines));
  }

  /** The loop over the selected jobs: one turn each, in order. */
  method LegacyAdvanceAll(db: Datastore, clients: string -> Result<Upstream>, jobs: seq<LegacyRoot>)
    returns (lines: seq<string>, ghost picks: seq<Option<FetchedHandle>>)
    modifies db
    ensures LegacyAdmissibleRun(old(db.State()), clients, jobs, picks)
    ensures LegacyRunJobs(old(db.State()), clients, jobs, picks) == LegacyRun(lines, db.State())
  {
    ghost var s0 := db.State();
    ghost var done: seq<LegacyRoot> := [];
    lines, picks := [], [];
    for i := 0 to |jobs|
      invariant done == jobs[..i]
      invariant LegacyAdmissibleRun(s0, clients, done, picks)
      invariant LegacyRunJobs(s0, clients, done, picks) == LegacyRun(lines, db.State())
    {
      var line;
      ghost var pick;
      line, pick := LegacyAdvanceNext(db, clients, s0, done, picks, lines, jobs[i]);
      done, lines, picks := done + [jobs[i]], lines + [line], picks + [pick];
    }
    assert done == jobs;
  }

  /** The turn of the next job of a run under way. */
  method LegacyAdvanceNext(db: Datastore, clients: string -> Result<Upstream>, ghost s0: LegacyState,
                           ghost done: seq<LegacyRoot>, ghost picks: seq<Option<FetchedHandle>>,
                           ghost lines: seq<string>, job: LegacyRoot)
    returns (line: string, ghost pick: Option<FetchedHandle>)
    requires LegacyAdmissibleRun(s0, clients, done, picks)
    requires LegacyRunJobs(s0, clients, done, picks) == LegacyRun(lines, db.State())
    modifies db
    ensures LegacyAdmissibleRun(s0, clients, done + [job], picks + [pick])
    ensures LegacyRunJobs(s0, clients, done + [job], picks + [pick]) == LegacyRun(lines + [line], db.State())
  {
    ghost var before := db.State();
    line, pick := LegacyAdvanceJob(db, clients, job);
    LegacyRunSnoc(s0, clients, done, picks, lines, before, job, pick, line, db.State());
  }

  /** A run one job longer: the shorter run, then that job's turn. */
  lemma LegacyRunSnoc(s: LegacyState, clients: string -> Result<Upstream>, jobs: seq<LegacyRoot>,
                      picks: seq<Option<FetchedHandle>>, lines: seq<string>, before: LegacyState,
                      job: LegacyRoot, pick: Option<FetchedHandle>, line: string, after: LegacyState)
    requires LegacyAdmissibleRun(s, clients, jobs, picks) && LegacyRunJobs(s, clients, jobs, picks) == LegacyRun(lines, before)
    requires LegacyJobAdmissible(before, clients, job, pick)
    requires LegacyStep(line, after) == LegacyJobStep(before, clients, job, pick)
    ensures LegacyAdmissibleRun(s, clients, jobs + [job], picks + [pick])
    ensures LegacyRunJobs(s, clients, jobs + [job], picks + [pick]) == LegacyRun(lines + [line], after)
  {
    assert (jobs + [job])[..|jobs|] == jobs;
    assert (picks + [pick])[..|jobs|] == picks;
  }

  /** Every turn yields one line naming its job's owner, whatever happens. */
  lemma LegacyJobStepReports(s: LegacyState, clients: string -> Result<Upstream>, job: LegacyRoot, pick: Option<FetchedHandle>)
    requires LegacyJobAdmissible(s, clients, job, pick)
    ensures Driver.ReportsOn(LegacyJobStep(s, clients, job, pick).line, job.loginID)
  {
    var l := job.loginID;
    match clients(l)
    case Err(e) =>
      Driver.PrefixOfConcat("twitter error: (" + l + ") ", ErrorText(e));
    case Ok(api) =>
      match LegacyTickSpec(s, api, l, job, pick).result
      case Ok(status) =>
        Driver.PrefixOfConcat("Updated " + l + ": ", status);
      case Err(e) =>
        Driver.PrefixOfConcat("worker error: (" + l + ") ", ErrorText(e));
  }

  /** A run answers with one line per job, naming the job's owner, in order. */
  lemma {:induction false} LegacyRunReportsEveryJob(s: LegacyState, clients: string -> Result<Upstream>,
                                                    jobs: seq<LegacyRoot>, picks: seq<Option<FetchedHandle>>)
    requires LegacyAdmissibleRun(s, clients, jobs, picks)
    ensures |LegacyRunJobs(s, clients, jobs, picks).lines| == |jobs|
    ensures forall i :: 0 <= i < |jobs| ==> Driver.ReportsOn(LegacyRunJobs(s, clients, jobs, picks).lines[i], jobs[i].loginID)
    decreases |jobs|
  {
    if jobs != [] {
      var n := |jobs| - 1;
      LegacyRunReportsEveryJob(s, clients, jobs[..n], picks[..n]);
      var before := LegacyRunJobs(s, clients, jobs[..n], picks[..n]);
      var st := LegacyJobStep(before.state, clients, jobs[n], picks[n]);
      LegacyJobStepReports(before.state, clients, jobs[n], picks[n]);
      var run := LegacyRunJobs(s, clients, jobs, picks);
      assert run.lines == before.lines + [st.line];
      forall i | 0 <= i < |jobs|
        ensures Driver.ReportsOn(run.lines[i], jobs[i].loginID)
      {
        if i < n {
          assert run.lines[i] == before.lines[i] && jobs[i] == jobs[..n][i];
        }
      }
    }
  }

  /** A job whose turn fails leaves the store as it was: the first version
      reports failures but does not save them. */
  lemma LegacyFailedTurnWritesNothing(s: LegacyState, clients: string -> Result<Upstream>, job: LegacyRoot, pick: Option<FetchedHandle>)
    requires LegacyJobAdmissible(s, clients, job, pick)
    requires !Driver.HasPrefix(LegacyJobStep(s, clients, job, pick).line, "Updated " + job.loginID + ": ")
    ensures LegacyJobStep(s, clients, job, pick).state == s
  {
    match clients(job.loginID)
    case Err(_) =>
    case Ok(api) =>
      LegacyFailsCleanly(s, api, job.loginID, job, pick);
      var o := LegacyTickSpec(s, api, job.loginID, job, pick);
      if o.result.Ok? {
        Driver.PrefixOfConcat("Updated " + job.loginID + ": ", o.result.value);
      }
  }

  // ---------------------------------------------------------------------------
  // Page links

  const StatusPrefix: string := "/status/"
  const DownloadPrefix: string := "/download/"
  const DeletePrefix: string := "/delete/"

  function MakeStatusURL(twitterID: string): string {
    StatusPrefix + twitterID
  }

  function MakeDownloadURL(twitterID: string): string {
    DownloadPrefix + twitterID
  }

  function MakeDebugTickURL(loginID: string, twitterID: string): string {
    Driver.WorkerPrefix + loginID + "/" + twitterID
  }

  function MakeDeleteURL(twitterID: string): string {
    DeletePrefix + twitterID
  }

  /** The status, download and delete pages read the ID back by removing their
      prefix, so every link names the job it was built for. */
  lemma URLRoundTrips(twitterID: string)
    ensures TrimPrefix(MakeStatusURL(twitterID), StatusPrefix) == twitterID
    ensures TrimPrefix(MakeDownloadURL(twitterID), DownloadPrefix) == twitterID
    ensures TrimPrefix(MakeDeleteURL(twitterID), DeletePrefix) == twitterID
  {
    TrimPrefixOfConcat(StatusPrefix, twitterID);
    TrimPrefixOfConcat(DownloadPrefix, twitterID);
    TrimPrefixOfConcat(DeletePrefix, twitterID);
  }

  /** The debug tick link selects exactly its job when neither ID holds a '/'. */
  lemma DebugTickURLSelectsJob(loginID: string, twitterID: string)
    requires '/' !in loginID && '/' !in twitterID
    ensures Driver.ParseWorkerPath(MakeDebugTickURL(loginID, twitterID)) == Driver.OneJob(loginID, twitterID)
  {
    Driver.WorkerPathOneJob(loginID, twitterID);
  }

  /** One entry of the job list on the front page. */
  datatype Handle = Handle(name: string, statusURL: string, downloadURL: string)

  /** The entry for a job: a download link only for an administrator or a done
      job, the empty string otherwise. */
  function IndexEntry(viewerIsAdmin: bool, r: LegacyRoot): (h: Handle)
    ensures h.name == r.node.screenName
    ensures h.downloadURL != "" <==> viewerIsAdmin || r.node.done
    ensures h.downloadURL != "" ==> TrimPrefix(h.downloadURL, DownloadPrefix) == r.node.twitterID
    ensures TrimPrefix(h.statusURL, StatusPrefix) == r.node.twitterID
  {
    URLRoundTrips(r.node.twitterID);
    Handle(r.node.screenName, MakeStatusURL(r.node.twitterID),
           if viewerIsAdmin || r.node.done then MakeDownloadURL(r.node.twitterID) else "")
  }

  /** The links of the status page of a job. */
  datatype StatusLinks = StatusLinks(twitterID: string, tickURL: string, downloadURL: string, deleteURL: string)

  /** The ID and the tick link only for an administrator, the download link for
      an administrator or a done job, the delete link always. */
  function StatusPageLinks(loginID: string, viewerIsAdmin: bool, r: LegacyRoot): (p: StatusLinks)
    ensures p.twitterID != "" ==> viewerIsAdmin
    ensures p.tickURL != "" <==> viewerIsAdmin
    ensures p.tickURL != "" && '/' !in loginID && '/' !in r.node.twitterID ==>
      Driver.ParseWorkerPath(p.tickURL) == Driver.OneJob(loginID, r.node.twitterID)
    ensures p.downloadURL != "" <==> viewerIsAdmin || r.node.done
    ensures TrimPrefix(p.deleteURL, DeletePrefix) == r.node.twitterID
  {
    URLRoundTrips(r.node.twitterID);
    assert '/' !in loginID && '/' !in r.node.twitterID ==>
      Driver.ParseWorkerPath(MakeDebugTickURL(loginID, r.node.twitterID)) == Driver.OneJob(loginID, r.node.twitterID) by {
      if '/' !in loginID && '/' !in r.node.twitterID {
        DebugTickURLSelectsJob(loginID, r.node.twitterID);
      }
    }
    StatusLinks(
      if viewerIsAdmin then r.node.twitterID else "",
      if viewerIsAdmin then MakeDebugTickURL(loginID, r.node.twitterID) else "",
      if viewerIsAdmin || r.node.done then MakeDownloadURL(r.node.twitterID) else "",
      MakeDeleteURL(r.node.twitterID))
  }
}
