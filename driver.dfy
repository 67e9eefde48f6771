/** The worker endpoint: which jobs a request advances, one tick for each, and
    the text the response carries. The cron header and the minute of the clock
    are inputs; the user's Twitter client is a function of the login ID. */
module Driver {
  import opened Records
  import opened Firestore
  import opened Storage
  import opened Strings
  import opened Twitter
  import opened Tick
  import opened TickProps

  const WorkerPrefix: string := "/worker/"
  const SkipMessage: string := "Skipping tick"
  const UserDoneMessage: string := "User done"

  datatype Response = Redirect(location: string) | Reply(code: int, body: string)

  // ---------------------------------------------------------------------------
  // Which jobs a request names

  /** A path names one job, the unfinished job of one owner, or every owner's. */
  datatype Selection = OneJob(loginID: string, twitterID: string) | OwnerJob(loginID: string) | EveryOwner

  /** The path after the worker prefix, split at every '/': two pieces name a
      job, one non-empty piece an owner, anything else every owner. */
  function ParseWorkerPath(path: string): Selection {
    var args := Split(TrimPrefix(path, WorkerPrefix), '/');
    if |args| == 2 then OneJob(args[0], args[1])
    else if |args| == 1 && |args[0]| > 0 then OwnerJob(args[0])
    else EveryOwner
  }

  lemma WorkerPathOneJob(loginID: string, twitterID: string)
    requires '/' !in loginID && '/' !in twitterID
    ensures ParseWorkerPath(WorkerPrefix + loginID + "/" + twitterID) == OneJob(loginID, twitterID)
  {
    var rest := loginID + "/" + twitterID;
    assert WorkerPrefix + loginID + "/" + twitterID == WorkerPrefix + rest;
    TrimPrefixOfConcat(WorkerPrefix, rest);
    assert rest == loginID + ['/'] + twitterID;
    SplitLeadingPiece(loginID, '/', twitterID);
    SplitWithoutSeparator(twitterID, '/');
  }

  lemma WorkerPathOwner(loginID: string)
    requires '/' !in loginID && loginID != ""
    ensures ParseWorkerPath(WorkerPrefix + loginID) == OwnerJob(loginID)
  {
    TrimPrefixOfConcat(WorkerPrefix, loginID);
    SplitWithoutSeparator(loginID, '/');
  }

  lemma WorkerPathEveryOwner()
    ensures ParseWorkerPath(WorkerPrefix) == EveryOwner
  {
    assert WorkerPrefix == WorkerPrefix + "";
    TrimPrefixOfConcat(WorkerPrefix, "");
    SplitWithoutSeparator("", '/');
  }

  /** Three or more pieces fall through to every owner as well. */
  lemma WorkerPathManyPieces(a: string, b: string, c: string)
    requires '/' !in a && '/' !in b
    ensures ParseWorkerPath(WorkerPrefix + a + "/" + b + "/" + c) == EveryOwner
  {
    var rest := a + "/" + b + "/" + c;
    assert WorkerPrefix + a + "/" + b + "/" + c == WorkerPrefix + rest;
    TrimPrefixOfConcat(WorkerPrefix, rest);
    assert rest == a + ['/'] + (b + ['/'] + c);
    SplitLeadingPiece(a, '/', b + ['/'] + c);
    SplitLeadingPiece(b, '/', c);
  }

  /** The owner branch as corrected: a lookup that found nothing selects no job. */
  function SelectOwner<T>(found: Option<T>): (jobs: seq<T>)
    ensures found.None? <==> jobs == []
    ensures found.Some? ==> jobs == [found.value]
  {
    if found.None? then [] else [found.value]
  }

  /** Whether the request stops before any tick. */
  datatype Check = UserDone | Proceed | NilDereference

  /** The test before the loop: nothing selected, or the first job finished. */
  function DoneCheck(jobs: seq<RootHandle>): (c: Check)
    ensures c == UserDone <==> jobs == [] || jobs[0].node.done
    ensures c != NilDereference
  {
    if jobs == [] || jobs[0].node.done then UserDone else Proceed
  }

  /** The owner branch as written: the lookup's result is appended even when it
      is nil, and the test before the loop then reads a field through it. */
  function SelectOwnerAsWritten(found: Option<RootHandle>): (jobs: seq<Option<RootHandle>>)
    ensures jobs == [found]
  {
    [found]
  }

  function DoneCheckAsWritten(jobs: seq<Option<RootHandle>>): Check {
    if jobs == [] then UserDone
    else match jobs[0]
      case None => NilDereference
      case Some(j) => if j.node.done then UserDone else Proceed
  }

  /** An owner without an unfinished job makes the handler as written read
      through a nil job; the corrected selection answers "User done". */
  lemma OwnerWithoutJob()
    ensures DoneCheckAsWritten(SelectOwnerAsWritten(None)) == NilDereference
    ensures DoneCheck(SelectOwner<RootHandle>(None)) == UserDone
  {
  }

  /** On every lookup that found a job the correction changes nothing. */
  lemma SelectOwnerAgrees(found: Option<RootHandle>)
    requires found.Some?
    ensures DoneCheckAsWritten(SelectOwnerAsWritten(found)) == DoneCheck(SelectOwner(found))
  {
  }

  /** The jobs a selection stands for. For every owner, owners[i] is the owner
      of jobs[i]: one unfinished job per owner that has one. */
  ghost predicate Selected(s: DbState, sel: Selection, jobs: seq<RootHandle>, owners: seq<string>) {
    match sel
    case OneJob(l, t) => (l, t) in s.roots && jobs == [s.roots[(l, t)]]
    case OwnerJob(l) =>
      && (jobs == [] <==> UnfinishedRoots(s, l) == {})
      && (jobs != [] ==> |jobs| == 1 && jobs[0] in UnfinishedRoots(s, l))
    case EveryOwner =>
      && |owners| == |jobs|
      && (forall i, j :: 0 <= i < j < |owners| ==> owners[i] != owners[j])
      && (forall i :: 0 <= i < |owners| ==> owners[i] in s.users && jobs[i] in UnfinishedRoots(s, owners[i]))
      && (forall u | u in s.users && UnfinishedRoots(s, u) != {} :: u in owners)
  }

  // ---------------------------------------------------------------------------
  // Response lines

  function TwitterErrorLine(loginID: string, e: Error): string {
    "twitter error: (" + loginID + ") " + ErrorText(e)
  }

  function WorkerErrorLine(loginID: string, e: Error): string {
    "worker error: (" + loginID + ") " + ErrorText(e)
  }

  function UpdatedLine(loginID: string, status: string): string {
    "Updated " + loginID + ": " + status
  }

  /** The note added to an error line when saving it as the job's status
      failed, as corrected: nothing when the save succeeded. */
  function SaveNote(saveErr: Option<Error>): (note: string)
    ensures note == "" <==> saveErr.None?
    ensures saveErr.Some? ==> note == " and couldn't save: " + ErrorText(saveErr.value)
  {
    if saveErr.None? then "" else " and couldn't save: " + ErrorText(saveErr.value)
  }

  /** The note as written: the test looks at the tick's error, which is never nil
      there, so the note is always added and a successful save prints as <nil>. */
  function SaveNoteAsWritten(saveErr: Option<Error>): string {
    " and couldn't save: " + (if saveErr.None? then "<nil>" else ErrorText(saveErr.value))
  }

  /** Every successful save gets a spurious note as written; on a failed save the
      two agree. */
  lemma SaveNoteDiffers(saveErr: Option<Error>)
    ensures saveErr.None? ==> SaveNoteAsWritten(saveErr) == " and couldn't save: <nil>" != SaveNote(saveErr)
    ensures saveErr.Some? ==> SaveNoteAsWritten(saveErr) == SaveNote(saveErr)
  {
  }

  // ---------------------------------------------------------------------------
  // The specification of one job's turn and of a whole run

  /** The response line of one job and the store after it. */
  datatype Step = Step(line: string, state: DbState)

  /** A failure is saved as the job's status when the job is stored; otherwise
      the save fails and its error is noted on the line. */
  function Reported(s: DbState, job: RootHandle, msg: string): (st: Step)
    ensures RootKeyOf(job) in s.roots ==>
      st.line == msg && RootKeyOf(job) in st.state.roots && st.state.roots[RootKeyOf(job)].status == msg
    ensures RootKeyOf(job) !in s.roots ==>
      st.line == msg + " and couldn't save: " + ErrorText(NoDocumentToUpdate) && st.state == s
  {
    var key := RootKeyOf(job);
    if key in s.roots then Step(msg + SaveNote(None), s.(roots := s.roots[key := s.roots[key].(status := msg)]))
    else Step(msg + SaveNote(Some(NoDocumentToUpdate)), s)
  }

  /** The store's choices are admissible for a job whose client could be made. */
  ghost predicate JobAdmissible(s: DbState, clients: string -> Result<Upstream>, job: RootHandle, p: Picks) {
    clients(job.loginID).Ok? ==> Admissible(s, job.loginID, job, p)
  }

  /** One job's turn: make its owner's client, run one tick, and report. */
  ghost function JobStep(s: DbState, clients: string -> Result<Upstream>, job: RootHandle, p: Picks): Step
    requires JobAdmissible(s, clients, job, p)
  {
    match clients(job.loginID)
    case Err(e) => Reported(s, job, TwitterErrorLine(job.loginID, e))
    case Ok(api) =>
      var o := TickSpec(s, api, job.loginID, job, p);
      match o.result
      case Ok(status) => Step(UpdatedLine(job.loginID, status), o.state)
      case Err(e) => Reported(o.state, o.job, WorkerErrorLine(job.loginID, e))
  }

  /** The lines of a run and the store after it. */
  datatype Run = Run(lines: seq<string>, state: DbState)

  ghost predicate AdmissibleRun(s: DbState, clients: string -> Result<Upstream>, jobs: seq<RootHandle>, picks: seq<Picks>)
    decreases |jobs|, 0
  {
    && |picks| == |jobs|
    && (jobs != [] ==>
         && AdmissibleRun(s, clients, jobs[..|jobs| - 1], picks[..|jobs| - 1])
         && JobAdmissible(RunJobs(s, clients, jobs[..|jobs| - 1], picks[..|jobs| - 1]).state,
                          clients, jobs[|jobs| - 1], picks[|jobs| - 1]))
  }

  /** The jobs' turns in order, each on the store the previous one left. */
  ghost function RunJobs(s: DbState, clients: string -> Result<Upstream>, jobs: seq<RootHandle>, picks: seq<Picks>): Run
    requires AdmissibleRun(s, clients, jobs, picks)
    decreases |jobs|, 1
  {
    if jobs == [] then Run([], s)
    else
      var n := |jobs| - 1;
      var before := RunJobs(s, clients, jobs[..n], picks[..n]);
      var st := JobStep(before.state, clients, jobs[n], picks[n]);
      Run(before.lines + [st.line], st.state)
  }

  /** What the handler does when the request comes from the scheduler outside
      the skipped minutes. */
  ghost predicate Handled(s: DbState, clients: string -> Result<Upstream>, path: string,
                          jobs: seq<RootHandle>, owners: seq<string>, picks: seq<Picks>,
                          resp: Response, s': DbState)
  {
    var sel := ParseWorkerPath(path);
    if sel.OneJob? && (sel.loginID, sel.twitterID) !in s.roots then
      resp == Reply(500, WorkerErrorLine(sel.loginID, MissingDocument) + "\n") && s' == s
    else
      && Selected(s, sel, jobs, owners)
      && if DoneCheck(jobs) == UserDone then resp == Reply(200, UserDoneMessage) && s' == s
         else
           && AdmissibleRun(s, clients, jobs, picks)
           && resp == Reply(200, Concat(RunJobs(s, clients, jobs, picks).lines))
           && s' == RunJobs(s, clients, jobs, picks).state
  }

  // ---------------------------------------------------------------------------
  // The handler

  /** One job's turn against the store. */
  method AdvanceJob(db: Store, clients: string -> Result<Upstream>, job: RootHandle)
    returns (line: string, ghost p: Picks)
    modifies db
    ensures JobAdmissible(old(db.State()), clients, job, p)
    ensures Step(line, db.State()) == JobStep(old(db.State()), clients, job, p)
  {
    var client := clients(job.loginID);
    if client.Err? {
      line := TwitterErrorLine(job.loginID, client.error);
      var saveErr := UpdateRootHandleStatus(db, line, job);
      line := line + SaveNote(saveErr);
      p := NoPick;
      return;
    }
    var status, job';
    status, job', p := RunTick(db, client.value, job.loginID, job);
    if status.Err? {
      line := WorkerErrorLine(job.loginID, status.error);
      var saveErr := UpdateRootHandleStatus(db, line, job');
      line := line + SaveNote(saveErr);
      return;
    }
    line := UpdatedLine(job.loginID, status.value);
  }

  /** workerHandler: only the scheduler may call it, and it skips every tenth
      minute; otherwise it advances the jobs the path selects. */
  method WorkerHandler(db: Store, clients: string -> Result<Upstream>, isCron: bool, minute: nat, path: string)
    returns (resp: Response, ghost jobs: seq<RootHandle>, ghost owners: seq<string>, ghost picks: seq<Picks>)
    modifies db
    ensures !isCron ==> resp == Redirect("/") && db.State() == old(db.State())
    ensures isCron && minute % 10 == 0 ==> resp == Reply(200, SkipMessage) && db.State() == old(db.State())
    ensures isCron && minute % 10 != 0 ==>
      Handled(old(db.State()), clients, path, jobs, owners, picks, resp, db.State())
  {
    jobs, owners, picks := [], [], [];
    if !isCron {
      return Redirect("/"), jobs, owners, picks;
    }
    if minute % 10 == 0 {
      return Reply(200, SkipMessage), jobs, owners, picks;
    }
    ghost var s0 := db.State();
    var sel := ParseWorkerPath(path);
    var rootHandles: seq<RootHandle>;
    match sel {
      case OneJob(l, t) =>
        var found := GetRootHandleFromString(db, l, t);
        if found.Err? {
          return Reply(500, WorkerErrorLine(l, found.error) + "\n"), jobs, owners, picks;
        }
        rootHandles := [found.value];
      case OwnerJob(l) =>
        var found := GetUnfinishedRootHandle(db, l);
        rootHandles := SelectOwner(found);
      case EveryOwner =>
        rootHandles, owners := GetRootHandlePerUser(db);
    }
    jobs := rootHandles;
    assert Selected(s0, sel, jobs, owners);
    if DoneCheck(rootHandles) == UserDone {
      return Reply(200, UserDoneMessage), jobs, owners, picks;
    }
    var lines;
    lines, picks := AdvanceAll(db, clients, rootHandles);
    resp := Reply(200, Concat(lines));
  }

  /** The loop over the selected jobs: one turn each, in order. */
  method AdvanceAll(db: Store, clients: string -> Result<Upstream>, jobs: seq<RootHandle>)
    returns (lines: seq<string>, ghost picks: seq<Picks>)
    modifies db
    ensures AdmissibleRun(old(db.State()), clients, jobs, picks)
    ensures RunJobs(old(db.State()), clients, jobs, picks) == Run(lines, db.State())
  {
    ghost var s0 := db.State();
    ghost var done: seq<RootHandle> := [];
    lines, picks := [], [];
    for i := 0 to |jobs|
      invariant done == jobs[..i]
      invariant AdmissibleRun(s0, clients, done, picks)
      invariant RunJobs(s0, clients, done, picks) == Run(lines, db.State())
    {
      var line;
      ghost var p;
      line, p := AdvanceNext(db, clients, s0, done, picks, lines, jobs[i]);
      done, lines, picks := done + [jobs[i]], lines + [line], picks + [p];
    }
    assert done == jobs;
  }

  /** The turn of the next job of a run under way. */
  method AdvanceNext(db: Store, clients: string -> Result<Upstream>, ghost s0: DbState, ghost done: seq<RootHandle>,
                     ghost picks: seq<Picks>, ghost lines: seq<string>, job: RootHandle)
    returns (line: string, ghost p: Picks)
    requires AdmissibleRun(s0, clients, done, picks) && RunJobs(s0, clients, done, picks) == Run(lines, db.State())
    modifies db
    ensures AdmissibleRun(s0, clients, done + [job], picks + [p])
    ensures RunJobs(s0, clients, done + [job], picks + [p]) == Run(lines + [line], db.State())
  {
    ghost var before := db.State();
    line, p := AdvanceJob(db, clients, job);
    RunSnoc(s0, clients, done, picks, lines, before, job, p, line, db.State());
  }

  /** A run one job longer: the shorter run, then that job's turn. */
  lemma RunSnoc(s: DbState, clients: string -> Result<Upstream>, jobs: seq<RootHandle>, picks: seq<Picks>,
                lines: seq<string>, before: DbState, job: RootHandle, p: Picks, line: string, after: DbState)
    requires AdmissibleRun(s, clients, jobs, picks) && RunJobs(s, clients, jobs, picks) == Run(lines, before)
    requires JobAdmissible(before, clients, job, p) && Step(line, after) == JobStep(before, clients, job, p)
    ensures AdmissibleRun(s, clients, jobs + [job], picks + [p])
    ensures RunJobs(s, clients, jobs + [job], picks + [p]) == Run(lines + [line], after)
  {
    assert (jobs + [job])[..|jobs|] == jobs;
    assert (picks + [p])[..|jobs|] == picks;
  }

  // ---------------------------------------------------------------------------
  // Properties of a run

  predicate HasPrefix(s: string, p: string) {
    |p| <= |s| && s[..|p|] == p
  }

  lemma PrefixOfConcat(a: string, b: string)
    ensures HasPrefix(a + b, a)
  {
    assert (a + b)[..|a|] == a;
  }

  /** The line reports on the given owner: an update or one of the errors. */
  predicate ReportsOn(line: string, loginID: string) {
    || HasPrefix(line, "Updated " + loginID + ": ")
    || HasPrefix(line, "twitter error: (" + loginID + ") ")
    || HasPrefix(line, "worker error: (" + loginID + ") ")
  }

  /** Every turn yields one line naming its job's owner, whatever happens. */
  lemma JobStepReports(s: DbState, clients: string -> Result<Upstream>, job: RootHandle, p: Picks)
    requires JobAdmissible(s, clients, job, p)
    ensures ReportsOn(JobStep(s, clients, job, p).line, job.loginID)
  {
    var l := job.loginID;
    match clients(l)
    case Err(e) =>
      ErrorLinesReport(l, e);
      ReportedReports(s, job, TwitterErrorLine(l, e), l);
    case Ok(api) =>
      var o := TickSpec(s, api, l, job, p);
      match o.result
      case Ok(status) =>
        PrefixOfConcat("Updated " + l + ": ", status);
      case Err(e) =>
        ErrorLinesReport(l, e);
        ReportedReports(o.state, o.job, WorkerErrorLine(l, e), l);
  }

  lemma ErrorLinesReport(loginID: string, e: Error)
    ensures ReportsOn(TwitterErrorLine(loginID, e), loginID)
    ensures ReportsOn(WorkerErrorLine(loginID, e), loginID)
  {
    PrefixOfConcat("twitter error: (" + loginID + ") ", ErrorText(e));
    PrefixOfConcat("worker error: (" + loginID + ") ", ErrorText(e));
  }

  /** Saving a line as the status keeps the line's head: a note only follows it. */
  lemma ReportedReports(s: DbState, job: RootHandle, msg: string, loginID: string)
    requires ReportsOn(msg, loginID)
    ensures ReportsOn(Reported(s, job, msg).line, loginID)
  {
    var line := Reported(s, job, msg).line;
    assert line == msg + line[|msg|..];
    assert line[..|msg|] == msg;
  }

  /** A run answers with one line per selected job, in order: a failing job
      does not stop the jobs after it. */
  lemma {:induction false} RunReportsEveryJob(s: DbState, clients: string -> Result<Upstream>, jobs: seq<RootHandle>, picks: seq<Picks>)
    requires AdmissibleRun(s, clients, jobs, picks)
    ensures |RunJobs(s, clients, jobs, picks).lines| == |jobs|
    ensures forall i :: 0 <= i < |jobs| ==> ReportsOn(RunJobs(s, clients, jobs, picks).lines[i], jobs[i].loginID)
    decreases |jobs|
  {
    if jobs != [] {
      var n := |jobs| - 1;
      RunReportsEveryJob(s, clients, jobs[..n], picks[..n]);
      var before := RunJobs(s, clients, jobs[..n], picks[..n]);
      var st := JobStep(before.state, clients, jobs[n], picks[n]);
      JobStepReports(before.state, clients, jobs[n], picks[n]);
      var run := RunJobs(s, clients, jobs, picks);
      assert run.lines == before.lines + [st.line];
      forall i | 0 <= i < |jobs|
        ensures ReportsOn(run.lines[i], jobs[i].loginID)
      {
        if i < n {
          assert run.lines[i] == before.lines[i] && jobs[i] == jobs[..n][i];
        }
      }
    }
  }

  // ---------------------------------------------------------------------------
  // The store invariant across a request

  /** Saving a status line touches no field the store invariant reads. */
  lemma StatusKeepsInv(s: DbState, key: RootKey, msg: string)
    requires StoreInv(s) && key in s.roots
    ensures StoreInv(s.(roots := s.roots[key := s.roots[key].(status := msg)]))
  {
    var s' := s.(roots := s.roots[key := s.roots[key].(status := msg)]);
    forall k | k in s'.roots
      ensures JobInvAt(s', k)
    {
      assert JobInvAt(s, k);
    }
  }

  /** Roots outside the given key are as they were. */
  ghost predicate OtherRootsKept(s: DbState, s': DbState, key: RootKey) {
    forall k | k != key :: (k in s'.roots <==> k in s.roots) && (k in s.roots ==> s'.roots[k] == s.roots[k])
  }

  /** One turn of a stored job keeps the store invariant and writes no other
      job record. */
  lemma JobStepKeepsInv(s: DbState, clients: string -> Result<Upstream>, job: RootHandle, p: Picks)
    requires StoreInv(s) && RootKeyOf(job) in s.roots && s.roots[RootKeyOf(job)] == job
    requires JobAdmissible(s, clients, job, p)
    ensures StoreInv(JobStep(s, clients, job, p).state)
    ensures OtherRootsKept(s, JobStep(s, clients, job, p).state, RootKeyOf(job))
  {
    var key := RootKeyOf(job);
    match clients(job.loginID)
    case Err(e) =>
      StatusKeepsInv(s, key, TwitterErrorLine(job.loginID, e));
    case Ok(api) =>
      TickTurnKeepsInv(s, api, job, p);
  }

  /** The turn of a job whose client could be made: the tick, then on failure
      the error saved as the job's status. */
  lemma TickTurnKeepsInv(s: DbState, api: Upstream, job: RootHandle, p: Picks)
    requires StoreInv(s) && RootKeyOf(job) in s.roots && s.roots[RootKeyOf(job)] == job
    requires Admissible(s, job.loginID, job, p)
    ensures var o := TickSpec(s, api, job.loginID, job, p);
      var s' := if o.result.Ok? then o.state else Reported(o.state, o.job, WorkerErrorLine(job.loginID, o.result.error)).state;
      StoreInv(s') && OtherRootsKept(s, s', RootKeyOf(job))
  {
    TickFailsCleanly(s, api, job.loginID, job, p);
    TickPreservesInv(s, api, job, p);
    TickFrame(s, api, job, p);
    OutcomeKeepsInv(s, job, TickSpec(s, api, job.loginID, job, p));
  }

  /** A tick outcome that keeps the invariant, changes only the job and, when
      it fails, changes nothing, still keeps both once a failure is saved. */
  lemma OutcomeKeepsInv(s: DbState, job: RootHandle, o: Outcome)
    requires StoreInv(s) && RootKeyOf(job) in s.roots
    requires StoreInv(o.state) && OnlyJobChanged(s, o.state, job)
    requires o.result.Err? ==> o.job == job && o.state == s
    ensures var s' := if o.result.Ok? then o.state else Reported(o.state, o.job, WorkerErrorLine(job.loginID, o.result.error)).state;
      StoreInv(s') && OtherRootsKept(s, s', RootKeyOf(job))
  {
    if o.result.Err? {
      StatusKeepsInv(s, RootKeyOf(job), WorkerErrorLine(job.loginID, o.result.error));
    }
  }

  /** Every job sits in the store at its own key as it was read. */
  ghost predicate StoredAsRead(s: DbState, jobs: seq<RootHandle>) {
    forall i | 0 <= i < |jobs| :: RootKeyOf(jobs[i]) in s.roots && s.roots[RootKeyOf(jobs[i])] == jobs[i]
  }

  ghost predicate DistinctKeys(jobs: seq<RootHandle>) {
    forall i, j | 0 <= i < j < |jobs| :: RootKeyOf(jobs[i]) != RootKeyOf(jobs[j])
  }

  /** A run over distinct stored jobs keeps the store invariant, and the jobs
      still to come are untouched by the ones before them. */
  lemma {:induction false} RunKeepsInv(s: DbState, clients: string -> Result<Upstream>, jobs: seq<RootHandle>,
                                       picks: seq<Picks>, rest: seq<RootHandle>)
    requires StoreInv(s) && StoredAsRead(s, jobs + rest) && DistinctKeys(jobs + rest)
    requires AdmissibleRun(s, clients, jobs, picks)
    ensures StoreInv(RunJobs(s, clients, jobs, picks).state)
    ensures StoredAsRead(RunJobs(s, clients, jobs, picks).state, rest)
    decreases |jobs|
  {
    if jobs == [] {
      assert jobs + rest == rest;
    } else {
      var n := |jobs| - 1;
      ShiftLast(s, jobs, rest);
      RunKeepsInv(s, clients, jobs[..n], picks[..n], [jobs[n]] + rest);
      RunLastStep(s, clients, jobs, picks, rest);
    }
  }

  /** Moving a run's last job to the front of the jobs still to come. */
  lemma ShiftLast(s: DbState, jobs: seq<RootHandle>, rest: seq<RootHandle>)
    requires jobs != [] && StoredAsRead(s, jobs + rest) && DistinctKeys(jobs + rest)
    ensures var n := |jobs| - 1;
      && StoredAsRead(s, jobs[..n] + ([jobs[n]] + rest))
      && DistinctKeys(jobs[..n] + ([jobs[n]] + rest))
      && DistinctKeys([jobs[n]] + rest)
  {
    var n := |jobs| - 1;
    assert jobs[..n] + ([jobs[n]] + rest) == jobs + rest;
    assert [jobs[n]] + rest == (jobs + rest)[n..];
    DistinctKeysSuffix(jobs + rest, n);
  }

  lemma DistinctKeysSuffix(xs: seq<RootHandle>, k: nat)
    requires k <= |xs| && DistinctKeys(xs)
    ensures DistinctKeys(xs[k..])
  {
    forall i, j | 0 <= i < j < |xs| - k ensures RootKeyOf(xs[k..][i]) != RootKeyOf(xs[k..][j]) {
      assert xs[k..][i] == xs[k + i] && xs[k..][j] == xs[k + j];
    }
  }

  /** The last turn of a run keeps the invariant and the later jobs. */
  lemma RunLastStep(s: DbState, clients: string -> Result<Upstream>, jobs: seq<RootHandle>, picks: seq<Picks>,
                    rest: seq<RootHandle>)
    requires jobs != [] && AdmissibleRun(s, clients, jobs, picks)
    requires var before := RunJobs(s, clients, jobs[..|jobs| - 1], picks[..|jobs| - 1]).state;
      && StoreInv(before)
      && StoredAsRead(before, [jobs[|jobs| - 1]] + rest)
      && DistinctKeys([jobs[|jobs| - 1]] + rest)
    ensures StoreInv(RunJobs(s, clients, jobs, picks).state)
    ensures StoredAsRead(RunJobs(s, clients, jobs, picks).state, rest)
  {
    var n := |jobs| - 1;
    NextJobKeepsInv(RunJobs(s, clients, jobs[..n], picks[..n]).state, clients, jobs[n], picks[n], rest);
  }

  /** One turn over the first of a run's remaining distinct stored jobs keeps
      the invariant and leaves the later ones where they were. */
  lemma NextJobKeepsInv(s: DbState, clients: string -> Result<Upstream>, job: RootHandle, p: Picks, rest: seq<RootHandle>)
    requires StoreInv(s) && StoredAsRead(s, [job] + rest) && DistinctKeys([job] + rest)
    requires JobAdmissible(s, clients, job, p)
    ensures StoreInv(JobStep(s, clients, job, p).state)
    ensures StoredAsRead(JobStep(s, clients, job, p).state, rest)
  {
    assert ([job] + rest)[0] == job;
    JobStepKeepsInv(s, clients, job, p);
    var after := JobStep(s, clients, job, p).state;
    forall i | 0 <= i < |rest|
      ensures RootKeyOf(rest[i]) in after.roots && after.roots[RootKeyOf(rest[i])] == rest[i]
    {
      assert rest[i] == ([job] + rest)[i + 1];
    }
  }

  /** The jobs any selection picks sit at their own keys, one per key. */
  lemma SelectedStored(s: DbState, sel: Selection, jobs: seq<RootHandle>, owners: seq<string>)
    requires Consistent(s) && Selected(s, sel, jobs, owners)
    ensures StoredAsRead(s, jobs) && DistinctKeys(jobs)
  {
    match sel
    case OneJob(l, t) =>
    case OwnerJob(l) =>
    case EveryOwner =>
      PerUserDistinctOwners(s, jobs, owners);
      forall i | 0 <= i < |jobs|
        ensures RootKeyOf(jobs[i]) in s.roots && s.roots[RootKeyOf(jobs[i])] == jobs[i]
      {
        assert jobs[i] in UnfinishedRoots(s, owners[i]);
      }
  }

  /** A request the handler serves never breaks the store invariant. */
  lemma HandledKeepsInv(s: DbState, clients: string -> Result<Upstream>, path: string,
                        jobs: seq<RootHandle>, owners: seq<string>, picks: seq<Picks>,
                        resp: Response, s': DbState)
    requires StoreInv(s) && Handled(s, clients, path, jobs, owners, picks, resp, s')
    ensures StoreInv(s')
  {
    var sel := ParseWorkerPath(path);
    if !(sel.OneJob? && (sel.loginID, sel.twitterID) !in s.roots) && DoneCheck(jobs) != UserDone {
      SelectedStored(s, sel, jobs, owners);
      assert jobs + [] == jobs;
      RunKeepsInv(s, clients, jobs, picks, []);
    }
  }
}
