# twitterweb crawl core, modelled in Dafny

twitterweb crawls the neighbourhood of a Twitter account, a *root*. It starts
from the accounts the root follows (friends) and the accounts that follow it
(followers). It looks up every one of them (*hydration*) and finally writes the
result as a GML graph file that the owner can download. The work is split into
*ticks*. A scheduler calls the worker endpoint every minute, and each call
advances every selected job by one step of a state machine.

This project models the core of that machinery:

- **`records.dfy`**: the records. A graph node (`GephiNode`), a job (`RootHandle`)
  and a child task (`FetchedHandle`), together with the error kinds that cross
  component boundaries.
- **`strconv.dfy`, `strings.dfy`**: the parts of Go's `strconv.FormatInt`/`ParseInt`
  and `strings.Split`/`TrimPrefix` that the core relies on. Each is stated with
  its round trip.
- **`twitter.go` → `twitter.dfy`**: the upstream helpers. The Twitter API is a
  parameter (`Upstream`, total functions that may fail). Suspended or deleted
  accounts become placeholder users. One page of friend or follower IDs is
  appended to a node.
- **`gephi.go` → `gephi.dfy`**: the GML export, which works on a byte buffer
  (`Buffer`, a class).
  - The IDs the root lists are the valid IDs.
  - One node block is written for the root and one for each hydrated child.
  - The edge set is a set of `"source target"` keys that keeps only edges
    whose ends are both valid.
  - Edges are written in the set's (unspecified) iteration order.
- **`backend/storage.go` → `firestore.dfy`, `storage.dfy`**: the document store.
  - It is a class holding maps of users, jobs, children and graph objects.
  - It records every atomic commit, so that batch limits (500 writes) and write
    order can be stated.
  - Queries whose order is undefined return *some* admissible answer; the
    choice is a ghost out-parameter.
- **`backend/main.go` runTick → `tick.dfy`, `tick_props.dfy`**: one tick.
  - A job is in one of these phases: finished, build graph, page followers,
    page friends, count, or hydrate. Each phase is specified as a function on
    the store state (`TickSpec`), and each step method is proved against it.
  - `tick_props.dfy` states a store invariant (`StoreInv`):
    - the children of a job are exactly the IDs its root lists;
    - none is hydrated before paging ends;
    - `Remaining` counts the children still to hydrate;
    - a job with its graph pending or built has none left.
  - It proves that every tick keeps `StoreInv`, never moves a job backwards,
    writes only the job's own record, children and graph file, and changes
    nothing when it fails.
- **`backend/main.go` workerHandler → `driver.dfy`**: the worker endpoint.
  - The request path selects one job, one owner's unfinished job, or one
    unfinished job per owner.
  - The "User done" check follows.
  - Each selected job then gets one turn: the owner's client is built and one
    tick runs.
  - A failure is saved as the job's status.
  - Every turn reports one line on its owner.
- **`main.go`, `storage.go` (first, Datastore-backed version) →
  `legacy_store.dfy`, `legacy_main.dfy`**: the earlier store helpers and state
  machine (page followers, page friends, hydrate, mark done).
  - Put calls are chunked at 50 and DeleteMulti at 500.
  - Key listing pages at 1000.
  - Failures are reported but not saved.
  - An administrator may force a tick.
  - The status page and index links are modelled, including when a download
    link is offered.

The minute of the clock, the scheduler header, the signed-in viewer and the
administrator list are inputs. The per-user Twitter client is a function from
login ID to `Result<Upstream>`.

Where the two disagree, the model follows the code. For example, an upstream
friend or follower count is tested with `count != 0 && count <= 5000`, which
lets a negative count through to a page fetch. There are two exceptions, the
defects listed under "## Findings": the note appended after saving a failure
as status, and the owner selection that keeps a nil job. Each is modelled as
written and shown to misbehave; the handlers then use the corrected form (see
"## Left out").

The first version's tick passes string IDs to store helpers that take `int64`
IDs, so as written it does not build. In the model, the first version's IDs are
strings, and every key is built from the number's decimal text
(`Strconv.FormatInt`). `LegacyStore.GetRootHandleByID` and
`LegacyStore.GetRootHandleBadID` state what the string-to-int64 parse does.

## Model

| member | source | states |
|---|---|---|
| `Strconv.DigitChar` | twitter.go:97 | a digit value below ten prints as a decimal digit character |
| `Strconv.DigitValue` | twitter.go:59 | a digit character reads back as a value below ten |
| `Strconv.Digits` | twitter.go:97 | the decimal text of a natural number is non-empty and all digits |
| `Strconv.FormatInt` | twitter.go:97 | the decimal text of an ID is non-empty; it starts with a digit for non-negative IDs and with '-' for negative ones |
| `Strconv.ScanUint` | twitter.go:59 | scanning digits never yields a value above the uint64 ceiling (overflow is an error) |
| `Strconv.ParseInt` | twitter.go:59 | a successful parse needs non-empty text, and a negative result needs a leading '-' |
| `Strconv.ScanAppendDigit` | twitter.go:59 | scanning one more digit multiplies the value by ten and adds the digit |
| `Strconv.ScanDigitsOfValue` | twitter.go:59 | the decimal text of any uint64 value scans back to that value |
| `Strconv.FormatParseRoundTrip` | twitter.go:59-97 | parsing the decimal text of any int64 ID gives back that ID |
| `Strconv.FormatIntInjective` | twitter.go:97 | two int64 IDs have the same text exactly when they are equal, so text keys never collide |
| `Strings.Split` | backend/main.go:282 | splitting always yields at least one piece |
| `Strings.SplitLeadingPiece` | backend/main.go:282 | a separator-free prefix followed by the separator becomes the first piece |
| `Strings.SplitWithoutSeparator` | backend/main.go:282 | text without the separator splits into itself alone |
| `Strings.SplitHasTwoPieces` | backend/main.go:282 | text containing the separator splits into at least two pieces |
| `Strings.SplitJoin` | backend/main.go:282 | splitting the separator-joined pieces (none containing the separator) gives back exactly those pieces |
| `Strings.ConcatSnoc` | backend/main.go:319-341 | the response text of a run followed by one more line is the old text with that line appended |
| `Strings.TrimPrefix` | backend/main.go:282 | with the prefix present the text is prefix plus result; otherwise the text is returned unchanged |
| `Strings.TrimPrefixOfConcat` | main.go:395 | trimming a prefix off prefix-plus-rest gives exactly the rest |
| `Records.ErrorText` | backend/main.go:111 | a tick on a finished job fails with "User was already done: " and the root ID |
| `Records.BareNode` | backend/storage.go:244-250 | a freshly enqueued child carries only its ID and relationship: not done, with empty ID lists |
| `Records.TruncateDescription` | backend/storage.go:276-279 | a description is cut to its first 500 bytes when longer and kept whole otherwise |
| `Records.Hydrated` | backend/storage.go:270-280 | hydration sets the counts, screen name, profile URL, image URL and the truncated description from the upstream user, marks the child done, and keeps its ID, relationship, parent and ID lists |
| `Twitter.PermanentErrorMessage` | twitter.go:26-37 | an upstream error whose first code is 63 means "SUSPENDED", code 50 means "NOT FOUND"; every other error has no permanent message (each direction stated) |
| `Twitter.ParseID` | twitter.go:59-62 | an ID parses exactly when it is int64 decimal text; otherwise the error names the input |
| `Twitter.GetTwitterUserByName` | twitter.go:40-55 | a successful lookup is returned as is; a permanent error becomes a placeholder user with that name and zero counts; it fails exactly when the error is not permanent |
| `Twitter.GetTwitterUser` | twitter.go:58-78 | an unparsable ID fails with the parse error; a successful lookup is returned; a permanent error becomes a placeholder with the given ID, the message as screen name and zero counts; any other error is returned |
| `Twitter.FormatAll` | twitter.go:95-98 | the text IDs of a page are, one for one and in order, the decimal texts of the numeric IDs |
| `Twitter.FormatAllDistinct` | twitter.go:95-98 | two text IDs of a page are equal exactly when the numeric IDs are |
| `Twitter.WithIDList` | twitter.go:99 | replacing one ID list of a node leaves the other list unchanged |
| `Twitter.AddPage` | twitter.go:82-124 | on success the page's IDs are appended, as text, to the chosen list of the node, and the page's IDs and next cursor are returned; on failure the node is unchanged and the upstream or parse error is returned |
| `Gephi.Buffer.constructor` | gephi.go:21 | a new writer is empty |
| `Gephi.Buffer.Write` | gephi.go:22-23 | a write appends exactly its text to the buffer |
| `Gephi.EdgeKey` | gephi.go:62-68 | an edge key always contains the space that separates its ends |
| `Gephi.SplitEdgeKey` | gephi.go:77 | splitting an edge key at spaces gives back exactly its source and target when IDs have no spaces |
| `Gephi.EdgeKeyInjective` | gephi.go:62-68 | two edges share a key exactly when they have the same source and target |
| `Gephi.EdgeTextSplits` | gephi.go:73-83 | the edge block written for a key carries the key's first piece as source and second piece as target |
| `Gephi.NodesTextStep` | gephi.go:24-27 | writing one more node appends exactly that node's block |
| `Gephi.EdgesTextAppend` | gephi.go:73-83 | writing one more edge appends exactly that edge's block |
| `Gephi.ExportedNodes` | gephi.go:24-27 | the nodes exported are the root first, then each hydrated child's node in the given order |
| `Gephi.EdgeSetHasSpaces` | gephi.go:57-70 | every key in the edge set has a space |
| `Gephi.EdgeSetMembership` | gephi.go:57-70 | a key is in the edge set exactly when some exported node has a valid follower x giving edge x to node, or a valid friend x giving edge node to x |
| `Gephi.EdgeEndpointsValid` | gephi.go:12-36 | every exported edge joins two valid IDs (the root or an ID the root lists) |
| `Gephi.AppendEdgeSet` | gephi.go:57-70 | adding a node's edges grows the set by exactly that node's valid edges |
| `Gephi.WriteEdges` | gephi.go:73-83 | the writer receives one edge block per key of the set, each exactly once, in some order of the set |
| `Gephi.WalkStep` | gephi.go:75-82 | walking one more key of the set extends the written edges by that key and removes it from what remains |
| `Gephi.CollectValidIDs` | gephi.go:13-20 | the valid IDs are the root's ID and every ID the root lists |
| `Gephi.ValidIDs` | gephi.go:13-20 | the root's ID and every ID it lists as friend or follower |
| `Gephi.NodeEdges` | gephi.go:57-70 | a node contributes (f, node) for each valid follower f and (node, g) for each valid friend g |
| `Gephi.EdgeSetOf` | gephi.go:28-32 | the edge set is the union of the nodes' valid edges |
| `Gephi.CollectEdges` | gephi.go:28-32 | the collected edge set is the union of the valid edges of the root and of every hydrated child |
| `Gephi.EdgeSetOfPrefix` | gephi.go:30-32 | collecting one more node adds exactly that node's valid edges |
| `Gephi.WriteNode` | gephi.go:39-53 | a node block is appended to the writer |
| `Gephi.NodePieces` | gephi.go:39-53 | a node block: the ID as node ID and user_id, label, type, profile URL, description, image URL, friends and followers counts, fields unescaped |
| `Gephi.WriteNodes` | gephi.go:24-27 | the writer receives the root's block then each child's block in order |
| `Gephi.BuildGephiFile` | gephi.go:12-36 | the file is the header, all node blocks, the edge blocks of an enumeration of the valid edge set, and the closing bracket |
| `Gephi.GraphFile` | gephi.go:12-36 | the file is the header, one node block per exported node in order, one edge block per key in the walk order, and the closing bracket |
| `Gephi.ExportExample` | gephi.go:57-70 | for a small graph, the root's friend edges and a friend's edge back to the root are exported |
| `Gephi.ExportExcludesOutsider` | gephi.go:57-70 | in that graph, an account the root does not list never appears on an exported edge |
| `Gephi.ExampleValidIDs` | gephi.go:13-20 | in that graph the valid IDs are the root and its listed IDs only |
| `Firestore.ApplyAllAppend` | backend/storage.go:238-267 | applying two consecutive write sequences is applying their concatenation |
| `Firestore.Store.constructor` | backend/storage.go:238-240 | a new store holds the given state and has no commit recorded |
| `Firestore.Store.Commit` | backend/storage.go:254 | a commit applies its operations in order, atomically, and is recorded as one commit |
| `Storage.GetApplicationUser` | backend/storage.go:35-48 | the user is found exactly when a document exists for the login ID, and is that document |
| `Storage.GetRootHandleFromString` | backend/storage.go:65-75 | the job is found exactly when the owner has a job with that root ID; otherwise the read fails with a missing-document error |
| `Storage.UnfinishedRootOwner` | backend/storage.go:127-142 | a job the owner query returns belongs to that owner and is not done |
| `Storage.GetUnfinishedRootHandle` | backend/storage.go:127-142 | nothing is found exactly when the owner has no unfinished job; otherwise one unfinished job of the owner |
| `Storage.GetRootHandlePerUser` | backend/storage.go:101-123 | one unfinished job per user, for distinct users, none of them done, and every user that has an unfinished job is covered |
| `Storage.PerUserDistinctOwners` | backend/storage.go:101-123 | the per-user jobs have pairwise distinct owners and none is done |
| `Storage.GetUnfinishedFetchHandle` | backend/storage.go:145-160 | nothing is found exactly when the job has no child left to hydrate; otherwise one such child as stored |
| `Storage.GetDoneJobs` | backend/storage.go:198-217 | the hydrated children of the job, each exactly once and as stored |
| `Storage.UpdateRootHandleStatus` | backend/storage.go:92-98 | a stored job gets only its status replaced, recorded as one status-update commit; a missing job fails with no-document-to-update, nothing changes and nothing is recorded |
| `Storage.SaveRootHandle` | backend/storage.go:220-226 | the job is written under its owner and root ID in one commit, and nothing else changes |
| `Storage.InitialRoot` | backend/storage.go:290-312 | a new job starts with both cursors and Remaining at -1, status "Preparing to fetch", not preparing a graph, a root node with empty lists and the user's profile fields (description truncated) |
| `Storage.NewRootHandle` | backend/storage.go:290-318 | a job already being fetched fails with already-exists and writes nothing; otherwise the initial job is created in one commit |
| `Storage.CommitBatch` | backend/storage.go:254-262 | committing a non-empty batch of at most 500 records it as one more commit |
| `Storage.BareChild` | backend/storage.go:244-250 | an enqueued child names its parent and carries a bare node |
| `Storage.SetChildOps` | backend/storage.go:243-251 | one set operation per ID, in ID order, each writing the bare child |
| `Storage.ChildMapFacts` | backend/storage.go:238-267 | after enqueuing, each listed ID has exactly one bare child under the job, and nothing else is added |
| `Storage.ApplySetChildOps` | backend/storage.go:243-251 | applying the set operations adds exactly the bare children of the listed IDs |
| `Storage.AddToBatch` | backend/storage.go:251-259 | staging one operation commits the batch when it reaches 500 and keeps everything staged or committed in order |
| `Storage.NewFetchedHandles` | backend/storage.go:238-267 | the store gains exactly one bare child per listed ID; the writes go out in ID order in commits of at most 500 |
| `Storage.DeleteChildOps` | backend/storage.go:168-185 | one delete per key, in key order |
| `Storage.ApplyDeleteChildOps` | backend/storage.go:168-190 | applying the deletes removes exactly the listed children |
| `Storage.DeleteRootHandle` | backend/storage.go:163-195 | all children of the job and then the job itself are deleted, with nothing else touched; child deletes go in commits of at most 500, before the job's own delete |
| `Storage.DeleteChildren` | backend/storage.go:164-190 | the given children are removed in commits of at most 500 that hold only child deletes |
| `Storage.StageDelete` | backend/storage.go:176-184 | staging one delete commits the batch when it reaches 500 and keeps the deletes in walk order |
| `Storage.DeletesApplied` | backend/storage.go:166-190 | committed deletes covering the whole set remove exactly that set |
| `Storage.FlattenOnlyDeletes` | backend/storage.go:166-190 | the commits of a delete walk contain child deletes only |
| `Tick.DoneHandles` | backend/storage.go:198-217 | the children read for the graph are the stored ones, key for key |
| `Tick.PhaseOf` | backend/main.go:110-208 | the branch a tick takes is the first that holds, in source order: done, graph pending, followers cursor open, friends cursor open, Remaining still -1, otherwise hydrate |
| `Tick.Rank` | backend/main.go:109-258 | the order a job moves through the phases: page followers, page friends, count, hydrate, build graph, finished |
| `Tick.GraphSpec` | backend/main.go:113-159 | the graph step stores the GML file of the job and its hydrated children at graphs/login/root with its disposition, and saves the job built and done with an empty status |
| `Tick.PageSpec` | backend/main.go:160-191 | a paging step fetches the page at the list's cursor; on failure nothing changes; on success the IDs are appended to the root, one bare child per ID is stored, the cursor moves on and the job is saved with the count message |
| `Tick.CountSpec` | backend/main.go:192-207 | the count step sets Remaining to the number of distinct listed IDs, the status to "Enqueued n handles", and saves the job |
| `Tick.Expands` | backend/main.go:231-242 | a child's own list is fetched when its count is non-zero and at most 5000, which admits negative counts |
| `Tick.HydrateSpec` | backend/main.go:227-252 | hydration reads the child's profile and expands its lists; any failure writes nothing; on success the hydrated child and the job with Remaining one lower and status "Fetched" and the screen name are written together |
| `Tick.TxSpec` | backend/main.go:208-257 | the transaction reloads the job (a missing job fails with nothing written); with no pending child the job switches to graph building; otherwise the picked child is hydrated |
| `Tick.TickSpec` | backend/main.go:109-258 | a tick on a done job fails with already-done; otherwise it takes the step of the job's phase |
| `Tick.ExpandChild` | backend/main.go:231-242 | a child's own friend or follower list gets its first page appended only when its count passes the test; otherwise that list is unchanged, and with neither it is untouched |
| `Tick.GraphStep` | backend/main.go:113-159 | the graph step performs exactly GraphSpec: upload the GML file with its disposition, then save the job built and done |
| `Tick.UploadGraph` | backend/main.go:133-150 | the object at the path holds the content with its disposition; nothing else changes |
| `Tick.PageStep` | backend/main.go:160-191 | a paging step performs exactly PageSpec for the chosen list |
| `Tick.CountStep` | backend/main.go:192-207 | the count step performs exactly CountSpec |
| `Tick.CountUnique` | backend/main.go:193-199 | the count is the number of distinct IDs in the two lists together |
| `Tick.TxStep` | backend/main.go:208-257 | the transaction reloads the job, picks a pending child exactly when there is one, and performs TxSpec |
| `Tick.HydrateStep` | backend/main.go:227-252 | hydrating the picked child performs exactly HydrateSpec |
| `Tick.ExpandStep` | backend/main.go:231-242 | the inline expansion computes ExpandChild |
| `Tick.RunTick` | backend/main.go:109-258 | one tick performs exactly TickSpec under admissible query answers |
| `TickProps.OutsideUnchanged` | backend/main.go:109-258 | writes under one job leave every other job's children and pending set as they were |
| `TickProps.InvFromParts` | backend/main.go:109-258 | the store invariant holds again once only one job and its children changed and that job keeps its phase invariant |
| `TickProps.PendingIDsOfKeys` | backend/storage.go:145-160 | the pending child IDs are the IDs of the pending keys; there are none exactly when no key is pending |
| `TickProps.ListedIDsAppend` | backend/main.go:193-199 | appending IDs to a list grows the distinct listed IDs by exactly those IDs |
| `TickProps.PagedChildren` | backend/storage.go:238-267 | enqueuing a page grows the job's children and pending IDs by exactly the page's IDs and leaves other jobs alone |
| `TickProps.PagingEffect` | backend/main.go:160-191 | a successful page reports the number fetched, moves that list's cursor to the next one, appends the IDs, stores one bare child per ID, and changes no other cursor, phase field, user or object |
| `TickProps.CursorZeroStable` | backend/main.go:160-191 | an exhausted cursor (0) stays exhausted in the job and in the store |
| `TickProps.PagedCursorZero` | backend/main.go:160-191 | paging one list never reopens the other list's exhausted cursor |
| `TickProps.TxCursorZero` | backend/main.go:208-257 | the transaction never reopens an exhausted cursor |
| `TickProps.CountExample` | backend/main.go:192-207 | friends 1,2,3 and followers 2,3,4 give Remaining 4 |
| `TickProps.PrepareEffect` | backend/main.go:217-226 | with no pending child, the job is switched to graph building, Remaining 0, status "Preparing graph", and nothing else changes |
| `TickProps.HydrateEffect` | backend/main.go:227-252 | a successful hydration marks exactly the picked pending child done, removes its ID from the pending set, decrements Remaining and sets the status |
| `TickProps.HydratedLeavesPending` | backend/main.go:243 | hydrating a pending child removes exactly that ID from the pending set and keeps the child set |
| `TickProps.GraphEffect` | backend/main.go:113-159 | the graph step stores the file of the job and all its hydrated children at graphs/login/root with the attachment disposition, clears the status, and marks the job done |
| `TickProps.TickFailsCleanly` | backend/main.go:109-258 | a failed tick leaves the job and the store unchanged; a done job fails with already-done |
| `TickProps.PagingKeepsInv` | backend/main.go:160-191 | a paging tick keeps the store invariant and does not move the job backwards |
| `TickProps.PagedStoreInv` | backend/main.go:160-191 | the store after a page keeps the invariant |
| `TickProps.PagedPhaseInv` | backend/main.go:160-191 | a page keeps the job's phase invariant with the new IDs added to children and pending |
| `TickProps.CountKeepsInv` | backend/main.go:192-207 | counting sets Remaining to the number of pending children and keeps the invariant |
| `TickProps.TxKeepsInv` | backend/main.go:208-257 | the transaction keeps the invariant and does not move the job backwards |
| `TickProps.PrepareKeepsInv` | backend/main.go:217-226 | switching to graph building with no pending child keeps the invariant |
| `TickProps.HydrateKeepsInv` | backend/main.go:227-252 | hydrating a pending child keeps the invariant: Remaining still counts the pending children |
| `TickProps.DecrementedPhaseInv` | backend/main.go:247-248 | decrementing Remaining while one pending ID is removed keeps the phase invariant |
| `TickProps.HydratedStoreInv` | backend/main.go:243-251 | the store after a hydration keeps the invariant and the job stays in the hydrate phase |
| `TickProps.GraphKeepsInv` | backend/main.go:113-159 | building the graph keeps the invariant |
| `TickProps.BuiltKeepsInv` | backend/main.go:152-155 | a built job (done, flag cleared) with any graph file stored keeps the invariant |
| `TickProps.TickPreservesInv` | backend/main.go:109-258 | every tick of a stored job keeps the store invariant and never moves the job to an earlier phase |
| `TickProps.TickFrame` | backend/main.go:109-258 | a tick writes nothing but the job's own record, the children under it and its graph file |
| `TickProps.PagingFrame` | backend/main.go:160-191 | a page writes only the job and its children |
| `TickProps.HydrateFrame` | backend/main.go:208-257 | a hydration writes only the job and its children |
| `TickProps.NewRootKeepsInv` | backend/storage.go:290-318 | creating a new job keeps the store invariant |
| `TickProps.PhaseInv` | backend/main.go:109-258 | what each phase requires of a job: its children are exactly its listed IDs; before hydration all are pending and Remaining is -1; while hydrating Remaining counts the pending ones; with the graph pending or built none is pending, Remaining is 0 and both cursors are exhausted |
| `TickProps.StoreInv` | backend/main.go:109-258 | the store is consistent, every child belongs to a stored job, and every stored job keeps the phase invariant |
| `Driver.WorkerPathOneJob` | backend/main.go:282-298 | "/worker/login/root" selects that single job |
| `Driver.WorkerPathOwner` | backend/main.go:299-306 | "/worker/login" selects the owner's unfinished job |
| `Driver.WorkerPathEveryOwner` | backend/main.go:307-314 | "/worker/" selects one unfinished job per owner |
| `Driver.WorkerPathManyPieces` | backend/main.go:307-314 | a path with three or more pieces falls back to every owner |
| `Driver.ParseWorkerPath` | backend/main.go:282-314 | the path after /worker/ split at '/': two pieces name one job, one non-empty piece an owner, anything else every owner |
| `Driver.SelectOwner` | backend/main.go:299-306 | an owner with no unfinished job selects no job, otherwise exactly that job (corrected form) |
| `Driver.DoneCheck` | backend/main.go:315-318 | the run stops with "User done" exactly when nothing is selected or the first job is done, and never reads a missing job |
| `Driver.SelectOwnerAsWritten` | backend/main.go:299-306 | as written, the lookup result is appended even when nothing was found |
| `Driver.DoneCheckAsWritten` | backend/main.go:315-318 | as written, the test reads the first job's done flag, so a nil first job is a nil dereference |
| `Driver.OwnerWithoutJob` | backend/main.go:299-318 | as written, an owner without a job makes the done check read through nil; corrected, it answers "User done" |
| `Driver.SelectOwnerAgrees` | backend/main.go:299-318 | when a job is found, the written and corrected selections agree |
| `Driver.SaveNote` | backend/main.go:323-325 | the note is empty exactly when saving the status succeeded, and otherwise names the save error (corrected form) |
| `Driver.SaveNoteAsWritten` | backend/main.go:323-325 | as written, the note is always appended, with <nil> after a successful save |
| `Driver.SaveNoteDiffers` | backend/main.go:323-335 | as written, a successful save still appends " and couldn't save: <nil>"; on a failed save both forms agree |
| `Driver.Reported` | backend/main.go:320-338 | a failed turn of a stored job saves the error line as the job's status and reports it; for a missing job the store is unchanged and the line ends with " and couldn't save: " and the no-document-to-update error |
| `Driver.AdvanceJob` | backend/main.go:320-340 | one job's turn performs JobStep: the client error, the tick failure or the tick status, each reported on a line |
| `Driver.WorkerHandler` | backend/main.go:271-342 | non-scheduler requests are redirected and skip minutes reply "Skipping tick", both without writing; otherwise the handler does exactly what Handled specifies (selection, done check, then every selected job's turn in order) |
| `Driver.AdvanceAll` | backend/main.go:319-341 | the selected jobs' turns run in order, each on the store the previous one left, and the lines come out in that order |
| `Driver.AdvanceNext` | backend/main.go:319-341 | one more turn extends the run by exactly that job's step |
| `Driver.RunSnoc` | backend/main.go:319-341 | a run followed by one more turn is the run of the longer job list |
| `Driver.JobStepReports` | backend/main.go:320-340 | every turn yields a line that names its job's owner, whether it updated or failed |
| `Driver.ErrorLinesReport` | backend/main.go:322 | twitter-error and worker-error lines name the owner |
| `Driver.ReportedReports` | backend/main.go:323-327 | saving the status keeps the owner-naming prefix of the line |
| `Driver.RunReportsEveryJob` | backend/main.go:319-341 | a run yields exactly one line per job, in order, each naming that job's owner |
| `Driver.StatusKeepsInv` | backend/storage.go:92-98 | replacing a job's status keeps the store invariant |
| `Driver.JobStepKeepsInv` | backend/main.go:319-341 | a stored job's turn keeps the store invariant and writes no other job record |
| `Driver.TickTurnKeepsInv` | backend/main.go:330-338 | a tick followed by saving its error as status keeps the invariant and touches no other job |
| `Driver.OutcomeKeepsInv` | backend/main.go:330-338 | a clean outcome, or the unchanged state plus a saved status, keeps the invariant and touches no other job |
| `Driver.RunKeepsInv` | backend/main.go:319-341 | a run over distinct stored jobs keeps the store invariant, and the later jobs are still stored as they were read |
| `Driver.RunLastStep` | backend/main.go:319-341 | the last turn of a run keeps the invariant and the jobs after it as read |
| `Driver.NextJobKeepsInv` | backend/main.go:319-341 | a job's turn keeps the invariant and leaves the other selected jobs as read |
| `Driver.SelectedStored` | backend/main.go:290-314 | the selected jobs are stored as read and have distinct keys |
| `Driver.Selected` | backend/main.go:290-314 | the selected jobs: the named stored job; the owner's unfinished job or none; or one unfinished job per owner, for distinct owners, covering every owner with one |
| `Driver.JobStep` | backend/main.go:319-340 | one job's turn: a client failure is reported and saved as status; otherwise a tick runs, a successful tick reports "Updated" with its status, and a failed tick is reported and saved as status |
| `Driver.RunJobs` | backend/main.go:319-341 | the selected jobs' turns in order, each on the store the previous turn left, with one line each |
| `Driver.Handled` | backend/main.go:290-342 | a named job that is missing gets a 500 reply and nothing changes; otherwise the jobs are selected, "User done" is the reply when none is selected or the first is done, and otherwise the run's lines are the reply and its store the new state |
| `Driver.HandledKeepsInv` | backend/main.go:271-342 | a whole worker request keeps the store invariant |
| `LegacyStore.ApplyAllAppend` | storage.go:230-264 | applying two consecutive write sequences is applying their concatenation |
| `LegacyStore.Datastore.constructor` | storage.go:230-232 | a new datastore holds the given state and has no call recorded |
| `LegacyStore.Datastore.Call` | storage.go:259 | one call applies its writes in order and is recorded as one call |
| `LegacyStore.GetRootHandleByID` | storage.go:64-75 | the text of an int64 ID reads back the stored job, or fails with no-such-entity |
| `LegacyStore.GetRootHandleBadID` | storage.go:65-68 | text that is not an int64 fails with the parse error |
| `LegacyStore.GetRootHandleFromString` | storage.go:64-75 | the ID text is parsed as int64 (a parse failure is returned) and the job is read under the number's key, or fails with no-such-entity |
| `LegacyStore.PerOwner` | storage.go:84-88 | the per-owner map has one entry per owner of a found job, each a found job of that owner |
| `LegacyStore.PerOwnerKeepsLast` | storage.go:86-88 | the map keeps the last job found for each owner |
| `LegacyStore.GetRootHandlePerUser` | storage.go:78-94 | one not-done job per owner, the last the query returned, for distinct owners and covering every owner with one |
| `LegacyStore.QueryNotDone` | storage.go:79-83 | the query returns every not-done job exactly once |
| `LegacyStore.Flattened` | storage.go:89-92 | flattening the map lists each entry exactly once |
| `LegacyStore.GetUnfinishedRootHandle` | storage.go:98-108 | nothing is found exactly when the owner has no unfinished job; otherwise one such job |
| `LegacyStore.GetUnfinishedFetchHandle` | storage.go:111-121 | nothing is found exactly when the root has no unhydrated child; otherwise one such child |
| `LegacyStore.CallChunk` | storage.go:259-261 | one chunk of at most the limit is recorded as one more call |
| `LegacyStore.SaveRootHandle` | storage.go:221-227 | the job is put under its key in one call, and nothing else changes |
| `LegacyStore.ChildWrites` | storage.go:233-242 | one put per ID, in ID order, of the bare child under the owner and child ID |
| `LegacyStore.ApplyChildWrites` | storage.go:233-262 | applying the puts adds exactly the bare children of the listed IDs |
| `LegacyStore.PutMulti` | storage.go:259 | a put-multi call writes key i with record i, in order |
| `LegacyStore.NewFetchedHandles` | storage.go:230-264 | the store gains one bare child per listed ID, written in ID order in calls of at most 50 |
| `LegacyStore.HydrateHandle` | storage.go:267-283 | the child is replaced by its hydrated form in one put, and nothing else changes |
| `LegacyStore.LegacyInitialRoot` | storage.go:286-305 | a new job starts with both cursors at -1, not done, with empty lists and the user's profile fields (description truncated) |
| `LegacyStore.NewRootHandle` | storage.go:286-311 | the initial job is put in one call |
| `LegacyStore.DeleteWrites` | storage.go:156-168 | one delete per key, in key order |
| `LegacyStore.ApplyDeleteWrites` | storage.go:156-168 | applying the deletes removes exactly the listed children |
| `LegacyStore.KeyPageCount` | storage.go:127-154 | for a last page shorter than 1000, 1000·n + last keys divided by the page size 1000 gives back n: the number of full pages the listing reads before its short last page |
| `LegacyStore.ListChildKeys` | storage.go:125-154 | every child key of the job is listed exactly once, over as many 1000-key pages as needed plus the final short one |
| `LegacyStore.DeleteKeys` | storage.go:156-168 | the keys are removed in DeleteMulti calls of at most 500, in key order |
| `LegacyStore.DeleteRootHandle` | storage.go:124-170 | all children of the job and then the job itself are deleted and nothing else is touched; the child deletes go first in calls of at most 500 |
| `LegacyMain.LegacyPageStep` | main.go:198-225 | a paging step performs exactly the paging specification for the chosen list |
| `LegacyMain.LegacyPhaseOf` | main.go:195-237 | the first version's branch is the first that holds: done, followers cursor open, friends cursor open, otherwise hydrate |
| `LegacyMain.LegacyPageSpec` | main.go:198-225 | a paging step fetches the page at the list's cursor; on failure nothing changes; on success the IDs are appended, one bare child per ID is put, the cursor moves on and the job is put |
| `LegacyMain.LegacyHydrateSpec` | main.go:226-256 | with no unhydrated child the job is marked done; otherwise the child is looked up, expanded and put back hydrated, with any failure writing nothing |
| `LegacyMain.LegacyTickSpec` | main.go:194-257 | a tick on a done job fails with already-done; otherwise it takes the step of the job's phase |
| `LegacyMain.LegacyRunTick` | main.go:194-257 | one tick performs exactly the tick specification under the child the query picks |
| `LegacyMain.LegacyFailsCleanly` | main.go:194-257 | a failed tick leaves the job and the store unchanged; a done job fails with already-done |
| `LegacyMain.LegacyPhaseMonotone` | main.go:194-257 | a tick never moves a job to an earlier phase and never reopens an exhausted cursor |
| `LegacyMain.LegacyPagingEffect` | main.go:198-225 | a successful page reports its count, moves that cursor, appends the IDs, stores one bare child per ID, and keeps the other cursor |
| `LegacyMain.LegacyMarksDone` | main.go:226-236 | with no unhydrated child, the job is marked done, "Marked Done" is reported, and nothing else changes |
| `LegacyMain.LegacyHydratesOne` | main.go:237-256 | a successful hydration marks exactly the picked child done, under the same parent, with a description of at most 500 bytes, and reports its ID |
| `LegacyMain.LegacyDoneCheck` | main.go:319-322 | the run stops with "User done" exactly when nothing is selected or the first job is done |
| `LegacyMain.LegacyAdvanceJob` | main.go:324-338 | one job's turn performs the first version's job step |
| `LegacyMain.LegacyJobStep` | main.go:323-338 | one job's turn: a client failure or a failed tick is only reported; a successful tick reports "Updated" with its status |
| `LegacyMain.MayForceTick` | main.go:274-279 | a request not from the scheduler may tick only for a signed-in, non-empty, administrator viewer |
| `LegacyMain.LegacyHandled` | main.go:294-339 | a named job that cannot be read (bad ID or missing) gets a 500 reply and nothing changes; otherwise the jobs are selected, the done check answers "User done", or the run's lines are the reply |
| `LegacyMain.LegacyWorkerHandler` | main.go:272-340 | requests not from the scheduler are redirected unless an administrator forces the tick; skip minutes reply "Skipping tick"; otherwise the handler does exactly what LegacyHandled specifies |
| `LegacyMain.LegacyAdvanceAll` | main.go:323-339 | the jobs' turns run in order, each on the store the previous one left |
| `LegacyMain.LegacyAdvanceNext` | main.go:323-339 | one more turn extends the run by exactly that job's step |
| `LegacyMain.LegacyRunSnoc` | main.go:323-339 | a run followed by one more turn is the run of the longer job list |
| `LegacyMain.LegacyJobStepReports` | main.go:324-338 | every turn yields a line naming its job's owner |
| `LegacyMain.LegacyRunReportsEveryJob` | main.go:323-339 | a run yields exactly one line per job, each naming that job's owner |
| `LegacyMain.LegacyFailedTurnWritesNothing` | main.go:324-337 | a turn that does not report an update leaves the store unchanged, because failures are printed, not saved |
| `LegacyMain.URLRoundTrips` | main.go:430-447 | the status, download and delete URLs give back the ID when their prefix is trimmed |
| `LegacyMain.MakeStatusURL` | main.go:430-432 | the status URL is /status/ followed by the ID |
| `LegacyMain.MakeDownloadURL` | main.go:435-437 | the download URL is /download/ followed by the ID |
| `LegacyMain.MakeDebugTickURL` | main.go:440-442 | the admin tick URL is the worker prefix, the login ID, '/', the ID |
| `LegacyMain.MakeDeleteURL` | main.go:445-447 | the delete URL is /delete/ followed by the ID |
| `LegacyMain.DebugTickURLSelectsJob` | main.go:440-442 | the admin tick URL is parsed by the worker as exactly that job |
| `LegacyMain.IndexEntry` | main.go:567-576 | an index entry shows the screen name and a status link to the ID, and a download link exactly when the viewer is an administrator or the job is done |
| `LegacyMain.StatusPageLinks` | main.go:395-410 | only administrators get the ID and a tick URL, which selects that job; the download link appears exactly for administrators or done jobs; the delete link names the ID |

## Left out

- HTTP plumbing, templates, authentication (`getFirebaseUser`), the store client constructors and the
  transaction retry loop: the model takes the store as an object, the viewer as an input and runs every
  transaction once, without concurrent writers.
- Store write failures are not modelled: every commit, Put and Delete succeeds.
- Store read failures other than a missing document (on Get and Update) and an already-existing
  document (on Create) are not modelled. Query, iterator and decode errors never happen in the model.
  So the paths they take are not modelled either:
  - the error returns of the store helpers, such as backend/storage.go:134-140;
  - the 500 replies after a failed owner or per-user query, at backend/main.go:302-304 and 309-311
    (main.go:306-308 and 313-315 in the first version);
  - the "error getting handles" failure of the graph step, at backend/main.go:129-131.
- Driver.Reported, Driver.AdvanceJob, Driver.WorkerHandler, LegacyMain.LegacyWorkerHandler: these use
  the corrected forms of the two defects under "## Findings", not the code as written. There are two
  differences:
  - After a successful status save, the code still appends " and couldn't save: <nil>"
    (backend/main.go:323-325 and 333-335). The model appends nothing (`Driver.SaveNote`).
  - For an owner with no unfinished job, the code reads the done flag through a nil job
    (backend/main.go:315, main.go:319). The model answers "User done" (`Driver.SelectOwner`).
  The as-written forms are `Driver.SaveNoteAsWritten`, `Driver.SelectOwnerAsWritten` and
  `Driver.DoneCheckAsWritten`. `Driver.SaveNoteDiffers` and `Driver.OwnerWithoutJob` state the
  differences; the first version's handler has only the second defect.
- The error texts of the store client are approximations (`Records.ErrorText`); only the texts the core
  builds itself are exact.
- Twitter client construction (`newUserTwitterClient`, OAuth, and its read of the user document) is a
  parameter `clients` from login ID to a client or an error.
- The clock's minute, the scheduler header and the administrator list (`isAdmin`) are inputs.
- Tick.RunTick: the job's value returned to the caller stands for Go's update of the pointed-to record.
  Aliasing between that record and other selected jobs is not modelled.
- Tick.TxStep: the reload of the job inside the transaction ignores its error as written (the error is
  overwritten before it is checked, and a nil job is then read). The model returns a missing-document
  error instead and does not claim this as promised behaviour.
- The GML text is not escaped, and `Fprintf` with non-constant format strings would reinterpret `%` in
  names and lines. Neither is modelled: text is copied verbatim.
- Graph upload failures, bucket setup and writer close errors in the graph step are not modelled: the
  upload always succeeds.
- Go map iteration order and query result order are nondeterministic. They are ghost choices (`Picks`,
  the first version's pick, the edge order), and every property holds for all of them.
- The first version's numeric keys: IDs are text, and keys are formed from text (see above). Datastore key
  allocation and ordering (`Order("Node.ScreenName")` in `getRootHandles`) are not modelled.
- `countEnqueued`, `countRemaining` and `getDoneJobs` of the first version, and the counts on the status
  page, are not part of this model: they are display-only queries.
- The worker URL without its trailing slash (`/worker`) is not modelled: paths are taken to start with
  `/worker/`.
- `constants.go` (project ID, bucket name) is not part of this model. The administrator check is the
  `admins` input.
- Unicode in strings: strings are byte sequences, as Go's are, and no text is decoded.

## Findings

| source | as written | input that shows it | evidently intended | confidence | as-written member | corrected member |
|---|---|---|---|---|---|---|
| backend/main.go:299-318 | the owner branch appends the lookup result even when it is nil, and the done check then reads `rootHandles[0].Node` (the same holds in main.go:303-322) | path "/worker/alice" where alice has no unfinished job | no job is selected and the handler answers "User done" | high, not executed | `Driver.OwnerWithoutJob` | `Driver.SelectOwner` |
| backend/main.go:323-334 | the test after saving the status looks at `err` (the tick's error, never nil there) instead of `tErr` | any tick failure on a stored job whose status save succeeds | the note " and couldn't save: ..." only when the save failed | high, not executed | `Driver.SaveNoteDiffers` | `Driver.SaveNote` |
