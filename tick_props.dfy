/** What one tick does, branch by branch, and the invariant that ties every
    stored job to its children from the job's creation through every tick:
    the children are exactly the IDs the root lists, none is hydrated while
    the lists are still being paged, Remaining counts the children still to
    hydrate, and a job preparing or holding its graph has none left. Phases
    never go backward. */
module TickProps {
  import opened Strconv
  import opened Records
  import opened Firestore
  import opened Storage
  import opened Twitter
  import opened Gephi
  import opened Tick

  // ---------------------------------------------------------------------------
  // The invariant

  /** What holds of a job in each phase, given the IDs of its children and of
      its children not hydrated yet. */
  predicate PhaseInv(r: RootHandle, children: set<string>, pending: set<string>) {
    && children == ListedIDs(r.node)
    && match PhaseOf(r)
       case PageFollowers => r.remaining == -1 && pending == children
       case PageFriends => r.remaining == -1 && pending == children
       case Count => r.remaining == -1 && pending == children
       case Hydrate => r.remaining == |pending|
       case BuildGraph =>
         r.remaining == 0 && pending == {} && r.followersCursor == 0 && r.friendsCursor == 0
       case Finished =>
         && r.remaining == 0 && pending == {} && !r.prepareGraph
         && r.followersCursor == 0 && r.friendsCursor == 0
  }

  /** A stored job and the children stored under it keep PhaseInv. */
  ghost predicate JobInv(s: DbState, r: RootHandle) {
    PhaseInv(r, ChildIDs(s, r.loginID, r.node.twitterID), PendingIDs(s, r.loginID, r.node.twitterID))
  }

  /** The store is consistent, every child belongs to a stored job, and every
      stored job keeps JobInv. */
  ghost predicate StoreInv(s: DbState) {
    && Consistent(s)
    && (forall k | k in s.children :: (k.0, k.1) in s.roots)
    && (forall k {:trigger JobInvAt(s, k)} | k in s.roots :: JobInvAt(s, k))
  }

  /** JobInv of the job stored under a key. */
  ghost predicate JobInvAt(s: DbState, k: RootKey)
    requires k in s.roots
  {
    JobInv(s, s.roots[k])
  }

  /** The two maps agree on every key outside the job (owner, root). */
  ghost predicate SameOutside(c: map<ChildKey, FetchedHandle>, c': map<ChildKey, FetchedHandle>, owner: string, root: string) {
    forall k: ChildKey :: (k.0 != owner || k.1 != root) ==> (k in c <==> k in c') && (k in c ==> c[k] == c'[k])
  }

  /** Children of other jobs are not disturbed by writes under one job. */
  lemma OutsideUnchanged(s: DbState, s': DbState, owner: string, root: string, o: string, r: string)
    requires SameOutside(s.children, s'.children, owner, root)
    requires o != owner || r != root
    ensures ChildIDs(s', o, r) == ChildIDs(s, o, r)
    ensures PendingIDs(s', o, r) == PendingIDs(s, o, r)
  {
    forall x ensures x in ChildIDs(s', o, r) <==> x in ChildIDs(s, o, r) {
      assert (o, r, x) in s'.children <==> (o, r, x) in s.children;
    }
  }

  /** The invariant of the whole store after a step that changed only the
      record of one job (keeping it at its key) and the children under it. */
  lemma InvFromParts(s: DbState, s': DbState, key: RootKey)
    requires StoreInv(s) && key in s.roots
    requires s'.roots.Keys == s.roots.Keys
    requires forall k | k in s.roots && k != key :: s'.roots[k] == s.roots[k]
    requires RootKeyOf(s'.roots[key]) == key
    requires SameOutside(s.children, s'.children, key.0, key.1)
    requires forall k | k in s'.children :: ChildKeyOf(k.0, s'.children[k]) == k
    requires JobInv(s', s'.roots[key])
    ensures StoreInv(s')
  {
    forall k | k in s'.children ensures (k.0, k.1) in s'.roots {
      if (k.0, k.1) != key {
        assert k in s.children;
      }
    }
    forall k | k in s'.roots ensures JobInvAt(s', k) {
      if k != key {
        var r := s.roots[k];
        assert RootKeyOf(r) == k && JobInvAt(s, k);
        OutsideUnchanged(s, s', key.0, key.1, k.0, k.1);
      }
    }
  }

  /** The pending child IDs of a job are the child components of its pending
      keys. */
  lemma PendingIDsOfKeys(s: DbState, owner: string, root: string)
    ensures PendingIDs(s, owner, root) == set k | k in PendingKeys(s, owner, root) :: k.2
    ensures PendingIDs(s, owner, root) == {} <==> PendingKeys(s, owner, root) == {}
  {
    if PendingKeys(s, owner, root) != {} {
      var k :| k in PendingKeys(s, owner, root);
      assert k.2 in PendingIDs(s, owner, root);
    }
  }

  // ---------------------------------------------------------------------------
  // Paging

  function Other(kind: ListKind): ListKind {
    if kind == Friends then Followers else Friends
  }

  /** The distinct IDs a node lists grow by exactly the appended IDs. */
  lemma ListedIDsAppend(n: GephiNode, kind: ListKind, added: seq<string>)
    ensures ListedIDs(WithIDList(n, kind, IDList(n, kind) + added)) == ListedIDs(n) + (set x | x in added)
  {
    var n' := WithIDList(n, kind, IDList(n, kind) + added);
    forall x ensures x in ListedIDs(n') <==> x in ListedIDs(n) + (set x | x in added) {
      assert x in IDList(n, kind) + added <==> x in IDList(n, kind) || x in added;
    }
  }

  /** Writing the children of a page under a job adds the page's IDs to the
      job's children and to its pending children, and touches no other job. */
  lemma PagedChildren(s: DbState, owner: string, rel: string, root: string, ids: seq<string>)
    ensures var s' := s.(children := s.children + ChildMap(owner, rel, root, ids));
      && ChildIDs(s', owner, root) == ChildIDs(s, owner, root) + (set x | x in ids)
      && PendingIDs(s', owner, root) == PendingIDs(s, owner, root) + (set x | x in ids)
      && SameOutside(s.children, s'.children, owner, root)
  {
    var s' := s.(children := s.children + ChildMap(owner, rel, root, ids));
    ChildMapFacts(owner, rel, root, ids);
    forall x ensures x in ChildIDs(s', owner, root) <==> x in ChildIDs(s, owner, root) + (set x | x in ids) {
      assert (owner, root, x) in s'.children <==> (owner, root, x) in s.children || x in ids;
    }
    forall x ensures x in PendingIDs(s', owner, root) <==> x in PendingIDs(s, owner, root) + (set x | x in ids) {
      var k := (owner, root, x);
      if x in ids {
        assert k in s'.children && !s'.children[k].node.done;
      } else {
        assert k in s'.children <==> k in s.children;
        assert k in s.children ==> s'.children[k] == s.children[k];
      }
    }
  }

  /** A paging step (followers or friends, by kind) on a job that fetched its
      page: the result is the "Fetched N ... IDs" message; that cursor becomes
      the page's next cursor while the other cursor, Remaining and the flags
      stay; the page's IDs are appended to the job's list; the job is saved at
      its key; one unhydrated child tagged with the list's relationship is
      written per ID under the job, and nothing else is written. */
  lemma PagingEffect(s: DbState, api: Upstream, loginID: string, job: RootHandle, p: Picks, kind: ListKind)
    requires Admissible(s, loginID, job, p)
    requires PhaseOf(job) == (if kind == Followers then PageFollowers else PageFriends)
    requires FetchIDs(api, job.node.twitterID, kind, Cursor(job, kind)).Ok?
    ensures var page := FetchIDs(api, job.node.twitterID, kind, Cursor(job, kind)).value;
      var added := FormatAll(page.ids);
      var o := TickSpec(s, api, loginID, job, p);
      && o.result == Ok(PageMessage(kind, |page.ids|))
      && Cursor(o.job, kind) == page.nextCursor
      && Cursor(o.job, Other(kind)) == Cursor(job, Other(kind))
      && o.job.remaining == job.remaining && o.job.prepareGraph == job.prepareGraph
      && o.job.node.done == job.node.done && RootKeyOf(o.job) == RootKeyOf(job)
      && IDList(o.job.node, kind) == IDList(job.node, kind) + added
      && IDList(o.job.node, Other(kind)) == IDList(job.node, Other(kind))
      && o.state.roots == s.roots[RootKeyOf(job) := o.job]
      && o.state.users == s.users && o.state.objects == s.objects
      && (forall i :: 0 <= i < |added| ==>
            && (loginID, job.node.twitterID, added[i]) in o.state.children
            && o.state.children[(loginID, job.node.twitterID, added[i])] ==
               BareChild(job.node.twitterID, RelationshipOf(kind), added[i]))
      && (forall k | k in o.state.children ::
            k in s.children || (k.0 == loginID && k.1 == job.node.twitterID && k.2 in added))
  {
    var page := FetchIDs(api, job.node.twitterID, kind, Cursor(job, kind)).value;
    var added := FormatAll(page.ids);
    ChildMapFacts(loginID, RelationshipOf(kind), job.node.twitterID, added);
    forall i | 0 <= i < |added|
      ensures (loginID, job.node.twitterID, added[i]) in ChildMap(loginID, RelationshipOf(kind), job.node.twitterID, added)
    {
      assert added[i] in added;
    }
  }

  /** A cursor that is 0 stays 0: no branch assigns an exhausted cursor, neither
      in the caller's record nor in the stored one. */
  lemma CursorZeroStable(s: DbState, api: Upstream, loginID: string, job: RootHandle, p: Picks, kind: ListKind)
    requires Admissible(s, loginID, job, p)
    requires Cursor(job, kind) == 0
    requires RootKeyOf(job) in s.roots ==> Cursor(s.roots[RootKeyOf(job)], kind) == 0
    ensures var o := TickSpec(s, api, loginID, job, p);
      && Cursor(o.job, kind) == 0
      && (RootKeyOf(job) in o.state.roots ==> Cursor(o.state.roots[RootKeyOf(job)], kind) == 0)
  {
    match PhaseOf(job)
    case PageFollowers => PagedCursorZero(s, api, loginID, job, Followers, kind);
    case PageFriends => PagedCursorZero(s, api, loginID, job, Friends, kind);
    case Hydrate =>
      if RootKeyOf(job) in s.roots && p.child.Some? {
        var stored := s.roots[RootKeyOf(job)];
        assert p.child.value in PendingKeys(s, loginID, stored.node.twitterID);
        TxCursorZero(s, api, loginID, job, p.child.value, kind);
      }
    case _ =>
  }

  lemma PagedCursorZero(s: DbState, api: Upstream, loginID: string, job: RootHandle, paged: ListKind, kind: ListKind)
    requires Cursor(job, paged) != 0 && Cursor(job, kind) == 0
    requires RootKeyOf(job) in s.roots ==> Cursor(s.roots[RootKeyOf(job)], kind) == 0
    ensures var o := PageSpec(s, api, loginID, job, paged);
      && Cursor(o.job, kind) == 0
      && (RootKeyOf(job) in o.state.roots ==> Cursor(o.state.roots[RootKeyOf(job)], kind) == 0)
  {
  }

  lemma TxCursorZero(s: DbState, api: Upstream, loginID: string, job: RootHandle, ck: ChildKey, kind: ListKind)
    requires RootKeyOf(job) in s.roots && ck in s.children
    requires Cursor(s.roots[RootKeyOf(job)], kind) == 0
    ensures var o := TxSpec(s, api, loginID, job, Some(ck));
      RootKeyOf(job) in o.state.roots ==> Cursor(o.state.roots[RootKeyOf(job)], kind) == 0
  {
  }

  // ---------------------------------------------------------------------------
  // Counting, preparing, hydrating, building

  /** The counting step on the example lists [1, 2, 3] and [2, 3, 4]: four
      distinct IDs are enqueued. */
  lemma CountExample(s: DbState, api: Upstream, loginID: string, job: RootHandle, p: Picks)
    requires Admissible(s, loginID, job, p)
    requires PhaseOf(job) == Count
    requires job.node.friendIDs == ["1", "2", "3"] && job.node.followerIDs == ["2", "3", "4"]
    ensures var o := TickSpec(s, api, loginID, job, p);
      o.job.remaining == 4 && o.state.roots[RootKeyOf(job)].remaining == 4
  {
    assert (set f | f in job.node.friendIDs) == {"1", "2", "3"};
    assert (set f | f in job.node.followerIDs) == {"2", "3", "4"};
    assert ListedIDs(job.node) == {"1", "2", "3", "4"};
  }

  /** With no pending child the transaction switches the stored job to graph
      building: PrepareGraph set, Remaining 0, "Preparing graph", and no child
      and no other job changes. */
  lemma PrepareEffect(s: DbState, api: Upstream, loginID: string, job: RootHandle, p: Picks)
    requires Consistent(s) && Admissible(s, loginID, job, p)
    requires PhaseOf(job) == Hydrate && RootKeyOf(job) in s.roots && p.child.None?
    ensures var stored := s.roots[RootKeyOf(job)];
      var o := TickSpec(s, api, loginID, job, p);
      && PendingIDs(s, loginID, stored.node.twitterID) == {}
      && o.result == Ok("Preparing graph") && o.job == job
      && o.state == s.(roots := s.roots[RootKeyOf(job) :=
           stored.(prepareGraph := true, remaining := 0, status := "Preparing graph")])
  {
    var stored := s.roots[RootKeyOf(job)];
    PendingIDsOfKeys(s, loginID, stored.node.twitterID);
  }

  /** Hydrating the picked child: exactly that child is rewritten, now
      hydrated; it leaves the pending set and nothing else does; the stored
      job's Remaining drops by exactly one and its Status names the child;
      the caller's record is not changed. */
  lemma HydrateEffect(s: DbState, api: Upstream, loginID: string, job: RootHandle, p: Picks)
    requires Consistent(s) && Admissible(s, loginID, job, p)
    requires PhaseOf(job) == Hydrate && RootKeyOf(job) in s.roots && p.child.Some?
    requires TickSpec(s, api, loginID, job, p).result.Ok?
    ensures var stored := s.roots[RootKeyOf(job)];
      var ck := p.child.value;
      var o := TickSpec(s, api, loginID, job, p);
      && ck in s.children && !s.children[ck].node.done
      && ck in o.state.children && o.state.children[ck].node.done
      && o.state.children == s.children[ck := o.state.children[ck]]
      && PendingIDs(o.state, loginID, job.node.twitterID) == PendingIDs(s, loginID, job.node.twitterID) - {ck.2}
      && ck.2 in PendingIDs(s, loginID, job.node.twitterID)
      && o.state.roots == s.roots[RootKeyOf(job) :=
           stored.(status := o.result.value, remaining := stored.remaining - 1)]
      && o.job == job
  {
    var stored := s.roots[RootKeyOf(job)];
    var ck := p.child.value;
    assert ck in PendingKeys(s, loginID, stored.node.twitterID);
    assert RootKeyOf(stored) == RootKeyOf(job);
    var h := s.children[ck];
    assert ChildKeyOf(ck.0, h) == ck;
    var o := TickSpec(s, api, loginID, job, p);
    var u := GetTwitterUser(api, h.node.twitterID).value;
    var node := ExpandChild(api, h.node, u).value;
    var hydrated := Hydrated(FetchedHandle(h.parentID, node), u);
    assert ChildKeyOf(loginID, hydrated) == ck;
    assert o.state.children == s.children[ck := hydrated];
    HydratedLeavesPending(s, o.state, ck, hydrated);
  }

  /** Rewriting one pending child as hydrated removes exactly its ID from the
      pending set of its job. */
  lemma HydratedLeavesPending(s: DbState, s': DbState, ck: ChildKey, h: FetchedHandle)
    requires ck in s.children && !s.children[ck].node.done && h.node.done
    requires s'.children == s.children[ck := h]
    ensures PendingIDs(s', ck.0, ck.1) == PendingIDs(s, ck.0, ck.1) - {ck.2}
    ensures ck.2 in PendingIDs(s, ck.0, ck.1)
    ensures ChildIDs(s', ck.0, ck.1) == ChildIDs(s, ck.0, ck.1)
    ensures SameOutside(s.children, s'.children, ck.0, ck.1)
  {
    forall x ensures x in PendingIDs(s', ck.0, ck.1) <==> x in PendingIDs(s, ck.0, ck.1) - {ck.2} {
      var k := (ck.0, ck.1, x);
      if x != ck.2 {
        assert k in s'.children <==> k in s.children;
      }
    }
    forall x ensures x in ChildIDs(s', ck.0, ck.1) <==> x in ChildIDs(s, ck.0, ck.1) {
      assert (ck.0, ck.1, x) in s'.children <==> (ck.0, ck.1, x) in s.children;
    }
  }

  /** The graph step stores the GML file of the root and the job's hydrated
      children, each exactly once, at graphs/<owner>/<root ID> as an attachment
      named after the screen name; the job comes back with an empty Status, the
      flag cleared and the node done, is saved at its key, and no child
      changes. */
  lemma GraphEffect(s: DbState, api: Upstream, loginID: string, job: RootHandle, p: Picks)
    requires Admissible(s, loginID, job, p) && PhaseOf(job) == BuildGraph
    ensures var o := TickSpec(s, api, loginID, job, p);
      var fetched := DoneHandles(s, p.doneKeys);
      && o.result == Ok("Graph built")
      && o.job == job.(status := "", prepareGraph := false, node := job.node.(done := true))
      && GraphPath(job) == "graphs/" + job.loginID + "/" + job.node.twitterID
      && o.state.objects == s.objects[GraphPath(job) :=
           StoredObject(GraphFile(job.node, fetched, p.edgeOrder),
                        "Attachment; filename=" + job.node.screenName + ".gml")]
      && (forall i :: 0 <= i < |fetched| ==>
            p.doneKeys[i] in DoneKeys(s, job.loginID, job.node.twitterID) &&
            fetched[i] == s.children[p.doneKeys[i]])
      && (forall k | k in DoneKeys(s, job.loginID, job.node.twitterID) :: k in p.doneKeys)
      && o.state.children == s.children && o.state.users == s.users
      && o.state.roots == s.roots[RootKeyOf(job) := o.job]
  {
    forall i | 0 <= i < |p.doneKeys| ensures p.doneKeys[i] in DoneKeys(s, job.loginID, job.node.twitterID) {
      assert p.doneKeys[i] in p.doneKeys;
    }
  }

  /** A failed tick changes neither the caller's record nor the store. */
  lemma TickFailsCleanly(s: DbState, api: Upstream, loginID: string, job: RootHandle, p: Picks)
    requires Admissible(s, loginID, job, p)
    ensures var o := TickSpec(s, api, loginID, job, p);
      o.result.Err? ==> o.job == job && o.state == s
    ensures job.node.done ==>
      TickSpec(s, api, loginID, job, p) == Outcome(Err(AlreadyDone(job.node.twitterID)), job, s)
  {
  }

  // ---------------------------------------------------------------------------
  // Preservation

  lemma PagingKeepsInv(s: DbState, api: Upstream, job: RootHandle, kind: ListKind)
    requires StoreInv(s) && RootKeyOf(job) in s.roots && s.roots[RootKeyOf(job)] == job
    requires PhaseOf(job) == (if kind == Followers then PageFollowers else PageFriends)
    ensures var s' := PageSpec(s, api, job.loginID, job, kind).state;
      && StoreInv(s')
      && RootKeyOf(job) in s'.roots
      && Rank(PhaseOf(s'.roots[RootKeyOf(job)])) >= Rank(PhaseOf(job))
  {
    var fetched := FetchIDs(api, job.node.twitterID, kind, Cursor(job, kind));
    if fetched.Ok? {
      PagedStoreInv(s, job, kind, fetched.value);
    }
  }

  /** The store after a page of IDs is appended to a job in a paging phase and
      one child per ID is written under it. */
  lemma PagedStoreInv(s: DbState, job: RootHandle, kind: ListKind, page: IDPage)
    requires StoreInv(s) && RootKeyOf(job) in s.roots && s.roots[RootKeyOf(job)] == job
    requires PhaseOf(job) == (if kind == Followers then PageFollowers else PageFriends)
    ensures var added := FormatAll(page.ids);
      var r' := Paged(job, kind, page);
      var s' := s.(children := s.children + ChildMap(job.loginID, RelationshipOf(kind), job.node.twitterID, added),
                   roots := s.roots[RootKeyOf(job) := r']);
      StoreInv(s') && Rank(PhaseOf(r')) >= Rank(PhaseOf(job))
  {
    var key := RootKeyOf(job);
    var owner, root := job.loginID, job.node.twitterID;
    var added := FormatAll(page.ids);
    var rel := RelationshipOf(kind);
    var r' := Paged(job, kind, page);
    assert JobInvAt(s, key);
    var mid := s.(children := s.children + ChildMap(owner, rel, root, added));
    var s' := mid.(roots := s.roots[key := r']);
    PagedChildren(s, owner, rel, root, added);
    PagedPhaseInv(job, kind, page, ChildIDs(s, owner, root), PendingIDs(s, owner, root));
    assert ChildIDs(s', owner, root) == ChildIDs(mid, owner, root);
    assert PendingIDs(s', owner, root) == PendingIDs(mid, owner, root);
    assert RootKeyOf(r') == key;
    ChildMapFacts(owner, rel, root, added);
    InvFromParts(s, s', key);
  }

  /** A page appended to a job in a paging phase, with its IDs added to the
      job's children and pending children, keeps PhaseInv, and the phase does
      not go back. */
  lemma PagedPhaseInv(job: RootHandle, kind: ListKind, page: IDPage, children: set<string>, pending: set<string>)
    requires PhaseInv(job, children, pending)
    requires PhaseOf(job) == (if kind == Followers then PageFollowers else PageFriends)
    ensures var added := set x | x in FormatAll(page.ids);
      && PhaseInv(Paged(job, kind, page), children + added, pending + added)
      && Rank(PhaseOf(Paged(job, kind, page))) >= Rank(PhaseOf(job))
  {
    ListedIDsAppend(job.node, kind, FormatAll(page.ids));
  }

  lemma CountKeepsInv(s: DbState, job: RootHandle)
    requires StoreInv(s) && RootKeyOf(job) in s.roots && s.roots[RootKeyOf(job)] == job
    requires PhaseOf(job) == Count
    ensures var s' := CountSpec(s, job).state;
      && StoreInv(s')
      && RootKeyOf(job) in s'.roots
      && Rank(PhaseOf(s'.roots[RootKeyOf(job)])) >= Rank(PhaseOf(job))
  {
    var s' := CountSpec(s, job).state;
    assert JobInvAt(s, RootKeyOf(job));
    assert ChildIDs(s', job.loginID, job.node.twitterID) == ChildIDs(s, job.loginID, job.node.twitterID);
    assert PendingIDs(s', job.loginID, job.node.twitterID) == PendingIDs(s, job.loginID, job.node.twitterID);
    InvFromParts(s, s', RootKeyOf(job));
  }

  lemma TxKeepsInv(s: DbState, api: Upstream, job: RootHandle, c: Option<ChildKey>)
    requires StoreInv(s) && RootKeyOf(job) in s.roots && s.roots[RootKeyOf(job)] == job
    requires PhaseOf(job) == Hydrate
    requires ChildPicked(s, job.loginID, job.node.twitterID, c)
    ensures c.Some? ==> c.value in s.children
    ensures var s' := TxSpec(s, api, job.loginID, job, c).state;
      && StoreInv(s')
      && RootKeyOf(job) in s'.roots
      && Rank(PhaseOf(s'.roots[RootKeyOf(job)])) >= Rank(PhaseOf(job))
  {
    if c.None? {
      PrepareKeepsInv(s, api, job);
    } else {
      assert c.value in PendingKeys(s, job.loginID, job.node.twitterID);
      HydrateKeepsInv(s, api, job, c.value);
    }
  }

  lemma PrepareKeepsInv(s: DbState, api: Upstream, job: RootHandle)
    requires StoreInv(s) && RootKeyOf(job) in s.roots && s.roots[RootKeyOf(job)] == job
    requires PhaseOf(job) == Hydrate
    requires PendingKeys(s, job.loginID, job.node.twitterID) == {}
    ensures var s' := TxSpec(s, api, job.loginID, job, None).state;
      && StoreInv(s')
      && RootKeyOf(job) in s'.roots
      && Rank(PhaseOf(s'.roots[RootKeyOf(job)])) >= Rank(PhaseOf(job))
  {
    var owner, root := job.loginID, job.node.twitterID;
    var s' := TxSpec(s, api, owner, job, None).state;
    PendingIDsOfKeys(s, owner, root);
    assert JobInvAt(s, RootKeyOf(job));
    assert ChildIDs(s', owner, root) == ChildIDs(s, owner, root);
    assert PendingIDs(s', owner, root) == PendingIDs(s, owner, root);
    InvFromParts(s, s', RootKeyOf(job));
  }

  lemma HydrateKeepsInv(s: DbState, api: Upstream, job: RootHandle, ck: ChildKey)
    requires StoreInv(s) && RootKeyOf(job) in s.roots && s.roots[RootKeyOf(job)] == job
    requires PhaseOf(job) == Hydrate
    requires ck in PendingKeys(s, job.loginID, job.node.twitterID)
    ensures var s' := TxSpec(s, api, job.loginID, job, Some(ck)).state;
      && StoreInv(s')
      && RootKeyOf(job) in s'.roots
      && Rank(PhaseOf(s'.roots[RootKeyOf(job)])) >= Rank(PhaseOf(job))
  {
    var o := TxSpec(s, api, job.loginID, job, Some(ck));
    if o.result.Ok? {
      var h := s.children[ck];
      var u := GetTwitterUser(api, h.node.twitterID).value;
      var node := ExpandChild(api, h.node, u).value;
      var hydrated := Hydrated(FetchedHandle(h.parentID, node), u);
      var msg := "Fetched " + hydrated.node.screenName;
      assert o.state == s.(children := s.children[ChildKeyOf(job.loginID, hydrated) := hydrated],
                           roots := s.roots[RootKeyOf(Decremented(job, msg)) := Decremented(job, msg)]);
      HydratedStoreInv(s, ck, hydrated, job, msg);
    }
  }

  /** Decrementing a job in the hydration phase as one of its pending children
      is hydrated keeps PhaseInv and the phase. */
  lemma DecrementedPhaseInv(r: RootHandle, msg: string, children: set<string>, pending: set<string>, id: string)
    requires PhaseInv(r, children, pending) && PhaseOf(r) == Hydrate && id in pending
    ensures PhaseInv(Decremented(r, msg), children, pending - {id})
    ensures PhaseOf(Decremented(r, msg)) == Hydrate
  {
    assert |pending - {id}| == |pending| - 1;
  }

  /** The store after one pending child of a job in the hydration phase is
      rewritten as hydrated and the job's Remaining is decremented. */
  lemma HydratedStoreInv(s: DbState, ck: ChildKey, hydrated: FetchedHandle, r: RootHandle, msg: string)
    requires StoreInv(s) && RootKeyOf(r) in s.roots && s.roots[RootKeyOf(r)] == r && PhaseOf(r) == Hydrate
    requires ck in PendingKeys(s, r.loginID, r.node.twitterID)
    requires hydrated.node.done && ChildKeyOf(ck.0, hydrated) == ck
    ensures var s' := s.(children := s.children[ChildKeyOf(r.loginID, hydrated) := hydrated],
                         roots := s.roots[RootKeyOf(Decremented(r, msg)) := Decremented(r, msg)]);
      && StoreInv(s')
      && RootKeyOf(r) in s'.roots && PhaseOf(s'.roots[RootKeyOf(r)]) == Hydrate
  {
    var key := RootKeyOf(r);
    var r' := Decremented(r, msg);
    assert RootKeyOf(r') == key && ChildKeyOf(r.loginID, hydrated) == ck;
    var mid := s.(children := s.children[ck := hydrated]);
    var s' := mid.(roots := s.roots[key := r']);
    assert JobInvAt(s, key);
    HydratedLeavesPending(s, mid, ck, hydrated);
    DecrementedPhaseInv(r, msg, ChildIDs(s, key.0, key.1), PendingIDs(s, key.0, key.1), ck.2);
    assert ChildIDs(s', key.0, key.1) == ChildIDs(mid, key.0, key.1);
    assert PendingIDs(s', key.0, key.1) == PendingIDs(mid, key.0, key.1);
    InvFromParts(s, s', key);
  }

  lemma GraphKeepsInv(s: DbState, job: RootHandle, p: Picks)
    requires StoreInv(s) && RootKeyOf(job) in s.roots && s.roots[RootKeyOf(job)] == job
    requires PhaseOf(job) == BuildGraph && Admissible(s, job.loginID, job, p)
    ensures var s' := GraphSpec(s, job, p).state;
      && StoreInv(s')
      && RootKeyOf(job) in s'.roots
      && Rank(PhaseOf(s'.roots[RootKeyOf(job)])) >= Rank(PhaseOf(job))
  {
    var content := GraphFile(job.node, DoneHandles(s, p.doneKeys), p.edgeOrder);
    BuiltKeepsInv(s, job, StoredObject(content, Disposition(job)));
  }

  /** Storing the graph file and marking the job built keeps the invariant,
      whatever the file holds. */
  lemma BuiltKeepsInv(s: DbState, job: RootHandle, obj: StoredObject)
    requires StoreInv(s) && RootKeyOf(job) in s.roots && s.roots[RootKeyOf(job)] == job
    requires PhaseOf(job) == BuildGraph
    ensures var s' := s.(objects := s.objects[GraphPath(job) := obj], roots := s.roots[RootKeyOf(Built(job)) := Built(job)]);
      && StoreInv(s')
      && RootKeyOf(job) in s'.roots
      && Rank(PhaseOf(s'.roots[RootKeyOf(job)])) >= Rank(PhaseOf(job))
  {
    var s' := s.(objects := s.objects[GraphPath(job) := obj], roots := s.roots[RootKeyOf(Built(job)) := Built(job)]);
    assert JobInvAt(s, RootKeyOf(job));
    assert ChildIDs(s', job.loginID, job.node.twitterID) == ChildIDs(s, job.loginID, job.node.twitterID);
    assert PendingIDs(s', job.loginID, job.node.twitterID) == PendingIDs(s, job.loginID, job.node.twitterID);
    InvFromParts(s, s', RootKeyOf(job));
  }

  /** Every tick the driver makes on a stored job keeps the store invariant,
      and the stored job's phase never goes backward. */
  lemma TickPreservesInv(s: DbState, api: Upstream, job: RootHandle, p: Picks)
    requires StoreInv(s) && RootKeyOf(job) in s.roots && s.roots[RootKeyOf(job)] == job
    requires Admissible(s, job.loginID, job, p)
    ensures var s' := TickSpec(s, api, job.loginID, job, p).state;
      && StoreInv(s')
      && RootKeyOf(job) in s'.roots
      && Rank(PhaseOf(s'.roots[RootKeyOf(job)])) >= Rank(PhaseOf(job))
  {
    match PhaseOf(job)
    case Finished =>
    case BuildGraph => GraphKeepsInv(s, job, p);
    case PageFollowers => PagingKeepsInv(s, api, job, Followers);
    case PageFriends => PagingKeepsInv(s, api, job, Friends);
    case Count => CountKeepsInv(s, job);
    case Hydrate => TxKeepsInv(s, api, job, p.child);
  }

  /** Between the two states nothing changed but the record of the job, the
      children under it and its graph file; the users are untouched. */
  ghost predicate OnlyJobChanged(s: DbState, s': DbState, job: RootHandle) {
    && s'.users == s.users
    && (forall k | k != RootKeyOf(job) :: (k in s'.roots <==> k in s.roots) && (k in s.roots ==> s'.roots[k] == s.roots[k]))
    && SameOutside(s.children, s'.children, job.loginID, job.node.twitterID)
    && (forall path | path != GraphPath(job) ::
          (path in s'.objects <==> path in s.objects) && (path in s.objects ==> s'.objects[path] == s.objects[path]))
  }

  /** A tick writes nothing but the job's own record, the children under the
      job and the job's graph file. */
  lemma TickFrame(s: DbState, api: Upstream, job: RootHandle, p: Picks)
    requires Consistent(s) && Admissible(s, job.loginID, job, p)
    ensures OnlyJobChanged(s, TickSpec(s, api, job.loginID, job, p).state, job)
  {
    match PhaseOf(job)
    case PageFollowers => PagingFrame(s, api, job, Followers);
    case PageFriends => PagingFrame(s, api, job, Friends);
    case Hydrate =>
      var key := RootKeyOf(job);
      if key in s.roots && p.child.Some? {
        assert p.child.value in PendingKeys(s, job.loginID, s.roots[key].node.twitterID);
        HydrateFrame(s, api, job, p.child.value);
      }
    case _ =>
  }

  lemma PagingFrame(s: DbState, api: Upstream, job: RootHandle, kind: ListKind)
    ensures OnlyJobChanged(s, PageSpec(s, api, job.loginID, job, kind).state, job)
  {
    var fetched := FetchIDs(api, job.node.twitterID, kind, Cursor(job, kind));
    if fetched.Ok? {
      PagedChildren(s, job.loginID, RelationshipOf(kind), job.node.twitterID, FormatAll(fetched.value.ids));
    }
  }

  lemma HydrateFrame(s: DbState, api: Upstream, job: RootHandle, ck: ChildKey)
    requires Consistent(s) && RootKeyOf(job) in s.roots
    requires ck in PendingKeys(s, job.loginID, s.roots[RootKeyOf(job)].node.twitterID)
    ensures OnlyJobChanged(s, TxSpec(s, api, job.loginID, job, Some(ck)).state, job)
  {
    var key := RootKeyOf(job);
    var stored := s.roots[key];
    assert RootKeyOf(stored) == key;
    var o := TxSpec(s, api, job.loginID, job, Some(ck));
    if o.result.Ok? {
      var h := s.children[ck];
      assert ChildKeyOf(ck.0, h) == ck;
      var u := GetTwitterUser(api, h.node.twitterID).value;
      var node := ExpandChild(api, h.node, u).value;
      var hydrated := Hydrated(FetchedHandle(h.parentID, node), u);
      assert ChildKeyOf(job.loginID, hydrated) == ck;
    }
  }

  /** A job newRootHandle creates starts out keeping the invariant: it lists
      no IDs and, as no child belongs to a job that is not stored, has none. */
  lemma NewRootKeepsInv(s: DbState, userID: string, user: TwitterUser)
    requires StoreInv(s) && (userID, user.idStr) !in s.roots
    ensures StoreInv(s.(roots := s.roots[(userID, user.idStr) := InitialRoot(userID, user)]))
  {
    var s' := s.(roots := s.roots[(userID, user.idStr) := InitialRoot(userID, user)]);
    assert ChildIDs(s', userID, user.idStr) == {} by {
      forall x ensures (userID, user.idStr, x) !in s.children {
      }
    }
    assert PendingIDs(s', userID, user.idStr) == {} by {
      assert PendingIDs(s', userID, user.idStr) <= ChildIDs(s', userID, user.idStr);
    }
    assert ListedIDs(InitialRoot(userID, user).node) == {};
    forall k | k in s'.roots ensures JobInvAt(s', k) {
      if k != (userID, user.idStr) {
        assert JobInvAt(s, k);
        assert s'.roots[k] == s.roots[k];
        assert ChildIDs(s', k.0, k.1) == ChildIDs(s, k.0, k.1);
        assert PendingIDs(s', k.0, k.1) == PendingIDs(s, k.0, k.1);
        assert RootKeyOf(s.roots[k]) == k;
      }
    }
  }
}
