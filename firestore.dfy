/** The document store the backend keeps its state in, and the object store the
    finished graphs go to, as maps. Documents live at
      User/{login}                                          the application user
      User/{login}/RootHandle/{root}                        a job
      User/{login}/RootHandle/{root}/FetchedHandle/{child}  a child of a job
    and graph files at a path of the storage bucket. Every write goes through
    one atomic commit of a sequence of operations; the commits are recorded in
    order so that batch sizes and write order can be stated. */
module Firestore {
  import opened Records

  /** (owner login ID, root account ID) */
  type RootKey = (string, string)

  /** (owner login ID, parent account ID, child account ID) */
  type ChildKey = (string, string, string)

  /** A graph file in the bucket with its Content-Disposition attribute. */
  datatype StoredObject = StoredObject(content: string, contentDisposition: string)

  /** The document a job record is saved to: owner and root ID from the record. */
  function RootKeyOf(r: RootHandle): RootKey {
    (r.loginID, r.node.twitterID)
  }

  /** The document a child record of the given owner is saved to. */
  function ChildKeyOf(owner: string, h: FetchedHandle): ChildKey {
    (owner, h.parentID, h.node.twitterID)
  }

  /** One write: a whole-document Set, a Delete, the Status-only Update of a job,
      an object upload, or the update of an object's Content-Disposition. */
  datatype Op =
    | SetRoot(root: RootHandle)
    | SetChild(owner: string, child: FetchedHandle)
    | DeleteRoot(rootKey: RootKey)
    | DeleteChild(childKey: ChildKey)
    | UpdateStatus(statusKey: RootKey, status: string)
    | PutObject(path: string, object: StoredObject)
    | SetDisposition(objectPath: string, disposition: string)

  /** The contents of both stores at one moment. */
  datatype DbState = DbState(
    users: map<string, User>,
    roots: map<RootKey, RootHandle>,
    children: map<ChildKey, FetchedHandle>,
    objects: map<string, StoredObject>)

  function Apply(s: DbState, op: Op): DbState {
    match op
    case SetRoot(r) => s.(roots := s.roots[RootKeyOf(r) := r])
    case SetChild(o, h) => s.(children := s.children[ChildKeyOf(o, h) := h])
    case DeleteRoot(k) => s.(roots := s.roots - {k})
    case DeleteChild(k) => s.(children := s.children - {k})
    case UpdateStatus(k, msg) =>
      if k in s.roots then s.(roots := s.roots[k := s.roots[k].(status := msg)]) else s
    case PutObject(p, obj) => s.(objects := s.objects[p := obj])
    case SetDisposition(p, d) =>
      if p in s.objects then s.(objects := s.objects[p := s.objects[p].(contentDisposition := d)]) else s
  }

  /** The state after applying the operations in order. */
  function ApplyAll(s: DbState, ops: seq<Op>): DbState {
    if ops == [] then s else Apply(ApplyAll(s, ops[..|ops| - 1]), ops[|ops| - 1])
  }

  lemma {:induction false} ApplyAllAppend(s: DbState, a: seq<Op>, b: seq<Op>)
    ensures ApplyAll(s, a + b) == ApplyAll(ApplyAll(s, a), b)
    decreases |b|
  {
    if b == [] {
      assert a + b == a;
    } else {
      assert (a + b)[..|a + b| - 1] == a + b[..|b| - 1];
      ApplyAllAppend(s, a, b[..|b| - 1]);
    }
  }

  /** A two-write commit applies its writes in order. */
  lemma ApplyTwo(s: DbState, a: Op, b: Op)
    ensures ApplyAll(s, [a, b]) == Apply(Apply(s, a), b)
  {
    assert [a, b][..1] == [a];
    assert [a][..0] == [];
    assert ApplyAll(s, [a]) == Apply(s, a);
  }

  /** The writes of a sequence of commits (or, in the first version, of calls),
      in commit order. */
  function Flatten<W>(commits: seq<seq<W>>): seq<W> {
    if commits == [] then [] else Flatten(commits[..|commits| - 1]) + commits[|commits| - 1]
  }

  lemma FlattenAppend<W>(commits: seq<seq<W>>, c: seq<W>)
    ensures Flatten(commits + [c]) == Flatten(commits) + c
  {
    assert (commits + [c])[..|commits|] == commits;
  }

  /** Every stored record sits at the key its own fields name. */
  ghost predicate Consistent(s: DbState) {
    && (forall k | k in s.roots :: RootKeyOf(s.roots[k]) == k)
    && (forall k | k in s.children :: ChildKeyOf(k.0, s.children[k]) == k)
  }

  /** The child IDs stored under a job. */
  function ChildIDs(s: DbState, owner: string, root: string): set<string> {
    set k | k in s.children && k.0 == owner && k.1 == root :: k.2
  }

  /** The child IDs under a job that are not hydrated yet. */
  function PendingIDs(s: DbState, owner: string, root: string): set<string> {
    set k | k in s.children && k.0 == owner && k.1 == root && !s.children[k].node.done :: k.2
  }

  /** The keys of the hydrated children of a job. */
  function DoneKeys(s: DbState, owner: string, root: string): set<ChildKey> {
    set k | k in s.children && k.0 == owner && k.1 == root && s.children[k].node.done
  }

  /** The keys of all children of a job. */
  function ChildKeys(s: DbState, owner: string, root: string): set<ChildKey> {
    set k | k in s.children && k.0 == owner && k.1 == root
  }

  /** Both stores, with the log of every commit made so far. */
  class Store {
    var users: map<string, User>
    var roots: map<RootKey, RootHandle>
    var children: map<ChildKey, FetchedHandle>
    var objects: map<string, StoredObject>
    ghost var log: seq<seq<Op>>

    function State(): DbState
      reads this
    {
      DbState(users, roots, children, objects)
    }

    constructor (s: DbState)
      ensures State() == s && log == []
    {
      users := s.users;
      roots := s.roots;
      children := s.children;
      objects := s.objects;
      log := [];
    }

    /** One atomic commit (a single write, a batch or a transaction's writes). */
    method Commit(ops: seq<Op>)
      modifies this
      ensures State() == ApplyAll(old(State()), ops)
      ensures log == old(log) + [ops]
    {
      var s := ApplyAll(State(), ops);
      users := s.users;
      roots := s.roots;
      children := s.children;
      objects := s.objects;
      log := log + [ops];
    }
  }
}
