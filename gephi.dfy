/** The graph exporter: turns a job's root node and its hydrated children into a
    GML file with one node block per node and one edge block per distinct
    directed edge between accounts of the root's immediate neighbourhood. */
module Gephi {
  import opened Strconv
  import opened Records
  import opened Strings

  const Header: string := "graph [\n  directed 1"
  const Footer: string := "\n]"
  const NodeOpen: string := " \n  node [ \n    id "
  const EdgeOpen: string := " \n  edge [ \n    source "
  const BlockClose: string := " \n  ]"

  /** An in-memory byte buffer (bytes.Buffer) that text is appended to. */
  class Buffer {
    var contents: string

    constructor ()
      ensures contents == []
    {
      contents := [];
    }

    method Write(s: string)
      modifies this
      ensures contents == old(contents) + s
    {
      contents := contents + s;
    }
  }

  /** writeNode: the node block of one account, its fields interpolated
      unescaped, as the pieces it is written from. */
  function NodePieces(n: GephiNode): seq<string> {
    [NodeOpen, n.twitterID,
     " \n    user_id \"", n.twitterID,
     "\" \n    label \"", n.screenName,
     "\" \n    type \"", n.relationship,
     "\" \n    profile_url \"", n.profileURL,
     "\"\n    description \"", n.description,
     "\"\n    profile_image_url \"", n.profileImageURL,
     "\"\n    friends ", FormatInt(n.friendsCount),
     " \n    followers ", FormatInt(n.followersCount),
     BlockClose]
  }

  function NodeBlock(n: GephiNode): string {
    Concat(NodePieces(n))
  }

  /** The edge block with the given source and target. */
  function EdgeBlock(source: string, target: string): string {
    EdgeOpen + source + " \n    target " + target + BlockClose
  }

  /** The key under which an edge is kept in the edge set: "source target". */
  function EdgeKey(source: string, target: string): (k: string)
    ensures ' ' in k
  {
    assert (source + " " + target)[|source|] == ' ';
    source + " " + target
  }

  predicate NoSpace(s: string) { ' ' !in s }

  /** When IDs contain no space, splitting an edge key at its spaces gives back
      exactly its source and its target. */
  lemma SplitEdgeKey(source: string, target: string)
    requires NoSpace(source) && NoSpace(target)
    ensures Split(EdgeKey(source, target), ' ') == [source, target]
  {
    assert EdgeKey(source, target) == source + [' '] + target;
    SplitLeadingPiece(source, ' ', target);
    SplitWithoutSeparator(target, ' ');
  }

  /** When IDs contain no space, two edge keys are equal exactly when their
      ordered (source, target) pairs are: deduplicating keys deduplicates pairs. */
  lemma EdgeKeyInjective(a: string, b: string, c: string, d: string)
    requires NoSpace(a) && NoSpace(b) && NoSpace(c) && NoSpace(d)
    ensures EdgeKey(a, b) == EdgeKey(c, d) <==> a == c && b == d
  {
    SplitEdgeKey(a, b);
    SplitEdgeKey(c, d);
  }

  /** The edge block written for a key: its first two space-separated pieces. */
  function EdgeText(key: string): string
    requires ' ' in key
  {
    SplitHasTwoPieces(key, ' ');
    var parts := Split(key, ' ');
    EdgeBlock(parts[0], parts[1])
  }

  /** An edge key splits into at least two pieces, the first two naming the
      edge's ends. */
  lemma EdgeTextSplits(key: string)
    requires ' ' in key
    ensures |Split(key, ' ')| >= 2
    ensures EdgeText(key) == EdgeBlock(Split(key, ' ')[0], Split(key, ' ')[1])
  {
    SplitHasTwoPieces(key, ' ');
  }

  /** The node blocks of a sequence of nodes, in order. */
  function NodesText(nodes: seq<GephiNode>): string {
    if nodes == [] then "" else NodesText(nodes[..|nodes| - 1]) + NodeBlock(nodes[|nodes| - 1])
  }

  /** The edge blocks of a sequence of edge keys, in order. */
  function EdgesText(keys: seq<string>): string
    requires forall k | k in keys :: ' ' in k
  {
    if keys == [] then "" else EdgesText(keys[..|keys| - 1]) + EdgeText(keys[|keys| - 1])
  }

  lemma NodesTextStep(nodes: seq<GephiNode>, i: nat)
    requires i < |nodes|
    ensures NodesText(nodes[..i + 1]) == NodesText(nodes[..i]) + NodeBlock(nodes[i])
  {
    assert nodes[..i + 1][..i] == nodes[..i];
  }

  lemma NodesTextFirst(nodes: seq<GephiNode>)
    requires nodes != []
    ensures NodesText(nodes[..1]) == NodeBlock(nodes[0])
  {
    NodesTextStep(nodes, 0);
    assert nodes[..0] == [];
    assert NodesText(nodes[..0]) + NodeBlock(nodes[0]) == NodeBlock(nodes[0]);
  }

  lemma EdgesTextAppend(keys: seq<string>, key: string)
    requires forall k | k in keys :: ' ' in k
    requires ' ' in key
    ensures EdgesText(keys + [key]) == EdgesText(keys) + EdgeText(key)
  {
    assert (keys + [key])[..|keys|] == keys;
  }

  /** The IDs that may appear as edge endpoints: the root and every ID the root
      lists as a friend or a follower. */
  function ValidIDs(root: GephiNode): set<string> {
    {root.twitterID} + ListedIDs(root)
  }

  /** The edges one node contributes: (f, node) for each of its followers f and
      (node, g) for each of its friends g, counting only endpoints in valid. */
  function NodeEdges(valid: set<string>, n: GephiNode): set<string> {
    (set f | f in n.followerIDs && f in valid :: EdgeKey(f, n.twitterID)) +
    (set g | g in n.friendIDs && g in valid :: EdgeKey(n.twitterID, g))
  }

  /** The edge set of a sequence of nodes: the union of their edges. */
  function EdgeSetOf(valid: set<string>, nodes: seq<GephiNode>): set<string> {
    if nodes == [] then {} else EdgeSetOf(valid, nodes[..|nodes| - 1]) + NodeEdges(valid, nodes[|nodes| - 1])
  }

  /** The nodes exported for a job: its root, then each fetched child in order. */
  function ExportedNodes(root: GephiNode, fetched: seq<FetchedHandle>): (nodes: seq<GephiNode>)
    ensures |nodes| == |fetched| + 1 && nodes[0] == root
    ensures forall i :: 0 <= i < |fetched| ==> nodes[i + 1] == fetched[i].node
  {
    [root] + seq(|fetched|, i requires 0 <= i < |fetched| => fetched[i].node)
  }

  /** The file for a job, given the order in which the edge set is walked (Go's
      map iteration order, which is unspecified): the header, every node block,
      every edge block, and the closing bracket. */
  function GraphFile(root: GephiNode, fetched: seq<FetchedHandle>, edgeOrder: seq<string>): string
    requires forall k | k in edgeOrder :: ' ' in k
  {
    Header + NodesText(ExportedNodes(root, fetched)) + EdgesText(edgeOrder) + Footer
  }

  lemma {:induction false} EdgeSetHasSpaces(valid: set<string>, nodes: seq<GephiNode>)
    ensures forall k | k in EdgeSetOf(valid, nodes) :: ' ' in k
    decreases |nodes|
  {
    if nodes != [] {
      EdgeSetHasSpaces(valid, nodes[..|nodes| - 1]);
    }
  }

  /** An edge is exported exactly when some exported node lists its source as a
      follower (the node being the target) or its target as a friend (the node
      being the source), and the listed endpoint is a valid ID. */
  lemma {:induction false} EdgeSetMembership(valid: set<string>, nodes: seq<GephiNode>, k: string)
    ensures k in EdgeSetOf(valid, nodes) <==>
      exists i, x :: 0 <= i < |nodes| && x in valid &&
        ((x in nodes[i].followerIDs && k == EdgeKey(x, nodes[i].twitterID)) ||
         (x in nodes[i].friendIDs && k == EdgeKey(nodes[i].twitterID, x)))
    decreases |nodes|
  {
    if nodes != [] {
      var init := nodes[..|nodes| - 1];
      EdgeSetMembership(valid, init, k);
      if k in EdgeSetOf(valid, nodes) {
        if k in EdgeSetOf(valid, init) {
          var i, x :| 0 <= i < |init| && x in valid &&
            ((x in init[i].followerIDs && k == EdgeKey(x, init[i].twitterID)) ||
             (x in init[i].friendIDs && k == EdgeKey(init[i].twitterID, x)));
          assert nodes[i] == init[i];
        } else {
          var last := |nodes| - 1;
          assert k in NodeEdges(valid, nodes[last]);
        }
      } else {
        forall i, x | 0 <= i < |nodes| && x in valid
          ensures !(x in nodes[i].followerIDs && k == EdgeKey(x, nodes[i].twitterID))
          ensures !(x in nodes[i].friendIDs && k == EdgeKey(nodes[i].twitterID, x))
        {
          if i < |init| {
            assert nodes[i] == init[i];
          }
        }
      }
    }
  }

  /** When every exported node is itself a valid ID and no ID holds a space,
      both endpoints of every exported edge are valid IDs: an ID outside the
      root's neighbourhood never appears in an edge. */
  lemma EdgeEndpointsValid(valid: set<string>, nodes: seq<GephiNode>, k: string)
    requires forall i :: 0 <= i < |nodes| ==> nodes[i].twitterID in valid
    requires forall s | s in valid :: NoSpace(s)
    requires k in EdgeSetOf(valid, nodes)
    ensures |Split(k, ' ')| == 2 && Split(k, ' ')[0] in valid && Split(k, ' ')[1] in valid
  {
    EdgeSetMembership(valid, nodes, k);
    var i, x :| 0 <= i < |nodes| && x in valid &&
      ((x in nodes[i].followerIDs && k == EdgeKey(x, nodes[i].twitterID)) ||
       (x in nodes[i].friendIDs && k == EdgeKey(nodes[i].twitterID, x)));
    if x in nodes[i].followerIDs && k == EdgeKey(x, nodes[i].twitterID) {
      SplitEdgeKey(x, nodes[i].twitterID);
    } else {
      SplitEdgeKey(nodes[i].twitterID, x);
    }
  }

  /** appendEdgeSet: adds to the edge set every edge the node contributes. */
  method AppendEdgeSet(edgeSet: set<string>, validIDs: set<string>, n: GephiNode)
    returns (edgeSet': set<string>)
    ensures edgeSet' == edgeSet + NodeEdges(validIDs, n)
  {
    edgeSet' := edgeSet;
    for i := 0 to |n.followerIDs|
      invariant edgeSet' == edgeSet +
        (set f | f in n.followerIDs[..i] && f in validIDs :: EdgeKey(f, n.twitterID))
    {
      var follower := n.followerIDs[i];
      assert n.followerIDs[..i + 1] == n.followerIDs[..i] + [follower];
      if follower in validIDs {
        edgeSet' := edgeSet' + {EdgeKey(follower, n.twitterID)};
      }
    }
    assert n.followerIDs[..|n.followerIDs|] == n.followerIDs;
    ghost var withFollowers := edgeSet';
    for i := 0 to |n.friendIDs|
      invariant edgeSet' == withFollowers +
        (set g | g in n.friendIDs[..i] && g in validIDs :: EdgeKey(n.twitterID, g))
    {
      var friend := n.friendIDs[i];
      assert n.friendIDs[..i + 1] == n.friendIDs[..i] + [friend];
      if friend in validIDs {
        edgeSet' := edgeSet' + {EdgeKey(n.twitterID, friend)};
      }
    }
    assert n.friendIDs[..|n.friendIDs|] == n.friendIDs;
  }

  /** writeEdges: one edge block per key of the set, in an unspecified order;
      the order walked is returned alongside. */
  method WriteEdges(w: Buffer, edgeSet: set<string>) returns (ghost order: seq<string>)
    requires forall k | k in edgeSet :: ' ' in k
    modifies w
    ensures Enumerates(order, edgeSet)
    ensures forall k | k in order :: ' ' in k
    ensures w.contents == old(w.contents) + EdgesText(order)
  {
    var rest := edgeSet;
    order := [];
    while rest != {}
      invariant Walked(order, rest, edgeSet)
      invariant w.contents == old(w.contents) + EdgesText(order)
      decreases |rest|
    {
      var edge :| edge in rest;
      EdgeTextSplits(edge);
      var splits := Split(edge, ' ');
      WalkStep(order, rest, edgeSet, edge);
      ConcatAssoc(old(w.contents), EdgesText(order), EdgeText(edge));
      w.Write(EdgeBlock(splits[0], splits[1]));
      order := order + [edge];
      rest := rest - {edge};
    }
  }

  /** Loop state of WriteEdges: the keys written so far, each once, are exactly
      those of the set not left to write. */
  ghost predicate Walked(order: seq<string>, rest: set<string>, edgeSet: set<string>)
  {
    && rest <= edgeSet
    && (forall k | k in edgeSet :: ' ' in k)
    && (forall i, j :: 0 <= i < j < |order| ==> order[i] != order[j])
    && (forall x :: x in order <==> x in edgeSet && x !in rest)
  }

  lemma WalkStep(order: seq<string>, rest: set<string>, edgeSet: set<string>, edge: string)
    requires Walked(order, rest, edgeSet) && edge in rest
    ensures forall k | k in order :: ' ' in k
    ensures ' ' in edge
    ensures Walked(order + [edge], rest - {edge}, edgeSet)
    ensures EdgesText(order + [edge]) == EdgesText(order) + EdgeText(edge)
    ensures |rest - {edge}| < |rest|
  {
    EdgesTextAppend(order, edge);
  }

  /** The first part of buildGephiFile: the set of valid IDs, built by
      inserting the root, its friends and its followers. */
  method CollectValidIDs(root: GephiNode) returns (m: set<string>)
    ensures m == ValidIDs(root)
  {
    m := {root.twitterID};
    for i := 0 to |root.friendIDs|
      invariant m == {root.twitterID} + set f | f in root.friendIDs[..i]
    {
      assert root.friendIDs[..i + 1] == root.friendIDs[..i] + [root.friendIDs[i]];
      m := m + {root.friendIDs[i]};
    }
    assert root.friendIDs[..|root.friendIDs|] == root.friendIDs;
    ghost var withFriends := m;
    for i := 0 to |root.followerIDs|
      invariant m == withFriends + set f | f in root.followerIDs[..i]
    {
      assert root.followerIDs[..i + 1] == root.followerIDs[..i] + [root.followerIDs[i]];
      m := m + {root.followerIDs[i]};
    }
    assert root.followerIDs[..|root.followerIDs|] == root.followerIDs;
  }

  /** The edge-set part of buildGephiFile: the root's edges, then each fetched
      child's edges, accumulated into one set. */
  method CollectEdges(m: set<string>, root: GephiNode, fetched: seq<FetchedHandle>)
    returns (e: set<string>)
    ensures e == EdgeSetOf(m, ExportedNodes(root, fetched))
  {
    ghost var nodes := ExportedNodes(root, fetched);
    e := {};
    e := AppendEdgeSet(e, m, root);
    EdgeSetOfPrefix(m, nodes, 0);
    for i := 0 to |fetched|
      invariant e == EdgeSetOf(m, nodes[..i + 1])
    {
      EdgeSetOfPrefix(m, nodes, i + 1);
      e := AppendEdgeSet(e, m, fetched[i].node);
    }
    assert nodes[..|fetched| + 1] == nodes;
  }

  /** The edges of the first i + 1 nodes: those of the first i, and node i's. */
  lemma EdgeSetOfPrefix(valid: set<string>, nodes: seq<GephiNode>, i: nat)
    requires i < |nodes|
    ensures EdgeSetOf(valid, nodes[..i + 1]) == EdgeSetOf(valid, nodes[..i]) + NodeEdges(valid, nodes[i])
  {
    assert nodes[..i + 1][..i] == nodes[..i];
  }

  /** writeNode: appends the node block of one account to the buffer. */
  method WriteNode(w: Buffer, n: GephiNode)
    modifies w
    ensures w.contents == old(w.contents) + NodeBlock(n)
  {
    w.Write(NodeBlock(n));
  }

  /** The node part of buildGephiFile: writeNode for the root, then for each
      fetched child in order. */
  method WriteNodes(w: Buffer, root: GephiNode, fetched: seq<FetchedHandle>)
    modifies w
    ensures w.contents == old(w.contents) + NodesText(ExportedNodes(root, fetched))
  {
    ghost var nodes := ExportedNodes(root, fetched);
    ghost var start := w.contents;
    WriteNode(w, root);
    NodesTextFirst(nodes);
    for i := 0 to |fetched|
      invariant w.contents == start + NodesText(nodes[..i + 1])
    {
      ghost var written := NodesText(nodes[..i + 1]);
      NodesTextStep(nodes, i + 1);
      assert nodes[i + 1] == fetched[i].node;
      WriteNode(w, fetched[i].node);
      ConcatAssoc(start, written, NodeBlock(nodes[i + 1]));
    }
    assert nodes[..|fetched| + 1] == nodes;
  }

  /** buildGephiFile: the GML file of a job's root node and its fetched
      children. The file is the header, the root's node block, each child's node
      block in input order, one block per distinct edge of the exported edge set
      (in some order), and the closing bracket. */
  method BuildGephiFile(root: GephiNode, fetched: seq<FetchedHandle>)
    returns (content: string, ghost edgeOrder: seq<string>)
    ensures Enumerates(edgeOrder, EdgeSetOf(ValidIDs(root), ExportedNodes(root, fetched)))
    ensures forall k | k in edgeOrder :: ' ' in k
    ensures content == GraphFile(root, fetched, edgeOrder)
  {
    var m := CollectValidIDs(root);
    var w := new Buffer();
    w.Write(Header);
    WriteNodes(w, root, fetched);
    ghost var nodesText := NodesText(ExportedNodes(root, fetched));
    ghost var prefix := w.contents;
    assert prefix == Header + nodesText;
    var e := CollectEdges(m, root, fetched);
    EdgeSetHasSpaces(m, ExportedNodes(root, fetched));
    edgeOrder := WriteEdges(w, e);
    ghost var edgesText := EdgesText(edgeOrder);
    assert w.contents == prefix + edgesText;
    w.Write(Footer);
    content := w.contents;
    assert content == Header + nodesText + edgesText + Footer;
  }

  /** The export example: a root "1" whose friends are ["2", "3"] and whose
      followers are ["3"], with hydrated children "2" and "3", exports the
      edges 1->2, 1->3 and 3->1. */
  lemma ExportExample(root: GephiNode, c2: GephiNode, c3: GephiNode)
    requires root.twitterID == "1" && root.friendIDs == ["2", "3"] && root.followerIDs == ["3"]
    requires c2.twitterID == "2" && c2.followerIDs == ["4"] && c2.friendIDs == []
    requires c3.twitterID == "3" && c3.friendIDs == ["1", "4"] && c3.followerIDs == []
    ensures var nodes := [root, c2, c3];
      && EdgeKey("1", "2") in EdgeSetOf(ValidIDs(root), nodes)
      && EdgeKey("1", "3") in EdgeSetOf(ValidIDs(root), nodes)
      && EdgeKey("3", "1") in EdgeSetOf(ValidIDs(root), nodes)
  {
    var nodes := [root, c2, c3];
    var valid := ExampleValidIDs(root);
    assert [root, c2, c3][..2] == [root, c2] && [root, c2][..1] == [root] && [root][..0] == [];
    assert EdgeSetOf(valid, [root]) == NodeEdges(valid, root);
    assert EdgeSetOf(valid, [root, c2]) == EdgeSetOf(valid, [root]) + NodeEdges(valid, c2);
    assert EdgeSetOf(valid, nodes) == EdgeSetOf(valid, [root, c2]) + NodeEdges(valid, c3);
    assert "2" in root.friendIDs && "3" in root.friendIDs && "3" in root.followerIDs;
    assert EdgeKey("1", "2") in NodeEdges(valid, root);
    assert EdgeKey("1", "3") in NodeEdges(valid, root);
    assert EdgeKey("3", "1") in NodeEdges(valid, root);
  }

  /** In the same example the children mention an account "4" outside the
      root's neighbourhood; no exported edge has "4" as an endpoint. */
  lemma ExportExcludesOutsider(root: GephiNode, c2: GephiNode, c3: GephiNode, k: string)
    requires root.twitterID == "1" && root.friendIDs == ["2", "3"] && root.followerIDs == ["3"]
    requires c2.twitterID == "2" && c2.followerIDs == ["4"] && c2.friendIDs == []
    requires c3.twitterID == "3" && c3.friendIDs == ["1", "4"] && c3.followerIDs == []
    requires k in EdgeSetOf(ValidIDs(root), [root, c2, c3])
    ensures "4" !in Split(k, ' ')
  {
    var nodes := [root, c2, c3];
    var valid := ExampleValidIDs(root);
    assert NoSpace("1") && NoSpace("2") && NoSpace("3");
    assert nodes[0].twitterID == "1" && nodes[1].twitterID == "2" && nodes[2].twitterID == "3";
    EdgeEndpointsValid(valid, nodes, k);
    var parts := Split(k, ' ');
    assert parts == [parts[0], parts[1]];
  }

  lemma ExampleValidIDs(root: GephiNode) returns (valid: set<string>)
    requires root.twitterID == "1" && root.friendIDs == ["2", "3"] && root.followerIDs == ["3"]
    ensures valid == ValidIDs(root) == {"1", "2", "3"}
  {
    valid := ValidIDs(root);
    assert (set f | f in root.friendIDs) == {"2", "3"};
    assert (set f | f in root.followerIDs) == {"3"};
  }
}
