/**
 * The node limit of a family graph (backend/live-sessions/session-tree.ts): whole sessions are kept
 * from the front, the one in focus first.
 */
module FamilyLimits {
  import opened FamilyGraph
  import opened LinearRuns
  import opened Wrappers

  const SESSION_TREE_MAX_NODES := 3000

  function SizeOf(nodes: seq<Node>, key: string): nat {
    if nodes == [] then 0
    else SizeOf(nodes[..|nodes| - 1], key) + if nodes[|nodes| - 1].sessionKey == key then 1 else 0
  }

  /** The sessions that are kept, once those before `k` are and `budget` nodes are left. */
  function KeptKeys(fam: Family, nodes: seq<Node>, k: nat, budget: int, kept: set<string>): set<string>
    requires k <= |fam|
    decreases |fam| - k
  {
    if k == |fam| then kept
    else
      var size := SizeOf(nodes, fam[k].key);
      if kept != {} && size > budget then kept
      else KeptKeys(fam, nodes, k + 1, budget - size, kept + {fam[k].key})
  }

  function Within(nodes: seq<Node>, keys: set<string>): seq<Node> {
    if nodes == [] then []
    else
      Within(nodes[..|nodes| - 1], keys) +
      if nodes[|nodes| - 1].sessionKey in keys then [nodes[|nodes| - 1]] else []
  }

  function Limited(fam: Family, nodes: seq<Node>): seq<Node> {
    if |nodes| <= SESSION_TREE_MAX_NODES then nodes
    else Within(nodes, KeptKeys(fam, nodes, 0, SESSION_TREE_MAX_NODES, {}))
  }

  // ---- the loops ----

  method CountNodes(nodes: seq<Node>, key: string) returns (size: nat)
    ensures size == SizeOf(nodes, key)
  {
    size := 0;
    for i := 0 to |nodes|
      invariant size == SizeOf(nodes[..i], key)
    {
      assert nodes[..i + 1][..i] == nodes[..i];
      if nodes[i].sessionKey == key { size := size + 1; }
    }
    assert nodes[..|nodes|] == nodes;
  }

  /** Take the nodes of other sessions out, from the end. */
  method DropOthers(all: seq<Node>, keys: set<string>) returns (nodes: seq<Node>)
    ensures nodes == Within(all, keys)
  {
    nodes := all;
    var i := |all|;
    assert all[..|all|] == all && Within(all, keys) + [] == Within(all, keys);
    ghost var done: seq<Node> := [];
    while i > 0
      invariant 0 <= i <= |all| && nodes == all[..i] + done
      invariant Within(all[..i], keys) + done == Within(all, keys)
    {
      i := i - 1;
      assert all[..i + 1][..i] == all[..i] && all[..i + 1] == all[..i] + [all[i]];
      if nodes[i].sessionKey !in keys {
        nodes := nodes[..i] + nodes[i + 1..];
        assert Within(all[..i], keys) + [] == Within(all[..i], keys);
      } else {
        AppendAssoc(Within(all[..i], keys), all[i], done);
        AppendAssoc(all[..i], all[i], done);
        done := [all[i]] + done;
      }
    }
    assert all[..0] == [];
  }

  method LimitNodes(fam: Family, all: seq<Node>) returns (nodes: seq<Node>)
    ensures nodes == Limited(fam, all)
  {
    hide SizeOf, Within;
    if |all| <= SESSION_TREE_MAX_NODES { return all; }
    var kept: set<string> := {};
    var budget := SESSION_TREE_MAX_NODES;
    var k := 0;
    while k < |fam|
      invariant 0 <= k <= |fam|
      invariant KeptKeys(fam, all, k, budget, kept) == KeptKeys(fam, all, 0, SESSION_TREE_MAX_NODES, {})
    {
      var size := CountNodes(all, fam[k].key);
      if kept != {} && size > budget { break; }
      kept, budget, k := kept + {fam[k].key}, budget - size, k + 1;
    }
    nodes := DropOthers(all, kept);
  }

  // ---- what is kept ----

  predicate DistinctKeys(fam: Family) {
    forall i, j :: 0 <= i < j < |fam| ==> fam[i].key != fam[j].key
  }

  function KeysOf(fam: Family, k: nat): set<string>
    requires k <= |fam|
  {
    set i | 0 <= i < k :: fam[i].key
  }

  /** How many sessions are kept: the first one always, any other while all its nodes fit. */
  function Front(fam: Family, k: nat): (m: nat)
    requires k <= |fam|
    ensures k <= m <= |fam|
    decreases |fam| - k
  {
    if k == |fam| || (k > 0 && |AllNodes(fam, k + 1)| > SESSION_TREE_MAX_NODES) then k else Front(fam, k + 1)
  }

  lemma {:induction false} FrontIsLongest(fam: Family, k: nat)
    requires k <= |fam| && (k > 1 ==> |AllNodes(fam, k)| <= SESSION_TREE_MAX_NODES)
    ensures var m := Front(fam, k);
            && (fam != [] ==> m > 0) && (m > 1 ==> |AllNodes(fam, m)| <= SESSION_TREE_MAX_NODES)
            && (m < |fam| ==> |AllNodes(fam, m + 1)| > SESSION_TREE_MAX_NODES)
    decreases |fam| - k
  {
    hide AllNodes;
    if k == |fam| || (k > 0 && |AllNodes(fam, k + 1)| > SESSION_TREE_MAX_NODES) {
    } else {
      FrontIsLongest(fam, k + 1);
    }
  }

  lemma {:induction false} SizeConcat(a: seq<Node>, b: seq<Node>, key: string)
    ensures SizeOf(a + b, key) == SizeOf(a, key) + SizeOf(b, key)
    decreases |b|
  {
    if b == [] {
      assert a + b == a;
    } else {
      assert (a + b)[..|a + b| - 1] == a + b[..|b| - 1];
      SizeConcat(a, b[..|b| - 1], key);
    }
  }

  lemma {:induction false} SizeOfOne(nodes: seq<Node>, key: string, other: string)
    requires forall i :: 0 <= i < |nodes| ==> nodes[i].sessionKey == key
    ensures SizeOf(nodes, other) == if other == key then |nodes| else 0
    decreases |nodes|
  {
    if nodes == [] {
    } else {
      SizeOfOne(nodes[..|nodes| - 1], key, other);
    }
  }

  lemma {:induction false} SizeSame(a: seq<Node>, b: seq<Node>, key: string)
    requires |a| == |b| && forall i :: 0 <= i < |a| ==> a[i].sessionKey == b[i].sessionKey
    ensures SizeOf(a, key) == SizeOf(b, key)
    decreases |a|
  {
    if a == [] {
    } else {
      SizeSame(a[..|a| - 1], b[..|b| - 1], key);
    }
  }

  lemma {:induction false} SizeInFamily(fam: Family, k: nat, j: nat)
    requires DistinctKeys(fam) && k <= |fam| && j < |fam|
    ensures SizeOf(AllNodes(fam, k), fam[j].key) == if j < k then |Own(fam, fam[j])| else 0
    decreases k
  {
    hide SizeOf, Own;
    if k == 0 {
      NothingSized(fam[j].key);
    } else {
      SizeInFamily(fam, k - 1, j);
      KeysOfSession(fam, fam[k - 1]);
      SizeConcat(AllNodes(fam, k - 1), SessionNodes(fam, fam[k - 1]), fam[j].key);
      SizeOfOne(SessionNodes(fam, fam[k - 1]), fam[k - 1].key, fam[j].key);
    }
  }

  lemma NothingSized(key: string)
    ensures SizeOf([], key) == 0
  {
  }

  lemma KeysOfSession(fam: Family, s: Session)
    ensures forall i :: 0 <= i < |SessionNodes(fam, s)| ==> SessionNodes(fam, s)[i].sessionKey == s.key
  {
    hide Own, Anchor, LocalParent;
  }

  lemma GraphKeys(fam: Family)
    ensures |Graph0(fam)| == |AllNodes(fam, |fam|)|
    ensures forall i :: 0 <= i < |Graph0(fam)| ==>
              Graph0(fam)[i].sessionKey == AllNodes(fam, |fam|)[i].sessionKey &&
                Graph0(fam)[i].id == AllNodes(fam, |fam|)[i].id
              && Graph0(fam)[i].parent == AllNodes(fam, |fam|)[i].parent
  {
    hide AllNodes, LeafOf, ChildCount, AnchorIds;
  }

  /** The loop over the sessions keeps exactly those of the front. */
  lemma {:induction false} KeepsFront(fam: Family, k: nat)
    requires DistinctKeys(fam) && k <= |fam|
    ensures KeptKeys(fam, Graph0(fam), k, SESSION_TREE_MAX_NODES - |AllNodes(fam, k)|, KeysOf(fam, k)) ==
            KeysOf(fam, Front(fam, k))
    decreases |fam| - k
  {
    hide SizeOf, Own, Graph0, AllNodes, KeysOf;
    if k == |fam| {
    } else {
      SizeOfSession(fam, k);
      NodesGrow(fam, k);
      OneMoreKey(fam, k);
      KeepsFront(fam, k + 1);
    }
  }

  lemma OneMoreKey(fam: Family, k: nat)
    requires k < |fam|
    ensures KeysOf(fam, k + 1) == KeysOf(fam, k) + {fam[k].key} && (KeysOf(fam, k) == {} <==> k == 0)
  {
    if k > 0 { assert fam[0].key in KeysOf(fam, k); }
  }

  lemma SizeOfSession(fam: Family, k: nat)
    requires DistinctKeys(fam) && k < |fam|
    ensures SizeOf(Graph0(fam), fam[k].key) == |Own(fam, fam[k])|
  {
    hide SizeOf, Own, Graph0, AllNodes;
    GraphKeys(fam);
    SizeSame(Graph0(fam), AllNodes(fam, |fam|), fam[k].key);
    SizeInFamily(fam, |fam|, k);
  }

  lemma NodesGrow(fam: Family, k: nat)
    requires k < |fam|
    ensures |AllNodes(fam, k + 1)| == |AllNodes(fam, k)| + |Own(fam, fam[k])|
  {
    hide Own;
  }

  lemma {:induction false} KeyAt(fam: Family, k: nat, m: nat, i: nat) returns (a: nat)
    requires m <= k <= |fam| && i < |AllNodes(fam, k)|
    ensures a < k && AllNodes(fam, k)[i].sessionKey == fam[a].key && (a < m <==> i < |AllNodes(fam, m)|)
    decreases k
  {
    hide SessionNodes, Own;
    var older := AllNodes(fam, k - 1);
    NodesMonotone(fam, m, k);
    if m < k { NodesMonotone(fam, m, k - 1); }
    if i < |older| {
      if m == k {
        a := KeyAt(fam, k - 1, k - 1, i);
      } else {
        a := KeyAt(fam, k - 1, m, i);
      }
    } else {
      KeysOfSession(fam, fam[k - 1]);
      a := k - 1;
    }
  }

  lemma {:induction false} NodesMonotone(fam: Family, m: nat, k: nat)
    requires m <= k <= |fam|
    ensures |AllNodes(fam, m)| <= |AllNodes(fam, k)|
    decreases k
  {
    hide SessionNodes, Own;
    if m == k {
    } else {
      NodesMonotone(fam, m, k - 1);
    }
  }

  lemma WithinPush(nodes: seq<Node>, n: Node, keys: set<string>)
    ensures Within(nodes + [n], keys) == Within(nodes, keys) + if n.sessionKey in keys then [n] else []
  {
    assert (nodes + [n])[..|nodes|] == nodes;
  }

  lemma {:induction false} WithinFront(nodes: seq<Node>, keys: set<string>, n: nat)
    requires n <= |nodes| && forall i :: 0 <= i < |nodes| ==> (nodes[i].sessionKey in keys <==> i < n)
    ensures Within(nodes, keys) == nodes[..n]
    decreases |nodes|
  {
    hide Within;
    if nodes == [] {
      WithinNothing(keys);
    } else {
      var last := |nodes| - 1;
      var init := nodes[..last];
      assert nodes == init + [nodes[last]];
      WithinPush(init, nodes[last], keys);
      if n <= last {
        WithinFront(init, keys, n);
        assert init[..n] + [] == nodes[..n];
      } else {
        WithinFront(init, keys, last);
        assert init[..last] == init;
      }
    }
  }

  lemma WithinNothing(keys: set<string>)
    ensures Within([], keys) == []
  {
  }

  /** Under the limit or over it, what is shown is the nodes of the longest front of sessions that fits, the first
      session being kept whatever its size. */
  lemma LimitKeepsFront(fam: Family)
    requires DistinctKeys(fam)
    ensures var m := Front(fam, 0);
            && |AllNodes(fam, m)| <= |Graph0(fam)| && Limited(fam, Graph0(fam)) == Graph0(fam)[..|AllNodes(fam, m)|]
            && (fam != [] ==> m > 0) && (m > 1 ==> |AllNodes(fam, m)| <= SESSION_TREE_MAX_NODES)
            && (m < |fam| ==> |AllNodes(fam, m + 1)| > SESSION_TREE_MAX_NODES)
  {
    hide Graph0, AllNodes, Within, KeptKeys;
    var m, g := Front(fam, 0), Graph0(fam);
    FrontIsLongest(fam, 0);
    GraphKeys(fam);
    NodesMonotone(fam, m, |fam|);
    if |g| <= SESSION_TREE_MAX_NODES {
      if m < |fam| { NodesMonotone(fam, m + 1, |fam|); }
    } else {
      KeepsFront(fam, 0);
      NoNodes(fam);
      assert KeysOf(fam, 0) == {};
      forall i | 0 <= i < |g| ensures g[i].sessionKey in KeysOf(fam, m) <==> i < |AllNodes(fam, m)| {
        var a := KeyAt(fam, |fam|, m, i);
      }
      WithinFront(g, KeysOf(fam, m), |AllNodes(fam, m)|);
    }
  }

  lemma NoNodes(fam: Family)
    ensures AllNodes(fam, 0) == []
  {
  }

  // ---- the edges ----

  /** No link to a node of the graph leads out of what is shown. */
  predicate EdgesIntact(shown: seq<Node>, all: seq<Node>) {
    forall i :: 0 <= i < |shown| && Mentions(all, shown[i].parent) ==> Mentions(shown, shown[i].parent)
  }

  lemma {:induction false} FrontIds(fam: Family, m: nat, k: nat)
    requires m <= k <= |fam|
    ensures |AllNodes(fam, m)| == |AllIds(fam, m)| <= |AllNodes(fam, k)|
    ensures forall i :: 0 <= i < |AllIds(fam, m)| ==> AllNodes(fam, k)[i].id == AllIds(fam, m)[i]
    ensures AllNodes(fam, k)[..|AllNodes(fam, m)|] == AllNodes(fam, m)
    decreases k
  {
    hide SessionNodes, Own, OwnIds;
    if m == k {
      NodeIdsAre(fam, m);
    } else {
      FrontIds(fam, m, k - 1);
      assert AllNodes(fam, k)[..|AllNodes(fam, k - 1)|] == AllNodes(fam, k - 1);
    }
  }

  /** The shown part of the graph has exactly the ids of its sessions. */
  lemma ShownIds(fam: Family, m: nat, id: string)
    requires m <= |fam|
    ensures |AllNodes(fam, m)| <= |Graph0(fam)|
    ensures Mentions(Graph0(fam)[..|AllNodes(fam, m)|], id) <==> id in AllIds(fam, m)
  {
    hide Graph0, AllNodes, AllIds;
    FrontIds(fam, m, |fam|);
    GraphKeys(fam);
    var shown := Graph0(fam)[..|AllNodes(fam, m)|];
    if id in AllIds(fam, m) {
      var i :| 0 <= i < |AllIds(fam, m)| && AllIds(fam, m)[i] == id;
      assert shown[i].id == id;
    }
    if Mentions(shown, id) {
      var i :| 0 <= i < |shown| && shown[i].id == id;
      assert AllIds(fam, m)[i] == id;
    }
  }

  /** Every shown session that has own entries hangs off an entry of a shown session, or off none. */
  predicate AnchorsShown(fam: Family, m: nat)
    requires m <= |fam|
  {
    forall k :: 0 <= k < m && Own(fam, fam[k]) != [] && Anchor(fam, fam[k]) != "" ==>
      Anchor(fam, fam[k]) in AllIds(fam, m)
  }

  /** Keeping whole sessions keeps the edges intact exactly when each of them hangs off an entry that is kept too. */
  lemma EdgesIntactExactly(fam: Family, level: seq<nat>)
    requires Forked(fam, level) && DistinctKeys(fam)
    ensures EdgesIntact(Limited(fam, Graph0(fam)), Graph0(fam)) <==> AnchorsShown(fam, Front(fam, 0))
  {
    hide Forked, Graph0, AllNodes, AllIds, Limited, Own, Anchor, SessionNodes, EntryIds;
    var m, g := Front(fam, 0), Graph0(fam);
    LimitKeepsFront(fam);
    var shown := g[..|AllNodes(fam, m)|];
    ForkedIsNamed(fam, level);
    GraphKeys(fam);
    FrontIds(fam, m, |fam|);
    forall id ensures Mentions(shown, id) <==> id in AllIds(fam, m) { ShownIds(fam, m, id); }
    if EdgesIntact(shown, g) {
      forall k | 0 <= k < m && Own(fam, fam[k]) != [] &&
        Anchor(fam, fam[k]) != "" ensures Anchor(fam, fam[k]) in AllIds(fam, m) {
        var i := SessionInNodes(fam, m, k, 0);
        AnchorNode(fam, level, k);
        assert shown[i].parent == Anchor(fam, fam[k]);
      }
    }
    if AnchorsShown(fam, m) {
      forall i | 0 <= i < |shown| && Mentions(g, shown[i].parent) ensures Mentions(shown, shown[i].parent) {
        var k, j := NodeInSession(fam, m, i);
        ShownParent(fam, level, m, k, j);
        NamedGraph(fam);
      }
    }
  }

  /** The first own node of a session that hangs off something links there, and that is a node of the graph. */
  lemma AnchorNode(fam: Family, level: seq<nat>, k: nat)
    requires Forked(fam, level) && k < |fam| && Own(fam, fam[k]) != [] && Anchor(fam, fam[k]) != ""
    ensures SessionNodes(fam, fam[k])[0].parent == Anchor(fam, fam[k])
    ensures Mentions(Graph0(fam), Anchor(fam, fam[k]))
  {
    hide Forked, Graph0, AllIds, Own, Anchor, SessionNodes, EntryIds;
    NodeParent(fam, level, k, 0);
    AnchorIsLower(fam, level, k);
    ShownIds(fam, |fam|, Anchor(fam, fam[k]));
    GraphKeys(fam);
    assert Graph0(fam)[..|AllNodes(fam, |fam|)|] == Graph0(fam);
  }

  lemma ShownParent(fam: Family, level: seq<nat>, m: nat, k: nat, j: nat)
    requires Forked(fam, level) && k < m <= |fam| && AnchorsShown(fam, m) && j < |Own(fam, fam[k])|
    ensures var parent := SessionNodes(fam, fam[k])[j].parent; parent == "" || parent in AllIds(fam, m)
  {
    hide Forked, AllIds, Own, Anchor, SessionNodes, OwnIds;
    var own := Own(fam, fam[k]);
    NodeParent(fam, level, k, j);
    if !(j == 0 && Anchor(fam, fam[k]) != "") && SessionNodes(fam, fam[k])[j].parent != "" {
      var i :| 0 <= i < |own| && own[i].id == own[j].parent;
      assert OwnIds(fam, fam[k])[i] == own[i].id;
      InAllIds(fam, m, own[i].id);
    }
  }

  lemma NamedGraph(fam: Family)
    requires NamedEntries(fam)
    ensures !Mentions(Graph0(fam), "")
  {
    hide Graph0;
    GraphIsNamed(fam);
  }

  /** A fork in focus whose parent does not fit beside it: the fork is shown alone, and its first node links to an entry
      that is not. */
  lemma ForkIsShownAlone(fam: Family, level: seq<nat>)
    requires Forked(fam, level) && DistinctKeys(fam) && |fam| == 2 && HasParent(fam, fam[0])
    requires 0 < SharedCount(fam, fam[0]) < |fam[0].entries|
    requires |Own(fam, fam[0])| + |Own(fam, fam[1])| > SESSION_TREE_MAX_NODES
    ensures Front(fam, 0) == 1 && !EdgesIntact(Limited(fam, Graph0(fam)), Graph0(fam))
  {
    EdgesIntactExactly(fam, level);
    AnchorIsForeign(fam, level, 0);
    ForkedIsNamed(fam, level);
    hide Forked, Graph0, Limited, SessionNodes, EdgesIntact, SharedCount, HasParent;
    NodesGrow(fam, 0);
    NodesGrow(fam, 1);
    NoNodes(fam);
    FrontIsTwo(fam);
    var anchor := Anchor(fam, fam[0]);
    InAllIds(fam, 1, anchor);
    OwnIdsHold(fam, fam[0], anchor);
    assert fam[0].entries[SharedCount(fam, fam[0]) - 1].id != "";
  }

  lemma FrontIsTwo(fam: Family)
    requires |fam| == 2 && |AllNodes(fam, 2)| > SESSION_TREE_MAX_NODES
    ensures Front(fam, 0) == Front(fam, 1) == 1
  {
    hide AllNodes;
  }

  lemma OwnIdsHold(fam: Family, s: Session, id: string)
    ensures id in OwnIds(fam, s) <==> id in EntryIds(Own(fam, s))
  {
    hide Own;
    if id in EntryIds(Own(fam, s)) {
      var i :| 0 <= i < |Own(fam, s)| && Own(fam, s)[i].id == id;
      assert OwnIds(fam, s)[i] == id;
    }
  }

  // ---- the graph a reader gets ----

  lemma {:induction false} WithinIsPart(nodes: seq<Node>, keys: set<string>)
    ensures forall i :: 0 <= i < |Within(nodes, keys)| ==> Within(nodes, keys)[i] in nodes
    decreases |nodes|
  {
    if nodes == [] {
    } else {
      WithinIsPart(nodes[..|nodes| - 1], keys);
    }
  }

  lemma LimitedIsNamed(fam: Family)
    requires NamedEntries(fam)
    ensures forall i :: 0 <= i < |Limited(fam, Graph0(fam))| ==> Limited(fam, Graph0(fam))[i].id != ""
  {
    hide Graph0, Within, KeptKeys;
    GraphIsNamed(fam);
    WithinIsPart(Graph0(fam), KeptKeys(fam, Graph0(fam), 0, SESSION_TREE_MAX_NODES, {}));
  }

  /** The graph a reader gets: the nodes under the limit, or their contraction in which each session's first node
      survives. */
  method BuildFamilyGraph(fam: Family, expandAll: bool, expandRuns: set<string>, stepLimit: nat)
    returns (nodes: seq<Node>)
    requires NamedEntries(fam)
    requires !expandAll ==> DistinctIds(Limited(fam, Graph0(fam))) && RunIdsFree(Limited(fam, Graph0(fam)))
    ensures expandAll ==> nodes == Limited(fam, Graph0(fam))
    ensures !expandAll ==> Contraction(Limited(fam, Graph0(fam)), FirstIds(fam, |fam|), nodes)
    ensures !expandAll ==> AsAsked(GraphFrom(Limited(fam, Graph0(fam))),
                                   Options(FirstIds(fam, |fam|), expandRuns, stepLimit), nodes)
    ensures forall id :: id in FirstIds(fam, |fam|) && Mentions(Limited(fam, Graph0(fam)), id) ==> Mentions(nodes, id)
  {
    hide Graph0, FirstIds, Limited, LinearRuns.RunIdsFree, LinearRuns.DistinctIds, LinearRuns.Contraction,
      LinearRuns.Mentions, LinearRuns.AsAsked, LinearRuns.GraphFrom;
    var all, keep := Assemble(fam);
    var shown := LimitNodes(fam, all);
    if expandAll { return shown; }
    LimitedIsNamed(fam);
    nodes := CollapseLinearRuns(shown, Options(keep, expandRuns, stepLimit));
    KeptAreShown(shown, keep, nodes);
  }

  /** A part of a graph has its nodes, with their links. */
  lemma PartOfGraph(shown: seq<Node>, all: seq<Node>, h: Graph, g: Graph)
    requires shown <= all && GraphOf(shown, h) && GraphOf(all, g)
    ensures forall id :: id in h ==> id in g && h[id] == g[id]
    ensures forall id :: id in h <==> Mentions(shown, id)
    ensures forall id :: id in g <==> Mentions(all, id)
  {
    forall id | id in h ensures id in g && h[id] == g[id] {
      var i :| 0 <= i < |shown| && shown[i].id == id;
      assert all[i] == shown[i];
    }
  }

  /** Where no link leads out of the part, its ancestors are those of the whole. */
  lemma {:induction false} UpStays(h: Graph, g: Graph, b: string, k: nat)
    requires forall id :: id in h ==> id in g && h[id] == g[id] && (g[id].parent in g ==> g[id].parent in h)
    requires b in h || b !in g
    ensures Up(h, b, k) == Up(g, b, k)
    decreases k
  {
    if k == 0 || b !in h {
    } else {
      UpStays(h, g, g[b].parent, k - 1);
    }
  }

  /** In the shown part of a forest of forks links lead to nodes of lower rank too. */
  lemma LimitedIsForest(fam: Family, level: seq<nat>, depth: map<string, nat>, h: Graph, g: Graph)
    requires Forked(fam, level) && Acyclic(fam, depth) && DistinctKeys(fam)
    requires GraphOf(Limited(fam, Graph0(fam)), h) && GraphOf(Graph0(fam), g)
    ensures |level| == |fam| && Ranked(h, RankMap(fam, level, depth))
  {
    hide Forked, Acyclic, Graph0, Limited, RankMap, AllNodes, LinearRuns.GraphOf, LinearRuns.Mentions;
    LimitKeepsFront(fam);
    PartOfGraph(Limited(fam, Graph0(fam)), Graph0(fam), h, g);
    FamilyIsForest(fam, level, g);
    forall c, p | IsChild(h, c, p) ensures IsChild(g, c, p) {
    }
  }

  /** For a family of forks whose files have no cycle: a node shown in the collapsed graph is above another exactly when
      it is in the graph under the limit; and exactly when it is in the whole graph, if every session that is shown
      hangs off an entry that is shown too. */
  lemma FamilyKeepsAncestry(fam: Family, level: seq<nat>, depth: map<string, nat>, out: seq<Node>, a: string,
                            b: string)
    requires Forked(fam, level) && Acyclic(fam, depth) && DistinctKeys(fam)
    requires RunIdsFree(Limited(fam, Graph0(fam)))
    requires Contraction(Limited(fam, Graph0(fam)), FirstIds(fam, |fam|), out)
    requires Mentions(Limited(fam, Graph0(fam)), a) && Mentions(out, a)
    requires Mentions(Limited(fam, Graph0(fam)), b) && Mentions(out, b)
    ensures Above(GraphFrom(out), a, b) <==> Above(GraphFrom(Limited(fam, Graph0(fam))), a, b)
    ensures AnchorsShown(fam, Front(fam, 0)) ==>
              (Above(GraphFrom(out), a, b) <==> Above(GraphFrom(Graph0(fam)), a, b))
  {
    hide *;
    var shown := Limited(fam, Graph0(fam));
    ShownIsGraph(fam, level);
    LimitedIsForest(fam, level, depth, GraphFrom(shown), GraphFrom(Graph0(fam)));
    ContractionKeepsAncestry(shown, FirstIds(fam, |fam|), out, RankMap(fam, level, depth), a, b);
    if AnchorsShown(fam, Front(fam, 0)) { ShownAncestry(fam, level, a, b); }
  }

  lemma ShownIsGraph(fam: Family, level: seq<nat>)
    requires Forked(fam, level) && DistinctKeys(fam)
    ensures var g, shown := Graph0(fam), Limited(fam, Graph0(fam));
            && shown <= g && DistinctIds(g) && DistinctIds(shown)
            && (forall i :: 0 <= i < |g| ==> g[i].id != "") && (forall i :: 0 <= i < |shown| ==> shown[i].id != "")
            && GraphOf(g, GraphFrom(g)) && GraphOf(shown, GraphFrom(shown))
  {
    hide Graph0, Limited, AllNodes, LinearRuns.GraphFrom, LinearRuns.GraphOf, FreshOwn, Layered;
    LimitKeepsFront(fam);
    GraphIds(fam);
    GraphIsNamed(fam);
    GraphFromIs(Graph0(fam));
    GraphFromIs(Limited(fam, Graph0(fam)));
  }

  lemma ShownAncestry(fam: Family, level: seq<nat>, a: string, b: string)
    requires Forked(fam, level) && DistinctKeys(fam) && AnchorsShown(fam, Front(fam, 0))
    requires Mentions(Limited(fam, Graph0(fam)), b)
    ensures Above(GraphFrom(Limited(fam, Graph0(fam))), a, b) <==> Above(GraphFrom(Graph0(fam)), a, b)
  {
    hide Forked, Graph0, Limited, AnchorsShown, LinearRuns.GraphFrom, LinearRuns.Mentions, LinearRuns.DistinctIds;
    var g, shown := Graph0(fam), Limited(fam, Graph0(fam));
    var full, part := GraphFrom(g), GraphFrom(shown);
    ShownIsGraph(fam, level);
    EdgesIntactExactly(fam, level);
    PartOfGraph(shown, g, part, full);
    forall id | id in part && full[id].parent in full ensures full[id].parent in part {
      var i :| 0 <= i < |shown| && shown[i].id == id by { MentionedAt(shown, id); }
    }
    forall k: nat ensures Up(part, b, k) == Up(full, b, k) { UpStays(part, full, b, k); }
  }

  lemma MentionedAt(nodes: seq<Node>, id: string)
    requires Mentions(nodes, id)
    ensures exists i :: 0 <= i < |nodes| && nodes[i].id == id
  {
  }
}
