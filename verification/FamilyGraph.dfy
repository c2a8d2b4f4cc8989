/**
 * Assembly of a session family into one graph (backend/live-sessions/session-tree.ts).
 *
 * A forked session file repeats its parent's leading entries and then appends its own. Each
 * session contributes the entries its parent does not have, and the first of them hangs off
 * the last shared one.
 */
module FamilyGraph {
  import opened Wrappers
  import opened LinearRuns

  /** One entry of a session file; `parent` is empty where the file has null. */
  datatype Entry = Entry(id: string, parent: string, kind: Kind, role: Role, title: string, text: string,
                         tools: seq<string>)

  /** A session file of the family. `parent` is the file it was forked from, empty when that is not in the
      family; an unreadable file has no entries. */
  datatype Session = Session(file: string, key: string, parent: string, entries: seq<Entry>, labels: set<string>)

  type Family = seq<Session>

  function LeafId(s: Session): string {
    if s.entries == [] then "" else s.entries[|s.entries| - 1].id
  }

  function EntryIds(entries: seq<Entry>): set<string> {
    set i | 0 <= i < |entries| :: entries[i].id
  }

  /** Index of the session stored under a file name, or the length of the list. */
  function IndexOf(fam: Family, file: string): (k: nat)
    ensures k <= |fam| && (k < |fam| ==> fam[k].file == file)
    ensures forall j :: 0 <= j < k ==> fam[j].file != file
  {
    if fam == [] || fam[0].file == file then 0 else 1 + IndexOf(fam[1..], file)
  }

  predicate HasParent(fam: Family, s: Session) {
    s.parent != "" && IndexOf(fam, s.parent) < |fam|
  }

  function ParentOf(fam: Family, s: Session): Session
    requires HasParent(fam, s)
  {
    fam[IndexOf(fam, s.parent)]
  }

  /** How many leading entries are also the parent's. */
  function Leading(entries: seq<Entry>, ids: set<string>): (n: nat)
    ensures n <= |entries|
    ensures forall i :: 0 <= i < n ==> entries[i].id in ids
    ensures n < |entries| ==> entries[n].id !in ids
  {
    if entries == [] || entries[0].id !in ids then 0 else 1 + Leading(entries[1..], ids)
  }

  function SharedCount(fam: Family, s: Session): (n: nat)
    ensures n <= |s.entries|
  {
    if HasParent(fam, s) then Leading(s.entries, EntryIds(ParentOf(fam, s).entries)) else 0
  }

  function Own(fam: Family, s: Session): seq<Entry> {
    s.entries[SharedCount(fam, s)..]
  }

  /** What the session's first own node hangs off: the last shared entry, else the parent's leaf. */
  function Anchor(fam: Family, s: Session): string {
    var n := SharedCount(fam, s);
    if n > 0 then s.entries[n - 1].id else if HasParent(fam, s) then LeafId(ParentOf(fam, s)) else ""
  }

  function NodeFor(s: Session, e: Entry, parent: string): Node {
    Node(e.id, parent, e.kind, e.role, s.key, e.id in s.labels, 0, false, false, false, e.title, e.text,
         e.tools, None)
  }

  function SessionNodes(fam: Family, s: Session): (r: seq<Node>)
    ensures |r| == |Own(fam, s)|
  {
    var own := Own(fam, s);
    var local := EntryIds(own);
    seq(|own|, i requires 0 <= i < |own| =>
      if i == 0 && Anchor(fam, s) != "" && Anchor(fam, s) !in local then NodeFor(s, own[i], Anchor(fam, s))
      else NodeFor(s, own[i], LocalParent(own[i], local)))
  }

  function LocalParent(e: Entry, local: set<string>): string {
    if e.parent != "" && e.parent in local then e.parent else ""
  }

  function AllNodes(fam: Family, k: nat): seq<Node>
    requires k <= |fam|
  {
    if k == 0 then [] else AllNodes(fam, k - 1) + SessionNodes(fam, fam[k - 1])
  }

  function ChildCount(nodes: seq<Node>, id: string): nat {
    if nodes == [] then 0
    else ChildCount(nodes[..|nodes| - 1], id) + if nodes[|nodes| - 1].parent == id then 1 else 0
  }

  function AnchorIds(fam: Family, k: nat): set<string>
    requires k <= |fam|
  {
    if k == 0 then {} else
      var s := fam[k - 1];
      AnchorIds(fam, k - 1) + if SharedCount(fam, s) > 0 then {s.entries[SharedCount(fam, s) - 1].id} else {}
  }

  function FirstIds(fam: Family, k: nat): set<string>
    requires k <= |fam|
  {
    if k == 0 then {} else
      var own := Own(fam, fam[k - 1]);
      FirstIds(fam, k - 1) + if own != [] then {own[0].id} else {}
  }

  function LeafOf(fam: Family, key: string): string {
    if fam == [] then "" else if fam[|fam| - 1].key == key then LeafId(fam[|fam| - 1])
      else LeafOf(fam[..|fam| - 1], key)
  }

  /** The node as the graph shows it, once all nodes are known. */
  function Decorated(fam: Family, nodes: seq<Node>, n: Node): Node {
    n.(childCount := ChildCount(nodes, n.id), isLeaf := ChildCount(nodes, n.id) == 0,
       isHead := LeafOf(fam, n.sessionKey) == n.id, isForkAnchor := n.id in AnchorIds(fam, |fam|))
  }

  function Graph0(fam: Family): (r: seq<Node>)
    ensures |r| == |AllNodes(fam, |fam|)|
  {
    var nodes := AllNodes(fam, |fam|);
    seq(|nodes|, i requires 0 <= i < |nodes| => Decorated(fam, nodes, nodes[i]))
  }

  // ---- the assembly loop ----

  method LastLeadingSharedIndex(entries: seq<Entry>, ids: set<string>) returns (index: int)
    ensures index + 1 == Leading(entries, ids)
  {
    index := -1;
    var i := 0;
    while i < |entries| && entries[i].id in ids
      invariant 0 <= i <= |entries| && index == i - 1
      invariant i + Leading(entries[i..], ids) == Leading(entries, ids)
    {
      assert entries[i..][1..] == entries[i + 1..];
      index := i;
      i := i + 1;
    }
  }

  method PlainNodes(s: Session, entries: seq<Entry>) returns (nodes: seq<Node>)
    ensures |nodes| == |entries|
    ensures forall k :: 0 <= k < |nodes| ==>
      nodes[k] == NodeFor(s, entries[k], LocalParent(entries[k], EntryIds(entries)))
  {
    var local := EntryIds(entries);
    nodes := [];
    for i := 0 to |entries|
      invariant |nodes| == i
      invariant forall k :: 0 <= k < i ==> nodes[k] == NodeFor(s, entries[k], LocalParent(entries[k], local))
    {
      nodes := nodes + [NodeFor(s, entries[i], LocalParent(entries[i], local))];
    }
  }

  /** The last shared index, or -1, and the parent's leaf. */
  method ForkPoint(fam: Family, s: Session) returns (skip: int, leaf: string)
    ensures skip + 1 == SharedCount(fam, s)
    ensures leaf == if HasParent(fam, s) then LeafId(ParentOf(fam, s)) else ""
  {
    if !HasParent(fam, s) { return -1, ""; }
    var parent := ParentOf(fam, s);
    skip := LastLeadingSharedIndex(s.entries, EntryIds(parent.entries));
    return skip, LeafId(parent);
  }

  method AssembleSession(fam: Family, s: Session) returns (nodes: seq<Node>, anchorId: string)
    ensures nodes == SessionNodes(fam, s)
    ensures anchorId == if SharedCount(fam, s) > 0 then s.entries[SharedCount(fam, s) - 1].id else ""
  {
    hide *;
    var entries := s.entries;
    var skip, leaf := ForkPoint(fam, s);
    anchorId := "";
    var fallback := leaf;
    if skip >= 0 {
      anchorId := entries[skip].id;
      fallback := anchorId;
      entries := entries[skip + 1..];
    }
    ForkPointIs(fam, s, skip);
    nodes := PlainNodes(s, entries);
    if nodes != [] && fallback != "" && fallback !in EntryIds(entries) {
      nodes := nodes[0 := NodeFor(s, entries[0], fallback)];
    }
    SessionNodesFrom(fam, s, nodes);
  }

  lemma ForkPointIs(fam: Family, s: Session, skip: int)
    requires skip + 1 == SharedCount(fam, s)
    ensures Own(fam, s) == if skip >= 0 then s.entries[skip + 1..] else s.entries
    ensures Anchor(fam, s) == if skip >= 0 then s.entries[skip].id
                              else if HasParent(fam, s) then LeafId(ParentOf(fam, s)) else ""
  {
    OwnIs(fam, s, skip);
    AnchorIs(fam, s, skip);
    hide Own, Anchor, SharedCount, HasParent, ParentOf, LeafId;
  }

  lemma OwnIs(fam: Family, s: Session, skip: int)
    requires skip + 1 == SharedCount(fam, s)
    ensures Own(fam, s) == if skip >= 0 then s.entries[skip + 1..] else s.entries
  {
    hide SharedCount;
  }

  lemma AnchorIs(fam: Family, s: Session, skip: int)
    requires skip + 1 == SharedCount(fam, s)
    ensures Anchor(fam, s) == if skip >= 0 then s.entries[skip].id
                              else if HasParent(fam, s) then LeafId(ParentOf(fam, s)) else ""
  {
    hide SharedCount, HasParent, LeafId;
  }

  lemma SessionNodesFrom(fam: Family, s: Session, nodes: seq<Node>)
    requires var own := Own(fam, s);
             var local := EntryIds(own);
             && |nodes| == |own|
             && (forall k :: 0 < k < |own| ==> nodes[k] == NodeFor(s, own[k], LocalParent(own[k], local)))
             && (own != [] ==> nodes[0] == NodeFor(s, own[0],
                   if Anchor(fam, s) != "" && Anchor(fam, s) !in local then Anchor(fam, s)
                     else LocalParent(own[0], local)))
    ensures nodes == SessionNodes(fam, s)
  {
    hide Own, EntryIds, Anchor, NodeFor, LocalParent;
  }

  method CountChildren(nodes: seq<Node>) returns (counts: map<string, nat>)
    ensures forall id :: id != "" ==> (if id in counts then counts[id] else 0) == ChildCount(nodes, id)
  {
    counts := map[];
    for i := 0 to |nodes|
      invariant forall id :: id != "" ==> (if id in counts then counts[id] else 0) == ChildCount(nodes[..i], id)
    {
      assert nodes[..i + 1][..i] == nodes[..i];
      var p := nodes[i].parent;
      if p != "" {
        counts := counts[p := (if p in counts then counts[p] else 0) + 1];
      }
    }
    assert nodes[..|nodes|] == nodes;
  }

  predicate NamedEntries(fam: Family) {
    forall k, i :: 0 <= k < |fam| && 0 <= i < |fam[k].entries| ==> fam[k].entries[i].id != ""
  }

  lemma SessionNodesAre(fam: Family, s: Session)
    ensures var nodes, own := SessionNodes(fam, s), Own(fam, s);
            |nodes| == |own| && forall i :: 0 <= i < |own| ==> nodes[i].id == own[i].id
  {
  }

  function OwnIds(fam: Family, s: Session): (r: seq<string>)
    ensures |r| == |Own(fam, s)| && forall i :: 0 <= i < |r| ==> r[i] == Own(fam, s)[i].id
  {
    seq(|Own(fam, s)|, i requires 0 <= i < |Own(fam, s)| => Own(fam, s)[i].id)
  }

  /** The ids of all nodes, session by session. */
  function AllIds(fam: Family, k: nat): seq<string>
    requires k <= |fam|
  {
    if k == 0 then [] else AllIds(fam, k - 1) + OwnIds(fam, fam[k - 1])
  }

  lemma {:induction false} NodeIdsAre(fam: Family, k: nat)
    requires k <= |fam|
    ensures |AllNodes(fam, k)| == |AllIds(fam, k)|
    ensures forall i :: 0 <= i < |AllIds(fam, k)| ==> AllNodes(fam, k)[i].id == AllIds(fam, k)[i]
    decreases k
  {
    hide Own, SessionNodes;
    if k == 0 {
    } else {
      NodeIdsAre(fam, k - 1);
      SessionNodesAre(fam, fam[k - 1]);
    }
  }

  lemma {:induction false} InAllIds(fam: Family, k: nat, id: string)
    requires k <= |fam|
    ensures id in AllIds(fam, k) <==> exists a :: 0 <= a < k && id in OwnIds(fam, fam[a])
    decreases k
  {
    hide Own;
    if k == 0 {
    } else {
      InAllIds(fam, k - 1, id);
    }
  }

  lemma OwnIdsAreEntries(fam: Family, s: Session, id: string)
    ensures id in OwnIds(fam, s) <==> exists i :: SharedCount(fam, s) <= i < |s.entries| && s.entries[i].id == id
  {
    var n, own, ids := SharedCount(fam, s), Own(fam, s), OwnIds(fam, s);
    if i :| n <= i < |s.entries| && s.entries[i].id == id { assert ids[i - n] == id; }
    if id in ids {
      var i :| 0 <= i < |ids| && ids[i] == id;
      assert s.entries[n + i].id == id;
    }
  }

  lemma NodesAreNamed(fam: Family)
    requires NamedEntries(fam)
    ensures forall i :: 0 <= i < |AllNodes(fam, |fam|)| ==> AllNodes(fam, |fam|)[i].id != ""
  {
    hide Own, SharedCount;
    NodeIdsAre(fam, |fam|);
    InAllIds(fam, |fam|, "");
    forall a | 0 <= a < |fam| ensures "" !in OwnIds(fam, fam[a]) { OwnIdsAreEntries(fam, fam[a], ""); }
  }

  method Assemble(fam: Family) returns (nodes: seq<Node>, keep: set<string>)
    requires NamedEntries(fam)
    ensures nodes == Graph0(fam) && keep == FirstIds(fam, |fam|)
  {
    hide SessionNodes, Own, SharedCount, LeafOf, ChildCount;
    nodes, keep := [], {};
    var anchorIds: set<string> := {};
    for k := 0 to |fam|
      invariant nodes == AllNodes(fam, k) && anchorIds == AnchorIds(fam, k) && keep == FirstIds(fam, k)
    {
      var own, anchorId := AssembleSession(fam, fam[k]);
      SessionNodesAre(fam, fam[k]);
      if own != [] { keep := keep + {own[0].id}; }
      if anchorId != "" { anchorIds := anchorIds + {anchorId}; }
      nodes := nodes + own;
    }
    var counts := CountChildren(nodes);
    NodesAreNamed(fam);
    ghost var raw := nodes;
    for i := 0 to |nodes|
      invariant |nodes| == |raw|
      invariant forall k :: 0 <= k < i ==> nodes[k] == Decorated(fam, raw, raw[k])
      invariant forall k :: i <= k < |nodes| ==> nodes[k] == raw[k]
    {
      var n := nodes[i];
      var count := if n.id in counts then counts[n.id] else 0;
      nodes := nodes[i := n.(childCount := count, isLeaf := count == 0, isHead := LeafOf(fam, n.sessionKey) == n.id,
                             isForkAnchor := n.id in anchorIds)];
    }
  }

  // ---- families of forks ----

  predicate DistinctEntries(fam: Family) {
    forall k, i, j :: 0 <= k < |fam| && 0 <= i < j < |fam[k].entries| ==> fam[k].entries[i].id != fam[k].entries[j].id
  }

  /** Own entries of different sessions have different ids. */
  predicate FreshOwn(fam: Family) {
    forall a, b, id :: 0 <= a < b < |fam| && id in OwnIds(fam, fam[a]) ==> id !in OwnIds(fam, fam[b])
  }

  /** `level` puts a fork above its parent, so that no session is its own ancestor. */
  ghost predicate Layered(fam: Family, level: seq<nat>) {
    && |level| == |fam|
    && forall k :: 0 <= k < |fam| && HasParent(fam, fam[k]) ==> level[IndexOf(fam, fam[k].parent)] < level[k]
  }

  ghost predicate Forked(fam: Family, level: seq<nat>) {
    NamedEntries(fam) && DistinctEntries(fam) && FreshOwn(fam) && Layered(fam, level)
  }

  lemma {:induction false} LeadingIs(entries: seq<Entry>, ids: set<string>, n: nat)
    requires n <= |entries| && (forall i :: 0 <= i < n ==> entries[i].id in ids)
    requires n < |entries| ==> entries[n].id !in ids
    ensures Leading(entries, ids) == n
    decreases n
  {
    if n == 0 {
    } else {
      LeadingIs(entries[1..], ids, n - 1);
    }
  }

  /** The first `n` entries are also the parent's, wherever it has them, and the next one is not. */
  predicate ForksAt(s: Session, p: Session, n: nat) {
    && n <= |s.entries| && (forall i :: 0 <= i < n ==> s.entries[i].id in EntryIds(p.entries))
    && (n < |s.entries| ==> s.entries[n].id !in EntryIds(p.entries))
  }

  /** The scan for shared entries finds the fork point, and nothing else. */
  lemma SharedIsForkPoint(fam: Family, s: Session, n: nat)
    requires HasParent(fam, s)
    ensures SharedCount(fam, s) == n <==> ForksAt(s, ParentOf(fam, s), n)
  {
    var p := ParentOf(fam, s);
    if ForksAt(s, p, n) { LeadingIs(s.entries, EntryIds(p.entries), n); }
  }

  predicate Distinct(ids: seq<string>) {
    forall i, j :: 0 <= i < j < |ids| ==> ids[i] != ids[j]
  }

  lemma DistinctConcat(a: seq<string>, b: seq<string>)
    requires Distinct(b)
    ensures Distinct(a + b) <==> Distinct(a) && forall x :: x in a ==> x !in b
  {
    if Distinct(a + b) {
      forall i, j | 0 <= i < j < |a| ensures a[i] != a[j] { assert (a + b)[i] != (a + b)[j]; }
      forall x | x in a ensures x !in b {
        var i :| 0 <= i < |a| && a[i] == x;
        forall j | 0 <= j < |b| ensures b[j] != x { assert (a + b)[i] != (a + b)[|a| + j]; }
      }
    }
    if Distinct(a) && forall x :: x in a ==> x !in b {
      forall i, j | 0 <= i < j < |a + b| ensures (a + b)[i] != (a + b)[j] {
        if i < |a| <= j { assert a[i] in a && b[j - |a|] in b; }
      }
    }
  }

  /** Own entries of the first `k` sessions have different ids. */
  predicate FreshUpTo(fam: Family, k: nat)
    requires k <= |fam|
  {
    forall a, b, id :: 0 <= a < b < k && id in OwnIds(fam, fam[a]) ==> id !in OwnIds(fam, fam[b])
  }

  /** Every node id occurs once exactly when own entries of different sessions have different ids. */
  lemma {:induction false} AllIdsAreDistinct(fam: Family, k: nat)
    requires DistinctEntries(fam) && k <= |fam|
    ensures Distinct(AllIds(fam, k)) <==> FreshUpTo(fam, k)
    decreases k
  {
    hide Own, SharedCount, OwnIds, DistinctEntries, Distinct;
    if k == 0 {
      assert Distinct([]) by { NoneDistinct(); }
    } else {
      AllIdsAreDistinct(fam, k - 1);
      var prior, own := AllIds(fam, k - 1), OwnIds(fam, fam[k - 1]);
      OwnIdsAreDistinct(fam, k - 1);
      DistinctConcat(prior, own);
      forall x ensures x in prior <==> exists a :: 0 <= a < k - 1 && x in OwnIds(fam, fam[a]) {
        InAllIds(fam, k - 1, x);
      }
    }
  }

  lemma NoneDistinct()
    ensures Distinct([])
  {
  }

  lemma OwnIdsAreDistinct(fam: Family, k: nat)
    requires DistinctEntries(fam) && k < |fam|
    ensures Distinct(OwnIds(fam, fam[k]))
  {
    var n, ids := SharedCount(fam, fam[k]), OwnIds(fam, fam[k]);
    forall i, j | 0 <= i < j < |ids| ensures ids[i] != ids[j] {
      assert ids[i] == fam[k].entries[n + i].id && ids[j] == fam[k].entries[n + j].id;
    }
  }

  /** Two forks of a message that their parent has lost since: both own it, and the graph has its id twice. */
  lemma DiscardedSharedEntryTwice(kind: Kind, role: Role)
    ensures var a, b := Entry("a", "", kind, role, "", "", []), Entry("b", "a", kind, role, "", "", []);
            var fam := [Session("p", "p", "", [a], {}), Session("f", "f", "p", [a, b], {}),
                        Session("g", "g", "p", [a, b], {})];
            && DistinctEntries(fam) && OwnIds(fam, fam[1]) == ["b"] && OwnIds(fam, fam[2]) == ["b"]
            && !FreshOwn(fam) && !Distinct(AllIds(fam, 3))
  {
    var a, b := Entry("a", "", kind, role, "", "", []), Entry("b", "a", kind, role, "", "", []);
    var fam := [Session("p", "p", "", [a], {}), Session("f", "f", "p", [a, b], {}),
                Session("g", "g", "p", [a, b], {})];
    assert IndexOf(fam, "p") == 0;
    var ids := EntryIds([a]);
    assert [a][0].id == "a";
    assert "a" in ids && "b" !in ids;
    LeadingIs([a, b], ids, 1);
    assert [a, b][1..] == [b];
    assert OwnIds(fam, fam[1]) == ["b"] && OwnIds(fam, fam[2]) == ["b"];
    assert "b" in OwnIds(fam, fam[1]) && "b" in OwnIds(fam, fam[2]);
    hide OwnIds, Own, SharedCount;
    AllIdsAreDistinct(fam, 3);
  }

  /** The session an entry is an own entry of, among the session and its ancestors, and its place there. */
  lemma {:induction false} Owner(fam: Family, level: seq<nat>, k: nat, i: nat) returns (a: nat, j: nat)
    requires Layered(fam, level) && k < |fam| && i < |fam[k].entries|
    ensures a < |fam| && SharedCount(fam, fam[a]) <= j < |fam[a].entries|
    ensures fam[a].entries[j].id == fam[k].entries[i].id
    ensures if i < SharedCount(fam, fam[k]) then level[a] < level[k] else a == k && j == i
    decreases level[k]
  {
    if i >= SharedCount(fam, fam[k]) {
      a, j := k, i;
    } else {
      var p := IndexOf(fam, fam[k].parent);
      assert fam[k].entries[i].id in EntryIds(fam[p].entries);
      var m :| 0 <= m < |fam[p].entries| && fam[p].entries[m].id == fam[k].entries[i].id;
      a, j := Owner(fam, level, p, m);
    }
  }

  /** Every entry of every session is a node of the graph, and only one if own entries are fresh. */
  lemma EveryEntryIsOneNode(fam: Family, level: seq<nat>, k: nat, i: nat)
    requires Layered(fam, level) && DistinctEntries(fam) && k < |fam| && i < |fam[k].entries|
    ensures Mentions(AllNodes(fam, |fam|), fam[k].entries[i].id) && Mentions(Graph0(fam), fam[k].entries[i].id)
    ensures FreshOwn(fam) <==> DistinctIds(Graph0(fam))
  {
    hide Own, SharedCount, OwnIds, LeafOf, ChildCount, DistinctIds;
    var a, j := Owner(fam, level, k, i);
    var id := fam[k].entries[i].id;
    OwnIdsAreEntries(fam, fam[a], id);
    InAllIds(fam, |fam|, id);
    GraphIds(fam);
    var m :| 0 <= m < |AllIds(fam, |fam|)| && AllIds(fam, |fam|)[m] == id;
    assert AllNodes(fam, |fam|)[m].id == id && Graph0(fam)[m].id == id;
  }

  lemma GraphIds(fam: Family)
    requires DistinctEntries(fam)
    ensures var ids := AllIds(fam, |fam|);
            && |AllNodes(fam, |fam|)| == |Graph0(fam)| == |ids|
            && forall i :: 0 <= i < |ids| ==> AllNodes(fam, |fam|)[i].id == ids[i] && Graph0(fam)[i].id == ids[i]
    ensures DistinctIds(AllNodes(fam, |fam|)) <==> FreshOwn(fam)
    ensures DistinctIds(Graph0(fam)) <==> FreshOwn(fam)
  {
    hide AllIds, AllNodes, LeafOf, ChildCount, DistinctEntries, OwnIds;
    AllIdsAreDistinct(fam, |fam|);
    NodeIdsAre(fam, |fam|);
    SameDistinct(AllNodes(fam, |fam|), AllIds(fam, |fam|));
    SameDistinct(Graph0(fam), AllIds(fam, |fam|));
  }

  lemma SameDistinct(nodes: seq<Node>, ids: seq<string>)
    requires |nodes| == |ids| && forall i :: 0 <= i < |ids| ==> nodes[i].id == ids[i]
    ensures DistinctIds(nodes) <==> Distinct(ids)
  {
    if DistinctIds(nodes) {
      forall i, j | 0 <= i < j < |ids| ensures ids[i] != ids[j] { assert nodes[i].id != nodes[j].id; }
    }
    if Distinct(ids) {
      forall i, j | 0 <= i < j < |nodes| ensures nodes[i].id != nodes[j].id { assert ids[i] != ids[j]; }
    }
  }

  /** A fork's first own node hangs off the last entry it shares with its parent, which is a node of the graph. */
  lemma ForkHangsOffLastShared(fam: Family, level: seq<nat>, k: nat)
    requires NamedEntries(fam) && DistinctEntries(fam) && Layered(fam, level) && k < |fam|
    requires 0 < SharedCount(fam, fam[k]) < |fam[k].entries|
    ensures var n, nodes := SharedCount(fam, fam[k]), SessionNodes(fam, fam[k]);
            && nodes != [] && nodes[0].id == fam[k].entries[n].id && nodes[0].parent == fam[k].entries[n - 1].id
            && nodes[0].parent in EntryIds(ParentOf(fam, fam[k]).entries)
            && Mentions(AllNodes(fam, |fam|), nodes[0].parent)
  {
    hide Layered, AllNodes, Mentions, OwnIds;
    var s, n := fam[k], SharedCount(fam, fam[k]);
    var own := Own(fam, s);
    forall i | 0 <= i < |own| ensures own[i].id != s.entries[n - 1].id {
      assert own[i] == s.entries[n + i];
    }
    EveryEntryIsOneNode(fam, level, k, n - 1);
  }

  // ---- links as the files have them ----

  predicate LinksAsFiled(fam: Family, s: Session) {
    forall i :: 0 <= i < |Own(fam, s)| ==> SessionNodes(fam, s)[i].parent == Own(fam, s)[i].parent
  }

  /** What a session hangs off is none of its own entries. */
  lemma AnchorIsForeign(fam: Family, level: seq<nat>, k: nat)
    requires Forked(fam, level) && k < |fam|
    ensures Anchor(fam, fam[k]) !in EntryIds(Own(fam, fam[k]))
  {
    hide FreshOwn, Leading, Layered, OwnIds;
    var s, own, n := fam[k], Own(fam, fam[k]), SharedCount(fam, fam[k]);
    var anchor := Anchor(fam, s);
    if anchor in EntryIds(own) {
      var i :| 0 <= i < |own| && own[i].id == anchor;
      assert own[i] == s.entries[n + i];
      OwnIdsAreEntries(fam, s, anchor);
      if n == 0 && anchor != "" { LeafIsForeign(fam, level, k); }
    }
  }

  lemma LeafIsForeign(fam: Family, level: seq<nat>, k: nat)
    requires Forked(fam, level) && k < |fam| && HasParent(fam, fam[k]) && ParentOf(fam, fam[k]).entries != []
    ensures LeafId(ParentOf(fam, fam[k])) !in OwnIds(fam, fam[k])
  {
    hide Own, SharedCount, OwnIds, NamedEntries, DistinctEntries;
    var p := IndexOf(fam, fam[k].parent);
    var i := |fam[p].entries| - 1;
    var a, j := Owner(fam, level, p, i);
    OwnIdsAreEntries(fam, fam[a], fam[p].entries[i].id);
    assert a != k;
  }

  /** The nodes of a session link as its file does exactly when its first own entry follows the entry the session hangs
      off, and every other one follows an entry of the file that is not shared, or none at all. */
  lemma LinksAsFiledExactly(fam: Family, level: seq<nat>, k: nat)
    requires Forked(fam, level) && k < |fam|
    ensures var s, own, anchor := fam[k], Own(fam, fam[k]), Anchor(fam, fam[k]);
            LinksAsFiled(fam, s) <==>
            forall i :: 0 <= i < |own| ==>
              if i == 0 && anchor != "" then own[i].parent == anchor
              else own[i].parent == "" ||
                   (own[i].parent in EntryIds(s.entries) &&
                    own[i].parent !in EntryIds(s.entries[..SharedCount(fam, s)]))
  {
    hide FreshOwn, Layered, Leading, IndexOf, OwnIds;
    var s, own, n := fam[k], Own(fam, fam[k]), SharedCount(fam, fam[k]);
    AnchorIsForeign(fam, level, k);
    forall i | 0 <= i < |own|
      ensures own[i].parent in EntryIds(own) <==>
              own[i].parent in EntryIds(s.entries) && own[i].parent !in EntryIds(s.entries[..n])
      ensures "" !in EntryIds(own)
    {
      SharedOrOwn(fam, k, own[i].parent);
      NamedOwn(fam, k);
    }
  }

  lemma NamedOwn(fam: Family, k: nat)
    requires NamedEntries(fam) && k < |fam|
    ensures "" !in EntryIds(Own(fam, fam[k]))
  {
    hide SharedCount;
    var n, own := SharedCount(fam, fam[k]), Own(fam, fam[k]);
    forall i | 0 <= i < |own| ensures own[i].id != "" { assert own[i] == fam[k].entries[n + i]; }
  }

  lemma SharedOrOwn(fam: Family, k: nat, id: string)
    requires DistinctEntries(fam) && k < |fam|
    ensures var s, n := fam[k], SharedCount(fam, fam[k]);
            id in EntryIds(Own(fam, s)) <==> id in EntryIds(s.entries) && id !in EntryIds(s.entries[..n])
  {
    var s, n, own := fam[k], SharedCount(fam, fam[k]), Own(fam, fam[k]);
    if j :| 0 <= j < |s.entries| && s.entries[j].id == id {
      if j < n { assert s.entries[..n][j].id == id; } else { assert own[j - n].id == id; }
    }
    if j :| 0 <= j < |own| && own[j].id == id { assert s.entries[n + j].id == id; }
    if j :| 0 <= j < n && s.entries[..n][j].id == id { assert s.entries[j].id == id; }
  }

  /** A fork that copied two entries, went on from the second, and later went back to the first: in the graph that later
      entry is a root. */
  lemma BranchAtSharedEntryIsRoot(kind: Kind, role: Role)
    ensures var a, b := Entry("a", "", kind, role, "", "", []), Entry("b", "a", kind, role, "", "", []);
            var c, d := Entry("c", "b", kind, role, "", "", []), Entry("d", "a", kind, role, "", "", []);
            var parent, fork := Session("p", "p", "", [a, b], {}), Session("f", "f", "p", [a, b, c, d], {});
            var fam := [parent, fork];
            && Own(fam, fork) == [c, d] && SessionNodes(fam, fork)[0].parent == "b"
            && SessionNodes(fam, fork)[1].id == "d"
            && SessionNodes(fam, fork)[1].parent == "" && !LinksAsFiled(fam, fork)
  {
    var a, b := Entry("a", "", kind, role, "", "", []), Entry("b", "a", kind, role, "", "", []);
    var c, d := Entry("c", "b", kind, role, "", "", []), Entry("d", "a", kind, role, "", "", []);
    var parent, fork := Session("p", "p", "", [a, b], {}), Session("f", "f", "p", [a, b, c, d], {});
    var fam := [parent, fork];
    assert IndexOf(fam, "p") == 0 && fork.parent == "p";
    var ids := EntryIds(parent.entries);
    assert parent.entries[0].id == "a" && parent.entries[1].id == "b";
    assert "a" in ids && "b" in ids && "c" !in ids;
    LeadingIs(fork.entries, ids, 2);
    assert Own(fam, fork) == [c, d];
    var local := EntryIds([c, d]);
    assert "a" !in local && "b" !in local;
  }

  // ---- the graph is a forest with true child counts ----

  /** The session's `i`-th own entry keeps its link to the `j`-th: only the first one may hang off another session. */
  predicate Keeps(fam: Family, s: Session, i: int, j: int) {
    var own := Own(fam, s);
    0 <= i < |own| && 0 <= j < |own| && own[i].parent == own[j].id && (i > 0 || Anchor(fam, s) == "")
  }

  /** Every kept link leads to a lesser depth, so that the links of the files have no cycle. */
  ghost predicate Acyclic(fam: Family, depth: map<string, nat>) {
    forall k, i, j :: 0 <= k < |fam| && Keeps(fam, fam[k], i, j) ==>
      var c, p := Own(fam, fam[k])[i].id, Own(fam, fam[k])[j].id;
      c in depth && p in depth && depth[p] < depth[c]
  }

  /** Links inside a file that lead to a lesser depth, whatever the order of its entries. */
  ghost predicate Descends(entries: seq<Entry>, depth: map<string, nat>) {
    forall i, j :: 0 <= i < |entries| && 0 <= j < |entries| && entries[i].parent == entries[j].id ==>
      entries[i].id in depth && entries[j].id in depth && depth[entries[j].id] < depth[entries[i].id]
  }

  /** Files without cycles make a family without: it is not asked that entries link to earlier ones. */
  lemma AcyclicFiles(fam: Family, depths: seq<map<string, nat>>) returns (depth: map<string, nat>)
    requires FreshOwn(fam) && |depths| == |fam| && forall k :: 0 <= k < |fam| ==> Descends(fam[k].entries, depths[k])
    ensures Acyclic(fam, depth)
  {
    hide SharedCount, Anchor, OwnIds, AllIds, Own;
    depth := map id | id in AllIds(fam, |fam|) :: OwnerDepth(fam, depths, id);
    forall k, i, j | 0 <= k < |fam| && Keeps(fam, fam[k], i, j)
      ensures var c, p := Own(fam, fam[k])[i].id, Own(fam, fam[k])[j].id;
              c in depth && p in depth && depth[p] < depth[c]
    {
      KeptDescends(fam, k, i, j, depths[k]);
      OwnerDepthIs(fam, depths, k, i);
      OwnerDepthIs(fam, depths, k, j);
    }
  }

  /** The depth an id has in the file of the session that owns it. */
  ghost function OwnerDepth(fam: Family, depths: seq<map<string, nat>>, id: string): nat
    requires |depths| == |fam|
  {
    if k :| 0 <= k < |fam| && id in OwnIds(fam, fam[k]) then if id in depths[k] then depths[k][id] else 0 else 0
  }

  lemma OwnerDepthIs(fam: Family, depths: seq<map<string, nat>>, k: nat, i: int)
    requires FreshOwn(fam) && |depths| == |fam| && k < |fam| && 0 <= i < |Own(fam, fam[k])|
    ensures var id := Own(fam, fam[k])[i].id;
            && id in AllIds(fam, |fam|)
            && OwnerDepth(fam, depths, id) == if id in depths[k] then depths[k][id] else 0
  {
    hide Own, SharedCount, AllIds;
    var id := Own(fam, fam[k])[i].id;
    assert OwnIds(fam, fam[k])[i] == id;
    InAllIds(fam, |fam|, id);
  }

  lemma KeptDescends(fam: Family, k: nat, i: int, j: int, depth: map<string, nat>)
    requires k < |fam| && Keeps(fam, fam[k], i, j) && Descends(fam[k].entries, depth)
    ensures var c, p := Own(fam, fam[k])[i].id, Own(fam, fam[k])[j].id;
            c in depth && p in depth && depth[p] < depth[c]
  {
    hide SharedCount, Anchor;
    var s, n := fam[k], SharedCount(fam, fam[k]);
    assert Own(fam, s)[i] == s.entries[n + i] && Own(fam, s)[j] == s.entries[n + j];
  }

  /** A file that is written again with some of its entries, in any order, has no new cycle. */
  lemma RewriteDescends(entries: seq<Entry>, kept: seq<Entry>, depth: map<string, nat>)
    requires Descends(entries, depth) && forall e :: e in kept ==> e in entries
    ensures Descends(kept, depth)
  {
    forall i, j | 0 <= i < |kept| && 0 <= j < |kept| && kept[i].parent == kept[j].id
      ensures kept[i].id in depth && kept[j].id in depth && depth[kept[j].id] < depth[kept[i].id]
    {
      assert kept[i] in entries && kept[j] in entries;
      var a :| 0 <= a < |entries| && entries[a] == kept[i];
      var b :| 0 <= b < |entries| && entries[b] == kept[j];
    }
  }

  /** A withdrawal moves the parent of the message behind its other children: the link then leads forward in the
      file. */
  lemma MovedParentDescends(kind: Kind, role: Role)
    ensures var r, a := Entry("r", "", kind, role, "", "", []), Entry("a", "r", kind, role, "", "", []);
            var b := Entry("b", "a", kind, role, "", "", []);
            Descends([r, a, b], map["r" := 0, "a" := 1, "b" := 2]) &&
              Descends([r, b, a], map["r" := 0, "a" := 1, "b" := 2])
  {
    var r, a := Entry("r", "", kind, role, "", "", []), Entry("a", "r", kind, role, "", "", []);
    var b := Entry("b", "a", kind, role, "", "", []);
    RewriteDescends([r, a, b], [r, b, a], map["r" := 0, "a" := 1, "b" := 2]);
  }

  /** A node's parent is the anchor when there is one, else a kept link, else none. */
  lemma NodeParent(fam: Family, level: seq<nat>, k: nat, i: nat)
    requires Forked(fam, level) && k < |fam| && i < |Own(fam, fam[k])|
    ensures var own, anchor, n := Own(fam, fam[k]), Anchor(fam, fam[k]), SessionNodes(fam, fam[k])[i];
            && n.id == own[i].id && (i == 0 && anchor != "" ==> n.parent == anchor)
            && (!(i == 0 && anchor != "") ==>
                  (n.parent == "" && own[i].parent !in EntryIds(own)) ||
                  (n.parent == own[i].parent && n.parent != "" && n.parent in EntryIds(own)))
  {
    AnchorIsForeign(fam, level, k);
    NamedOwn(fam, k);
    hide Own, Anchor, EntryIds, Forked;
  }

  /** `id` is the i-th entry of session `a`, and the session's own. */
  predicate OwnAt(fam: Family, a: nat, i: nat, id: string) {
    a < |fam| && SharedCount(fam, fam[a]) <= i < |fam[a].entries| && fam[a].entries[i].id == id
  }

  ghost function LevelOf(fam: Family, level: seq<nat>, id: string): nat
    requires |level| == |fam|
  {
    if exists a: nat, i: nat :: OwnAt(fam, a, i, id) then var a: nat, i: nat :| OwnAt(fam, a, i, id); level[a] else 0
  }

  lemma LevelOfOwn(fam: Family, level: seq<nat>, a: nat, i: nat)
    requires Forked(fam, level) && a < |fam| && i < |fam[a].entries| && OwnAt(fam, a, i, fam[a].entries[i].id)
    ensures LevelOf(fam, level, fam[a].entries[i].id) == level[a]
  {
    hide Own, SharedCount, OwnIds, Layered, NamedEntries, DistinctEntries;
    var id := fam[a].entries[i].id;
    forall b: nat, j: nat | OwnAt(fam, b, j, id) ensures b == a {
      OwnIdsAreEntries(fam, fam[a], id);
      OwnIdsAreEntries(fam, fam[b], id);
    }
  }

  /** Ranks: first by level, then by depth. */
  ghost function RankMap(fam: Family, level: seq<nat>, depth: map<string, nat>): map<string, nat>
    requires |level| == |fam|
  {
    map id | id in AllIds(fam, |fam|) ::
      LevelOf(fam, level, id) * (Deepest(depth.Keys, depth) + 1) + (if id in depth then depth[id] else 0)
  }

  ghost function Deepest(ids: set<string>, depth: map<string, nat>): (d: nat)
    requires ids <= depth.Keys
    ensures forall id :: id in ids ==> depth[id] <= d
    decreases |ids|
  {
    if ids == {} then 0
    else
      var id :| id in ids;
      var d := Deepest(ids - {id}, depth);
      if d < depth[id] then depth[id] else d
  }

  lemma LevelsApart(a: nat, b: nat, width: nat, x: nat, y: nat)
    requires a < b && x < width
    ensures a * width + x < b * width + y
  {
    assert (a + 1) * width <= b * width;
  }

  /** What a session hangs off belongs to a session of a lower level. */
  lemma AnchorIsLower(fam: Family, level: seq<nat>, k: nat)
    requires Forked(fam, level) && k < |fam| && Anchor(fam, fam[k]) != ""
    ensures Anchor(fam, fam[k]) in AllIds(fam, |fam|) && LevelOf(fam, level, Anchor(fam, fam[k])) < level[k]
  {
    hide Forked, LevelOf, OwnIds, AllIds, Anchor, SharedCount;
    ForkedIsNamed(fam, level);
    var a, j := AnchorOwner(fam, level, k);
    LevelOfOwn(fam, level, a, j);
    OwnIdsAreEntries(fam, fam[a], Anchor(fam, fam[k]));
    InAllIds(fam, |fam|, Anchor(fam, fam[k]));
  }

  /** Where what a session hangs off is an own entry. */
  lemma AnchorOwner(fam: Family, level: seq<nat>, k: nat) returns (a: nat, j: nat)
    requires Layered(fam, level) && k < |fam| && Anchor(fam, fam[k]) != ""
    ensures a < |fam| && SharedCount(fam, fam[a]) <= j < |fam[a].entries| && level[a] < level[k]
    ensures fam[a].entries[j].id == Anchor(fam, fam[k])
  {
    hide EntryIds, Leading;
    var n := SharedCount(fam, fam[k]);
    if n > 0 {
      a, j := Owner(fam, level, k, n - 1);
    } else {
      var p := IndexOf(fam, fam[k].parent);
      a, j := Owner(fam, level, p, |fam[p].entries| - 1);
    }
  }

  lemma OwnLevel(fam: Family, level: seq<nat>, k: nat, i: nat)
    requires Forked(fam, level) && k < |fam| && i < |Own(fam, fam[k])|
    ensures var id := Own(fam, fam[k])[i].id; id in AllIds(fam, |fam|) && LevelOf(fam, level, id) == level[k]
  {
    hide LevelOf, Forked, AllIds, SharedCount;
    var n := SharedCount(fam, fam[k]);
    assert Own(fam, fam[k])[i] == fam[k].entries[n + i];
    LevelOfOwn(fam, level, k, n + i);
    OwnIdsAreEntries(fam, fam[k], fam[k].entries[n + i].id);
    InAllIds(fam, |fam|, fam[k].entries[n + i].id);
  }

  /** The parent of an own entry's node has a lower rank. */
  lemma NodeParentRanksLower(fam: Family, level: seq<nat>, depth: map<string, nat>, k: nat, i: nat)
    requires Forked(fam, level) && Acyclic(fam, depth) && k < |fam| && i < |Own(fam, fam[k])|
    ensures var n, rank := SessionNodes(fam, fam[k])[i], RankMap(fam, level, depth);
            n.parent != "" ==> n.id in rank && n.parent in rank && rank[n.parent] < rank[n.id]
  {
    hide Forked, LevelOf, AllIds, Own, SessionNodes, Anchor, Deepest;
    var own, anchor, node := Own(fam, fam[k]), Anchor(fam, fam[k]), SessionNodes(fam, fam[k])[i];
    var width := Deepest(depth.Keys, depth) + 1;
    ForkedIsNamed(fam, level);
    NodeParent(fam, level, k, i);
    OwnLevel(fam, level, k, i);
    if node.parent == "" {
    } else if i == 0 && anchor != "" {
      AnchorIsLower(fam, level, k);
      LevelsApart(LevelOf(fam, level, anchor), level[k], width, if anchor in depth then depth[anchor] else 0,
                  if node.id in depth then depth[node.id] else 0);
    } else {
      var j :| 0 <= j < |own| && own[j].id == node.parent;
      assert Keeps(fam, fam[k], i, j);
      OwnLevel(fam, level, k, j);
    }
  }

  lemma {:induction false} NodeInSession(fam: Family, k: nat, i: nat) returns (a: nat, j: nat)
    requires k <= |fam| && i < |AllNodes(fam, k)|
    ensures a < k && j < |Own(fam, fam[a])| && SessionNodes(fam, fam[a])[j] == AllNodes(fam, k)[i]
    decreases k
  {
    hide SessionNodes, Own;
    var older := AllNodes(fam, k - 1);
    if i < |older| {
      a, j := NodeInSession(fam, k - 1, i);
    } else {
      a, j := k - 1, i - |older|;
    }
  }

  lemma {:induction false} SessionInNodes(fam: Family, k: nat, a: nat, j: nat) returns (i: nat)
    requires a < k <= |fam| && j < |Own(fam, fam[a])|
    ensures i < |AllNodes(fam, k)| && AllNodes(fam, k)[i] == SessionNodes(fam, fam[a])[j]
    decreases k
  {
    hide SessionNodes, Own;
    if a == k - 1 {
      i := |AllNodes(fam, k - 1)| + j;
    } else {
      i := SessionInNodes(fam, k - 1, a, j);
    }
  }

  /** The graph is a forest, every link leading to a node of lower rank, exactly when the links that the files keep have
      no cycle. */
  lemma FamilyIsForest(fam: Family, level: seq<nat>, g: Graph)
    requires Forked(fam, level) && GraphOf(Graph0(fam), g)
    ensures ValidGraph(g)
    ensures forall depth :: Acyclic(fam, depth) ==> |level| == |fam| && Ranked(g, RankMap(fam, level, depth))
    ensures forall rank :: Ranked(g, rank) ==> Acyclic(fam, rank)
    ensures (exists rank :: Ranked(g, rank)) <==> exists depth :: Acyclic(fam, depth)
  {
    hide Forked, Graph0, Acyclic, Ranked, RankMap;
    ForkedIsNamed(fam, level);
    GraphIsValid(fam, g);
    forall depth | Acyclic(fam, depth) ensures Ranked(g, RankMap(fam, level, depth)) {
      AcyclicRanks(fam, level, depth, g);
    }
    forall rank | Ranked(g, rank) ensures Acyclic(fam, rank) { RanksAreAcyclic(fam, level, rank, g); }
  }

  lemma GraphIsValid(fam: Family, g: Graph)
    requires NamedEntries(fam) && GraphOf(Graph0(fam), g)
    ensures ValidGraph(g)
  {
    hide Graph0, NamedEntries;
    GraphIsNamed(fam);
    forall id | id in g ensures g[id].id == id && id != "" {
      var i :| 0 <= i < |Graph0(fam)| && Graph0(fam)[i].id == id;
    }
  }

  lemma AcyclicRanks(fam: Family, level: seq<nat>, depth: map<string, nat>, g: Graph)
    requires Forked(fam, level) && |level| == |fam| && Acyclic(fam, depth) && GraphOf(Graph0(fam), g)
    ensures Ranked(g, RankMap(fam, level, depth))
  {
    hide Forked, AllNodes, LeafOf, ChildCount, RankMap, SessionNodes, Own, AnchorIds, Acyclic, NamedEntries;
    ForkedIsNamed(fam, level);
    GraphIsValid(fam, g);
    var nodes, rank := Graph0(fam), RankMap(fam, level, depth);
    forall c, p | IsChild(g, c, p) ensures c in rank && p in rank && rank[p] < rank[c] {
      var i :| 0 <= i < |nodes| && nodes[i].id == c;
      var k, j := NodeInSession(fam, |fam|, i);
      NodeParentRanksLower(fam, level, depth, k, j);
    }
  }

  lemma RanksAreAcyclic(fam: Family, level: seq<nat>, rank: map<string, nat>, g: Graph)
    requires Forked(fam, level) && Ranked(g, rank) && GraphOf(Graph0(fam), g)
    ensures Acyclic(fam, rank)
  {
    hide Forked, AllNodes, LeafOf, ChildCount, SessionNodes, Own, AnchorIds, Ranked;
    forall k, i, j | 0 <= k < |fam| && Keeps(fam, fam[k], i, j)
      ensures IsChild(g, Own(fam, fam[k])[i].id, Own(fam, fam[k])[j].id)
    {
      NodeParent(fam, level, k, i);
      NodeParent(fam, level, k, j);
      var a := SessionInNodes(fam, |fam|, k, i);
      var b := SessionInNodes(fam, |fam|, k, j);
      assert Graph0(fam)[a].id in g && Graph0(fam)[b].id in g;
    }
    RanksAreDepths(fam, rank, g);
  }

  lemma RanksAreDepths(fam: Family, rank: map<string, nat>, g: Graph)
    requires Ranked(g, rank)
    requires forall k, i, j :: 0 <= k < |fam| && Keeps(fam, fam[k], i, j) ==>
               IsChild(g, Own(fam, fam[k])[i].id, Own(fam, fam[k])[j].id)
    ensures Acyclic(fam, rank)
  {
    hide Own, IsChild;
  }

  lemma ForkedIsNamed(fam: Family, level: seq<nat>)
    requires Forked(fam, level)
    ensures NamedEntries(fam) && Layered(fam, level)
  {
  }

  ghost function ChildrenIn(nodes: seq<Node>, id: string): set<string> {
    set i | 0 <= i < |nodes| && nodes[i].parent == id :: nodes[i].id
  }

  /** The places of the nodes that link to an id. */
  ghost function LinkingTo(nodes: seq<Node>, id: string): set<int> {
    set i | 0 <= i < |nodes| && nodes[i].parent == id
  }

  /** The count is the number of nodes that link to the id, repeated or not. */
  lemma {:induction false} CountsTheLinks(nodes: seq<Node>, id: string)
    ensures ChildCount(nodes, id) == |LinkingTo(nodes, id)|
    decreases |nodes|
  {
    if nodes == [] {
    } else {
      var n := |nodes| - 1;
      CountsTheLinks(nodes[..n], id);
      assert LinkingTo(nodes, id) == LinkingTo(nodes[..n], id) + if nodes[n].parent == id then {n} else {};
    }
  }

  /** For distinct ids it is the number of children. */
  lemma {:induction false} CountsTheChildren(nodes: seq<Node>, id: string)
    requires DistinctIds(nodes)
    ensures ChildCount(nodes, id) == |ChildrenIn(nodes, id)|
    decreases |nodes|
  {
    if nodes == [] {
    } else {
      var n := |nodes| - 1;
      var init, last := nodes[..n], nodes[n];
      CountsTheChildren(init, id);
      assert nodes == init + [last];
      ChildrenStep(init, last, id);
      assert last.id !in ChildrenIn(init, id) by {
        assert forall i :: 0 <= i < n ==> init[i] == nodes[i];
      }
    }
  }

  lemma ChildrenStep(init: seq<Node>, last: Node, id: string)
    ensures ChildrenIn(init + [last], id) == ChildrenIn(init, id) + if last.parent == id then {last.id} else {}
  {
    var all := init + [last];
    assert all[|init|] == last;
    forall x | x in ChildrenIn(init, id) ensures x in ChildrenIn(all, id) {
      var i :| 0 <= i < |init| && init[i].parent == id && init[i].id == x;
      assert all[i] == init[i];
    }
    forall x | x in ChildrenIn(all, id) ensures x in ChildrenIn(init, id) || (x == last.id && last.parent == id) {
      var i :| 0 <= i < |all| && all[i].parent == id && all[i].id == x;
      if i < |init| { assert init[i] == all[i]; }
    }
  }

  /** In every graph a node's count is the number of nodes that link to it, and for distinct ids that of its
      children. */
  lemma GraphCountsChildren(fam: Family, i: nat)
    requires i < |Graph0(fam)|
    ensures var g := Graph0(fam);
            && g[i].childCount == |LinkingTo(g, g[i].id)| && (g[i].isLeaf <==> LinkingTo(g, g[i].id) == {})
            && (DistinctIds(g) ==> g[i].childCount == |ChildrenIn(g, g[i].id)|)
  {
    hide LeafOf, AllNodes, ChildCount, AnchorIds;
    var raw, g, id := AllNodes(fam, |fam|), Graph0(fam), Graph0(fam)[i].id;
    CountsTheLinks(raw, id);
    assert LinkingTo(raw, id) == LinkingTo(g, id);
    if DistinctIds(g) {
      SameCount(raw, g, id);
      CountsTheChildren(g, id);
    }
  }

  lemma {:induction false} SameCount(a: seq<Node>, b: seq<Node>, id: string)
    requires |a| == |b| && forall i :: 0 <= i < |a| ==> a[i].parent == b[i].parent
    ensures ChildCount(a, id) == ChildCount(b, id)
    decreases |a|
  {
    if a == [] {
    } else {
      SameCount(a[..|a| - 1], b[..|b| - 1], id);
    }
  }

  /** A collapsed graph still shows every node that was to be kept. */
  lemma KeptAreShown(all: seq<Node>, keep: set<string>, nodes: seq<Node>)
    requires DistinctIds(all) && (forall i :: 0 <= i < |all| ==> all[i].id != "") && Contraction(all, keep, nodes)
    ensures forall id :: id in keep && Mentions(all, id) ==> Mentions(nodes, id)
  {
    hide LinearRuns.Contracts, LinearRuns.GraphFrom, LinearRuns.Mentions, LinearRuns.ValidGraph, LinearRuns.GraphOf;
    GraphFromIs(all);
    var g := GraphFrom(all);
    var fold, reached :| Contracts(g, keep, fold, reached, nodes);
    forall id | id in keep && Mentions(all, id) ensures Mentions(nodes, id) {
      MentionedIsNode(all, g, id);
      KeptSurvives(g, keep, fold, reached, nodes, id);
    }
  }

  lemma MentionedIsNode(nodes: seq<Node>, g: Graph, id: string)
    requires GraphOf(nodes, g) && Mentions(nodes, id)
    ensures id in g
  {
  }

  lemma KeptSurvives(g: Graph, keep: set<string>, fold: Folding, reached: set<string>, out: seq<Node>, id: string)
    requires ValidGraph(g) && Contracts(g, keep, fold, reached, out) && id in g && id in keep
    ensures Mentions(out, id)
  {
    hide LinearRuns.Contracts;
    StructuralSurvives(g, keep, fold, reached, out, id);
  }

  lemma GraphIsNamed(fam: Family)
    requires NamedEntries(fam)
    ensures forall i :: 0 <= i < |Graph0(fam)| ==> Graph0(fam)[i].id != ""
  {
    hide AllNodes, LeafOf, ChildCount;
    NodesAreNamed(fam);
    assert forall i :: 0 <= i < |Graph0(fam)| ==> Graph0(fam)[i].id == AllNodes(fam, |fam|)[i].id;
  }
}
