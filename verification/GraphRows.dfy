/**
 * What the assembled graph of a family shows of each entry (backend/live-sessions/session-tree.ts): every field of a
 * node, the order of the nodes, and what the first own entry of a session hangs off.
 */
module GraphRows {
  import opened Wrappers
  import opened LinearRuns
  import opened FamilyGraph

  /** The file a session was forked from is the first of the family stored under that name. */
  predicate ForkedFrom(fam: Family, s: Session, p: nat) {
    s.parent != "" && p < |fam| && fam[p].file == s.parent && forall k :: 0 <= k < p ==> fam[k].file != s.parent
  }

  lemma ParentExactly(fam: Family, s: Session, p: nat)
    ensures ForkedFrom(fam, s, p) <==> HasParent(fam, s) && IndexOf(fam, s.parent) == p
    ensures !HasParent(fam, s) <==> s.parent == "" || forall k :: 0 <= k < |fam| ==> fam[k].file != s.parent
  {
    var k := IndexOf(fam, s.parent);
    assert k < |fam| ==> fam[k].file == s.parent;
    if ForkedFrom(fam, s, p) { assert !(k < p) && !(p < k); }
  }

  /** An entry is shared while the parent file has every entry up to it, and a session without parent shares none. */
  lemma SharedExactly(fam: Family, s: Session, n: nat)
    ensures SharedCount(fam, s) == n <==>
            && (HasParent(fam, s) || n == 0) && n <= |s.entries|
            && (HasParent(fam, s) ==>
                  (forall i :: 0 <= i < n ==> Names(ParentOf(fam, s).entries, s.entries[i].id)) &&
                  (n < |s.entries| ==> !Names(ParentOf(fam, s).entries, s.entries[n].id)))
  {
    if HasParent(fam, s) {
      SharedIsForkPoint(fam, s, n);
      forall id ensures id in EntryIds(ParentOf(fam, s).entries) <==> Names(ParentOf(fam, s).entries, id) {
        NamesExactly(ParentOf(fam, s).entries, id);
      }
      hide SharedCount, HasParent, ParentOf, EntryIds, Names;
    }
  }

  predicate Names(entries: seq<Entry>, id: string) {
    exists i :: 0 <= i < |entries| && entries[i].id == id
  }

  lemma NamesExactly(entries: seq<Entry>, id: string)
    ensures id in EntryIds(entries) <==> Names(entries, id)
  {
  }

  /** The newest session with a key. */
  predicate NewestOf(fam: Family, key: string, b: nat) {
    b < |fam| && fam[b].key == key && forall c :: b < c < |fam| ==> fam[c].key != key
  }

  /** The last entry of the newest session with a key. */
  ghost predicate IsHead(fam: Family, key: string, id: string) {
    exists b: nat :: NewestOf(fam, key, b) && fam[b].entries != [] && fam[b].entries[|fam[b].entries| - 1].id == id
  }

  lemma {:induction false} NewestLeaf(fam: Family, key: string) returns (b: nat)
    ensures NewestOf(fam, key, b) || (forall c :: 0 <= c < |fam| ==> fam[c].key != key)
    ensures LeafOf(fam, key) == if NewestOf(fam, key, b) then LeafId(fam[b]) else ""
    decreases |fam|
  {
    hide LeafId;
    if fam == [] {
      b := 0;
    } else {
      var n := |fam| - 1;
      if fam[n].key == key {
        b := n;
      } else {
        var older := fam[..n];
        b := NewestLeaf(older, key);
        assert forall c :: 0 <= c < n ==> older[c] == fam[c];
      }
    }
  }

  lemma LeafExactly(fam: Family, key: string, id: string)
    requires id != ""
    ensures LeafOf(fam, key) == id <==> IsHead(fam, key, id)
  {
    var b := NewestLeaf(fam, key);
    hide LeafOf;
    forall c: nat | NewestOf(fam, key, c) ensures c == b {
      assert !(c < b < |fam|) && !(b < c);
    }
    assert IsHead(fam, key, id) <==> exists c: nat :: NewestOf(fam, key, c) && LeafId(fam[c]) == id;
  }

  /** Some session shares its entries up to this one and no further. */
  predicate IsAnchor(fam: Family, k: nat, id: string)
    requires k <= |fam|
  {
    exists b :: 0 <= b < k && SharedCount(fam, fam[b]) > 0 && fam[b].entries[SharedCount(fam, fam[b]) - 1].id == id
  }

  lemma {:induction false} AnchorsExactly(fam: Family, k: nat, id: string)
    requires k <= |fam|
    ensures id in AnchorIds(fam, k) <==> IsAnchor(fam, k, id)
    decreases k
  {
    hide SharedCount;
    if k == 0 {
    } else {
      AnchorsExactly(fam, k - 1, id);
    }
  }

  /** The nodes kept whatever their place are the first own entries of the sessions. */
  lemma {:induction false} FirstsExactly(fam: Family, k: nat, id: string)
    requires k <= |fam|
    ensures id in FirstIds(fam, k) <==>
            exists b :: 0 <= b < k && SharedCount(fam, fam[b]) < |fam[b].entries| &&
                        fam[b].entries[SharedCount(fam, fam[b])].id == id
    decreases k
  {
    hide SharedCount;
    if k == 0 {
    } else {
      FirstsExactly(fam, k - 1, id);
    }
  }

  /** Node `n` shows entry `j` of session `s`. */
  predicate Shows(s: Session, j: nat, n: Node) {
    && j < |s.entries| && n.id == s.entries[j].id && n.kind == s.entries[j].kind && n.role == s.entries[j].role
    && n.title == s.entries[j].title && n.text == s.entries[j].text && n.tools == s.entries[j].tools
    && n.sessionKey == s.key && (n.labelled <==> s.entries[j].id in s.labels) && n.fold == None
  }

  /** What the first own entry of a session hangs off, if anything. */
  predicate Hangs(fam: Family, s: Session, id: string) {
    var n := SharedCount(fam, s);
    if n > 0 then id == s.entries[n - 1].id
    else HasParent(fam, s) && ParentOf(fam, s).entries != [] &&
         id == ParentOf(fam, s).entries[|ParentOf(fam, s).entries| - 1].id
  }

  /** Where entry `j` of a session is linked to: the first own entry to what the session hangs off, unless that is
      an own entry; any other to the own entry it follows, if it is one. */
  ghost predicate Linked(fam: Family, s: Session, j: nat, parent: string)
    requires SharedCount(fam, s) <= j < |s.entries|
  {
    var n := SharedCount(fam, s);
    if j == n && exists id :: Hangs(fam, s, id) && !Names(s.entries[n..], id) then Hangs(fam, s, parent)
    else if s.entries[j].parent != "" && Names(s.entries[n..], s.entries[j].parent) then parent == s.entries[j].parent
    else parent == ""
  }

  lemma AnchorExactly(fam: Family, s: Session, id: string)
    requires NamedEntries(fam) && s in fam && id != ""
    ensures Anchor(fam, s) == id <==> Hangs(fam, s, id)
  {
    hide SharedCount, HasParent;
    var n := SharedCount(fam, s);
    if n == 0 && HasParent(fam, s) {
      var p := ParentOf(fam, s);
      assert p in fam by { hide HasParent; ParentExactly(fam, s, IndexOf(fam, s.parent)); }
    }
  }

  /** Every own entry of a session is a node as the file and the fork point have it. */
  lemma SessionShows(fam: Family, a: nat, i: nat)
    requires NamedEntries(fam) && a < |fam| && i < |Own(fam, fam[a])|
    ensures var j, n := SharedCount(fam, fam[a]) + i, SessionNodes(fam, fam[a])[i];
            Shows(fam[a], j, n) && Linked(fam, fam[a], j, n.parent)
  {
    hide NamedEntries, SharedCount, Anchor, Hangs, Names, EntryIds, Linked, Shows;
    var s := fam[a];
    var own, n, anchor := Own(fam, s), SharedCount(fam, s), Anchor(fam, s);
    var e, node := own[i], SessionNodes(fam, s)[i];
    assert own == s.entries[n..] && e == s.entries[n + i];
    NamesExactly(own, e.parent);
    NamesExactly(own, anchor);
    hide Own, SessionNodes;
    FieldsShown(s, n + i, node);
    HungExactly(fam, s);
    LinkShown(fam, s, n + i, node.parent);
  }

  lemma FieldsShown(s: Session, j: nat, n: Node)
    requires j < |s.entries| && n == NodeFor(s, s.entries[j], n.parent)
    ensures Shows(s, j, n)
  {
  }

  /** What a session hangs off is its anchor, if it has one. */
  lemma HungExactly(fam: Family, s: Session)
    requires NamedEntries(fam) && s in fam
    ensures forall id :: Hangs(fam, s, id) <==> id == Anchor(fam, s) && id != ""
  {
    forall id ensures Hangs(fam, s, id) <==> id == Anchor(fam, s) && id != "" {
      if Hangs(fam, s, id) { HungIsNamed(fam, s, id); }
      if id != "" { AnchorExactly(fam, s, id); }
    }
  }

  lemma LinkShown(fam: Family, s: Session, j: nat, parent: string)
    requires SharedCount(fam, s) <= j < |s.entries|
    requires var n, anchor := SharedCount(fam, s), Anchor(fam, s);
             && (forall id :: Hangs(fam, s, id) <==> id == anchor && id != "")
             && parent == if j == n && anchor != "" && !Names(s.entries[n..], anchor) then anchor
                          else if s.entries[j].parent != "" && Names(s.entries[n..], s.entries[j].parent)
                          then s.entries[j].parent else ""
    ensures Linked(fam, s, j, parent)
  {
    hide SharedCount, Anchor, Names, Hangs;
    var anchor := Anchor(fam, s);
    if anchor != "" { assert Hangs(fam, s, anchor); }
  }

  lemma HungIsNamed(fam: Family, s: Session, id: string)
    requires NamedEntries(fam) && s in fam && Hangs(fam, s, id)
    ensures id != ""
  {
    hide SharedCount;
    if SharedCount(fam, s) == 0 { ParentExactly(fam, s, IndexOf(fam, s.parent)); }
  }

  /** Each node of the graph is an own entry of a session, with all its fields, its link, and the marks of heads and
      fork anchors. */
  lemma NodeShows(fam: Family, i: nat) returns (a: nat, j: nat)
    requires NamedEntries(fam) && i < |Graph0(fam)|
    ensures a < |fam| && SharedCount(fam, fam[a]) <= j < |fam[a].entries|
    ensures var n := Graph0(fam)[i];
            && Shows(fam[a], j, n) && Linked(fam, fam[a], j, n.parent)
            && (n.isHead <==> IsHead(fam, fam[a].key, n.id)) && (n.isForkAnchor <==> IsAnchor(fam, |fam|, n.id))
  {
    hide SharedCount, Linked, Shows, IsHead, IsAnchor, LeafOf, AnchorIds, AllNodes, SessionNodes, ChildCount,
         NamedEntries;
    var k: nat;
    a, k := NodeInSession(fam, |fam|, i);
    OwnCount(fam, fam[a]);
    hide Own;
    j := SharedCount(fam, fam[a]) + k;
    SessionShows(fam, a, k);
    var raw, n := AllNodes(fam, |fam|)[i], Graph0(fam)[i];
    assert n == Decorated(fam, AllNodes(fam, |fam|), raw);
    NameShown(fam, a, j, raw);
    SameShown(fam[a], j, raw, n);
    LeafExactly(fam, fam[a].key, n.id);
    AnchorsExactly(fam, |fam|, n.id);
  }

  lemma NameShown(fam: Family, a: nat, j: nat, n: Node)
    requires NamedEntries(fam) && a < |fam| && Shows(fam[a], j, n)
    ensures n.id != "" && n.sessionKey == fam[a].key
  {
  }

  /** The marks that are added later change nothing that is shown of the entry. */
  lemma SameShown(s: Session, j: nat, raw: Node, n: Node)
    requires Shows(s, j, raw)
    requires n == raw.(childCount := n.childCount, isLeaf := n.isLeaf, isHead := n.isHead,
                       isForkAnchor := n.isForkAnchor)
    ensures Shows(s, j, n)
  {
  }

  /** Where the nodes of a session begin. */
  function Before(fam: Family, k: nat): nat
    requires k <= |fam|
  {
    if k == 0 then 0 else Before(fam, k - 1) + |fam[k - 1].entries| - SharedCount(fam, fam[k - 1])
  }

  /** The nodes are the own entries session by session, each session's in the order of its file. */
  lemma {:induction false} NodesInOrder(fam: Family, k: nat, a: nat, j: nat)
    requires NamedEntries(fam) && a < k <= |fam| && SharedCount(fam, fam[a]) <= j < |fam[a].entries|
    ensures |AllNodes(fam, k)| == Before(fam, k)
    ensures var i := Before(fam, a) + j - SharedCount(fam, fam[a]);
            i < Before(fam, k) && Shows(fam[a], j, AllNodes(fam, k)[i]) &&
              Linked(fam, fam[a], j, AllNodes(fam, k)[i].parent)
    decreases k
  {
    hide SharedCount, Linked, Shows, SessionNodes, Own;
    NodeCount(fam, k - 1);
    OwnCount(fam, fam[k - 1]);
    OwnCount(fam, fam[a]);
    if a == k - 1 {
      SessionShows(fam, a, j - SharedCount(fam, fam[a]));
    } else {
      NodesInOrder(fam, k - 1, a, j);
    }
  }

  lemma {:induction false} NodeCount(fam: Family, k: nat)
    requires k <= |fam|
    ensures |AllNodes(fam, k)| == Before(fam, k)
    decreases k
  {
    hide SharedCount, SessionNodes, Own;
    if k == 0 {
    } else {
      NodeCount(fam, k - 1);
      OwnCount(fam, fam[k - 1]);
    }
  }

  lemma OwnCount(fam: Family, s: Session)
    ensures |SessionNodes(fam, s)| == |s.entries| - SharedCount(fam, s)
  {
    hide SharedCount, SessionNodes;
  }
}
