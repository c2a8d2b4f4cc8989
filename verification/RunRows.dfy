/**
 * Which nodes a reader can always find in a contracted graph, and what the one line of a folded run says
 * (backend/live-sessions/session-tree.ts).
 */
module RunRows {
  import opened LinearRuns
  import opened Wrappers

  /** A node to navigate to: a leaf, a head, a fork anchor, a branch summary, a compaction, a node that is collapsed
      already, one with a label, one that was asked for, or one with more children than one. */
  predicate Landmark(n: Node, keep: set<string>) {
    || n.kind == BranchSummaryKind || n.kind == CompactionKind || n.kind == CollapsedKind
    || n.labelled || n.isLeaf || n.isHead || n.isForkAnchor || n.id in keep || n.childCount != 1
  }

  /** A node can be folded exactly when it is no landmark and the only child of a node of the graph. */
  lemma LinearExactly(g: Graph, keep: set<string>, x: string)
    ensures Linear(g, keep, x) <==>
            x in g && !Landmark(g[x], keep) && g[x].parent in g && forall m :: m in g && m != x ==>
              g[m].parent != g[x].parent
  {
  }

  /** Landmarks, roots and nodes with siblings are shown, whatever else is folded. */
  lemma LandmarksStay(g: Graph, keep: set<string>, fold: Folding, reached: set<string>, out: seq<Node>, id: string)
    requires Contracts(g, keep, fold, reached, out) && id in g
    requires Landmark(g[id], keep) || g[id].parent !in g || exists m :: m in g && m != id && g[m].parent == g[id].parent
    ensures Mentions(out, id)
  {
    hide Contracts, Mentions;
    StructuralSurvives(g, keep, fold, reached, out, id);
  }

  // ---- the turns of a run ----

  /** A user's record or a compaction. */
  predicate Opener(n: Node) {
    n.role == UserRole || n.kind == CompactionKind
  }

  /** The turns hold all records in their order; every turn but the first begins with a user's record or a compaction,
      and none holds two of them. */
  lemma TurnsBegin(entries: seq<Node>)
    ensures var buckets := BucketsOf(entries);
            && Join(buckets) == entries
            && (forall i :: 0 < i < |buckets| ==> buckets[i] != [] && Opener(buckets[i][0]))
            && (forall i, p, q :: 0 <= i < |buckets| && 0 <= p < q < |buckets[i]| ==>
                  !(Opener(buckets[i][p]) && Opener(buckets[i][q])))
  {
    TurnsPartition(entries);
    var buckets := BucketsOf(entries);
    hide BucketsOf, Join;
    forall i, p, q | 0 <= i < |buckets| && 0 <= p < q < |buckets[i]|
      ensures !(Opener(buckets[i][p]) && Opener(buckets[i][q]))
    {
      if Opener(buckets[i][p]) && Opener(buckets[i][q]) { TwoOpeners(buckets[i], p, q); }
    }
  }

  lemma {:induction false} TwoOpeners(b: seq<Node>, p: nat, q: nat)
    requires p < q < |b| && Opener(b[p]) && Opener(b[q])
    ensures Openers(b) >= 2
    decreases |b|
  {
    var n := |b| - 1;
    if q < n {
      TwoOpeners(b[..n], p, q);
    } else {
      OneOpener(b[..n], p);
    }
  }

  lemma {:induction false} OneOpener(b: seq<Node>, p: nat)
    requires p < |b| && Opener(b[p])
    ensures Openers(b) >= 1
    decreases |b|
  {
    if p < |b| - 1 { OneOpener(b[..|b| - 1], p); }
  }

  /** The line of a run: the requests of its first and its last turn with an arrow between them, or the first alone when
      there is no other. */
  lemma SpanExactly(turns: seq<Turn>)
    requires turns != []
    ensures var a, z := turns[0].request, turns[|turns| - 1].request;
            Span(turns) == if a == "" || z == "" || a == z then a else a + " → " + z
  {
  }
}
