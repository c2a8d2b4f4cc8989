/**
 * Folding of linear stretches in the session graph (backend/live-sessions/session-tree.ts).
 *
 * The graph is a list of nodes with parent links. Stretches of at least three nodes that no
 * reader would navigate to are replaced by one node each; the rest stays as it is.
 */
module LinearRuns {
  import opened Wrappers

  const SESSION_TREE_LINEAR_RUN_MIN := 3

  datatype Kind = MessageKind | ToolKind | SystemKind | CompactionKind | BranchSummaryKind | CustomKind | CollapsedKind

  datatype Role = NoRole | UserRole | AssistantRole | SystemRole | ToolRole

  /** The fold a collapsed node stands for: its turns and the ends of the run. */
  datatype Fold = Fold(turns: nat, from: string, to: string, expanded: bool, steps: seq<Turn>, truncated: bool)

  /** `parent` is empty for a root; `text` is the first line of the preview, trimmed, and empty when there is none. */
  datatype Node = Node(id: string, parent: string, kind: Kind, role: Role, sessionKey: string, labelled: bool,
                       childCount: nat, isLeaf: bool, isHead: bool, isForkAnchor: bool, title: string, text: string,
                       tools: seq<string>, fold: Option<Fold>)

  /** One agent turn: the entry it is shown as, what it shows, and how many records it stands for. */
  datatype Turn = Turn(anchor: Node, kind: Kind, role: Role, title: string, request: string, reply: string,
                       tools: seq<string>, covered: nat)

  type Graph = map<string, Node>

  function RunId(head: string): string {
    "run:" + head
  }

  // ---- turns ----

  predicate OpensTurn(n: Node) {
    n.role.UserRole? || n.kind.CompactionKind?
  }

  predicate Opened(bucket: seq<Node>) {
    exists i :: 0 <= i < |bucket| && OpensTurn(bucket[i])
  }

  function Openers(entries: seq<Node>): nat {
    if entries == [] then 0 else Openers(entries[..|entries| - 1]) + if OpensTurn(entries[|entries| - 1]) then 1 else 0
  }

  function Join(buckets: seq<seq<Node>>): seq<Node> {
    if buckets == [] then [] else Join(buckets[..|buckets| - 1]) + buckets[|buckets| - 1]
  }

  /** The buckets of consecutive records, one a turn: a request or a compaction opens a new one, unless the current
      one is still the prelude of its first request. */
  function BucketsOf(entries: seq<Node>): (buckets: seq<seq<Node>>)
    ensures buckets == [] <==> entries == []
    ensures forall i :: 0 <= i < |buckets| ==> buckets[i] != []
  {
    if entries == [] then []
    else
      var x, before := entries[|entries| - 1], BucketsOf(entries[..|entries| - 1]);
      var k := |before| - 1;
      if before != [] && !(OpensTurn(x) && Opened(before[k])) then before[k := before[k] + [x]] else before + [[x]]
  }

  function TurnsOf(entries: seq<Node>): (turns: seq<Turn>)
    ensures |turns| == |BucketsOf(entries)|
  {
    var buckets := BucketsOf(entries);
    seq(|buckets|, i requires 0 <= i < |buckets| => TurnNode(buckets[i]))
  }

  /** A partition into turns: nothing lost or reordered, every turn but the first starts with its opener, and no turn
      holds two. */
  ghost predicate Turns(entries: seq<Node>, buckets: seq<seq<Node>>) {
    && Join(buckets) == entries
    && (forall i :: 0 <= i < |buckets| ==> buckets[i] != [] && Openers(buckets[i]) <= 1)
    && (forall i :: 0 < i < |buckets| ==> OpensTurn(buckets[i][0]))
    && (|buckets| > 1 ==> Openers(buckets[0]) == 1)
  }

  lemma {:induction false} OpenedCounts(bucket: seq<Node>)
    ensures Opened(bucket) <==> Openers(bucket) > 0
    decreases |bucket|
  {
    if bucket == [] {
    } else {
      var init := bucket[..|bucket| - 1];
      OpenedCounts(init);
      if i :| 0 <= i < |bucket| && OpensTurn(bucket[i]) {
        if i < |init| { assert OpensTurn(init[i]); }
      }
      if j :| 0 <= j < |init| && OpensTurn(init[j]) { assert OpensTurn(bucket[j]); }
    }
  }

  function FirstUser(bucket: seq<Node>): Option<Node> {
    if bucket == [] then None else if bucket[0].role.UserRole? then Some(bucket[0]) else FirstUser(bucket[1..])
  }

  predicate Replied(bucket: seq<Node>) {
    exists i :: 0 <= i < |bucket| && bucket[i].role.AssistantRole?
  }

  /** The text of the last reply that has one. */
  function LastReply(bucket: seq<Node>): string {
    if bucket == [] then ""
    else
      var last := bucket[|bucket| - 1];
      if last.role.AssistantRole? && last.text != "" then last.text else LastReply(bucket[..|bucket| - 1])
  }

  /** Names in the order of their first use, each once. */
  function Merged(names: seq<string>, more: seq<string>): seq<string>
    decreases |more|
  {
    if more == [] then names else Merged(if more[0] in names then names else names + [more[0]], more[1..])
  }

  function ToolsOf(bucket: seq<Node>): seq<string> {
    if bucket == [] then [] else Merged(ToolsOf(bucket[..|bucket| - 1]), bucket[|bucket| - 1].tools)
  }

  function CommaList(names: seq<string>): string {
    if names == [] then "" else if |names| == 1 then names[0] else names[0] + ", " + CommaList(names[1..])
  }

  function TurnTitle(bucket: seq<Node>): string
    requires bucket != []
  {
    var tools := ToolsOf(bucket);
    if FirstUser(bucket).Some? then "User"
    else if !Replied(bucket) then bucket[0].title
    else if tools == [] then "Assistant" else "Assistant · " + CommaList(tools)
  }

  /** A turn is shown as its request, or as its first record when nobody asked. */
  function TurnNode(bucket: seq<Node>): Turn
    requires bucket != []
  {
    var user, tools := FirstUser(bucket), ToolsOf(bucket);
    var request := if user.Some? && user.value.text != "" then user.value.text else bucket[0].text;
    Turn(if user.Some? then user.value else bucket[0], if tools == [] then MessageKind else ToolKind,
         if user.Some? then UserRole else if Replied(bucket) then AssistantRole else SystemRole,
         TurnTitle(bucket), request, LastReply(bucket), tools, |bucket|)
  }

  /** Record `k` is the first of a user. */
  predicate FirstAsks(bucket: seq<Node>, k: int) {
    0 <= k < |bucket| && bucket[k].role.UserRole? && forall i :: 0 <= i < k ==> !bucket[i].role.UserRole?
  }

  lemma {:induction false} FirstUserIsFirst(bucket: seq<Node>)
    ensures FirstUser(bucket).None? <==> forall i :: 0 <= i < |bucket| ==> !bucket[i].role.UserRole?
    ensures forall k :: FirstAsks(bucket, k) ==> FirstUser(bucket) == Some(bucket[k])
  {
    if bucket == [] {
    } else {
      FirstUserIsFirst(bucket[1..]);
      forall k | FirstAsks(bucket, k) && k > 0 ensures FirstUser(bucket) == Some(bucket[k]) {
        assert bucket[1..][k - 1] == bucket[k] && FirstAsks(bucket[1..], k - 1);
      }
      if FirstUser(bucket).None? {
        forall i | 0 <= i < |bucket| ensures !bucket[i].role.UserRole? {
          if i > 0 { assert bucket[i] == bucket[1..][i - 1]; }
        }
      }
    }
  }

  /** A turn is shown as the first record of a user in it, with that text as its request; without one, or without a text
      there, it shows the text of its first record. It is a tool turn when some record used a tool, and the user's, the
      assistant's or the system's by who has a record in it. */
  lemma TurnShows(bucket: seq<Node>)
    requires bucket != []
    ensures var t := TurnNode(bucket);
            && (forall k :: FirstAsks(bucket, k) ==>
                  t.anchor == bucket[k] && t.role == UserRole && t.title == "User" &&
                  t.request == if bucket[k].text != "" then bucket[k].text else bucket[0].text)
            && ((forall i :: 0 <= i < |bucket| ==> !bucket[i].role.UserRole?) ==>
                  t.anchor == bucket[0] && t.request == bucket[0].text &&
                  if exists i :: 0 <= i < |bucket| && bucket[i].role.AssistantRole?
                  then t.role == AssistantRole &&
                       t.title == (if t.tools == [] then "Assistant" else "Assistant · " + CommaList(t.tools))
                  else t.role == SystemRole && t.title == bucket[0].title)
            && (t.kind == ToolKind <==> exists i :: 0 <= i < |bucket| && bucket[i].tools != [])
            && (t.kind != ToolKind ==> t.kind == MessageKind)
            && t.tools == ToolsOf(bucket) && t.reply == LastReply(bucket) && t.covered == |bucket|
  {
    FirstUserIsFirst(bucket);
    ToolsUsed(bucket);
    hide FirstUser, ToolsOf, LastReply, CommaList;
  }

  lemma ToolsUsed(bucket: seq<Node>)
    ensures ToolsOf(bucket) != [] <==> exists i :: 0 <= i < |bucket| && bucket[i].tools != []
  {
    TurnToolsExactly(bucket);
    var tools := ToolsOf(bucket);
    hide ToolsOf;
    if tools != [] {
      assert tools[0] in tools;
      var i :| 0 <= i < |bucket| && tools[0] in bucket[i].tools;
    }
    if i :| 0 <= i < |bucket| && bucket[i].tools != [] {
      assert bucket[i].tools[0] in tools;
    }
  }

  lemma {:induction false} MergedHolds(names: seq<string>, more: seq<string>)
    requires NoRepeats(names)
    ensures NoRepeats(Merged(names, more)) && names <= Merged(names, more)
    ensures forall t :: t in Merged(names, more) <==> t in names || t in more
    decreases |more|
  {
    if more == [] {
    } else {
      assert forall t :: t in more <==> t == more[0] || t in more[1..];
      MergedHolds(if more[0] in names then names else names + [more[0]], more[1..]);
    }
  }

  predicate NoRepeats(names: seq<string>) {
    forall i, j :: 0 <= i < j < |names| ==> names[i] != names[j]
  }

  /** A turn lists every tool its records used, each once. */
  lemma {:induction false} TurnToolsExactly(bucket: seq<Node>)
    ensures NoRepeats(ToolsOf(bucket))
    ensures forall t :: t in ToolsOf(bucket) <==> exists i :: 0 <= i < |bucket| && t in bucket[i].tools
  {
    if bucket == [] {
    } else {
      var n := |bucket| - 1;
      TurnToolsExactly(bucket[..n]);
      MergedHolds(ToolsOf(bucket[..n]), bucket[n].tools);
      forall t ensures t in ToolsOf(bucket) <==> exists i :: 0 <= i < |bucket| && t in bucket[i].tools {
        if i :| 0 <= i < |bucket| && t in bucket[i].tools && i < n { assert t in bucket[..n][i].tools; }
        if i :| 0 <= i < n && t in bucket[..n][i].tools { assert t in bucket[i].tools; }
      }
    }
  }

  /** The reply a turn shows is the last one with a text: after it no record of the turn replies with any. */
  lemma {:induction false} LastReplyIsLast(bucket: seq<Node>) returns (k: int)
    ensures -1 <= k < |bucket| && (k == -1 <==> LastReply(bucket) == "")
    ensures k >= 0 ==> bucket[k].role.AssistantRole? && bucket[k].text == LastReply(bucket)
    ensures forall i :: k < i < |bucket| ==> !(bucket[i].role.AssistantRole? && bucket[i].text != "")
  {
    if bucket == [] {
      k := -1;
    } else {
      var n := |bucket| - 1;
      if bucket[n].role.AssistantRole? && bucket[n].text != "" {
        k := n;
      } else {
        k := LastReplyIsLast(bucket[..n]);
        assert forall i :: 0 <= i < n ==> bucket[..n][i] == bucket[i];
      }
    }
  }

  /** What a folded run shows in one line: its first and its last turn's text. */
  function Span(turns: seq<Turn>): string {
    if turns == [] then ""
    else
      var first, last := turns[0].request, turns[|turns| - 1].request;
      if first != "" && last != "" && first != last then first + " → " + last else first
  }

  lemma OpenersAppend(s: seq<Node>, x: Node)
    ensures Openers(s + [x]) == Openers(s) + if OpensTurn(x) then 1 else 0
  {
    assert (s + [x])[..|s|] == s;
  }

  lemma JoinAppend(buckets: seq<seq<Node>>, b: seq<Node>)
    ensures Join(buckets + [b]) == Join(buckets) + b
  {
    assert (buckets + [b])[..|buckets|] == buckets;
  }

  method TurnSteps(entries: seq<Node>) returns (turns: seq<Turn>)
    ensures turns == TurnsOf(entries)
  {
    hide Opened, TurnNode, OpensTurn;
    turns := [];
    var bucket: seq<Node> := [];
    for i := 0 to |entries|
      invariant bucket == [] <==> i == 0
      invariant i > 0 ==> var b := BucketsOf(entries[..i]);
                |turns| == |b| - 1 && bucket == b[|b| - 1] && forall k :: 0 <= k < |turns| ==>
                  turns[k] == TurnNode(b[k])
      invariant i == 0 ==> turns == []
    {
      assert entries[..i + 1][..i] == entries[..i];
      if bucket != [] && OpensTurn(entries[i]) && Opened(bucket) {
        turns := turns + [TurnNode(bucket)];
        bucket := [];
      }
      bucket := bucket + [entries[i]];
    }
    assert entries[..|entries|] == entries;
    if bucket != [] { turns := turns + [TurnNode(bucket)]; }
  }

  lemma JoinLast(buckets: seq<seq<Node>>, x: Node)
    requires buckets != []
    ensures var k := |buckets| - 1; Join(buckets[k := buckets[k] + [x]]) == Join(buckets) + [x]
  {
    var k := |buckets| - 1;
    assert buckets[k := buckets[k] + [x]][..k] == buckets[..k];
  }

  /** The records of a run are cut into turns. */
  lemma {:induction false} TurnsPartition(entries: seq<Node>)
    ensures Turns(entries, BucketsOf(entries))
  {
    hide Openers, Join, Opened, OpensTurn;
    NothingJoined();
    if entries == [] {
    } else {
      var n := |entries| - 1;
      var x, b := entries[n], BucketsOf(entries[..n]);
      var k := |b| - 1;
      TurnsPartition(entries[..n]);
      assert entries == entries[..n] + [x];
      if b != [] {
        OpenedCounts(b[k]);
        OpenersAppend(b[k], x);
        JoinLast(b, x);
      }
      JoinAppend(b, [x]);
      OpenersAppend([], x);
      assert [] + [x] == [x];
    }
  }

  lemma NothingJoined()
    ensures Join([]) == [] && Openers([]) == 0
  {
  }

  /** There is only one way to cut records into turns. */
  lemma {:induction false} TurnsAreUnique(entries: seq<Node>, a: seq<seq<Node>>, b: seq<seq<Node>>)
    requires Turns(entries, a) && Turns(entries, b) && |a| == |b|
    ensures a == b
    decreases |a|
  {
    if |a| > 1 {
      hide Openers, Join, OpensTurn;
      var k := |a| - 1;
      JoinSplit(a);
      JoinSplit(b);
      SameTail(Join(a[..k]), a[k], Join(b[..k]), b[k]);
      TurnsAreUnique(Join(a[..k]), a[..k], b[..k]);
    } else if |a| == 1 {
      assert a[..0] == [] && b[..0] == [] && Join(a) == a[0] && Join(b) == b[0];
    }
  }

  lemma JoinSplit(a: seq<seq<Node>>)
    requires a != []
    ensures Join(a) == Join(a[..|a| - 1]) + a[|a| - 1]
  {
  }

  /** Two tails that each start with their only opener are the same. */
  lemma SameTail(p: seq<Node>, a: seq<Node>, q: seq<Node>, b: seq<Node>)
    requires p + a == q + b && a != [] && b != [] && OpensTurn(a[0]) && OpensTurn(b[0]) && Openers(a) <= 1
    requires Openers(b) <= 1
    ensures p == q && a == b
  {
    hide Openers, OpensTurn;
    var w := p + a;
    assert a == w[|p|..] && b == w[|q|..] && p == w[..|p|] && q == w[..|q|];
    if |a| < |b| {
      assert b[|b| - |a|..] == a;
      OpenerInside(b, a);
    }
    if |b| < |a| {
      assert a[|a| - |b|..] == b;
      OpenerInside(a, b);
    }
  }

  lemma {:induction false} OpenersConcat(a: seq<Node>, b: seq<Node>)
    ensures Openers(a + b) == Openers(a) + Openers(b)
    decreases |b|
  {
    if b == [] {
      assert a + b == a;
    } else {
      assert (a + b)[..|a + b| - 1] == a + b[..|b| - 1];
      OpenersConcat(a, b[..|b| - 1]);
    }
  }

  lemma FirstOpens(a: seq<Node>)
    requires a != [] && OpensTurn(a[0])
    ensures Openers(a) >= 1
  {
    hide OpensTurn;
    assert a == a[..1] + a[1..] && a[..1][..0] == [];
    OpenersConcat(a[..1], a[1..]);
  }

  lemma OpenerInside(long: seq<Node>, short: seq<Node>)
    requires 0 < |short| < |long| && long[|long| - |short|..] == short && OpensTurn(long[0]) && OpensTurn(short[0])
    ensures Openers(long) >= 2
  {
    hide Openers, OpensTurn;
    var d := |long| - |short|;
    assert long == long[..d] + short;
    OpenersConcat(long[..d], short);
    FirstOpens(long[..d]);
    FirstOpens(short);
  }

  function Covered(turns: seq<Turn>): nat {
    if turns == [] then 0 else Covered(turns[..|turns| - 1]) + turns[|turns| - 1].covered
  }

  lemma {:induction false} CoveredByBuckets(turns: seq<Turn>, buckets: seq<seq<Node>>)
    requires |turns| == |buckets| && forall i :: 0 <= i < |turns| ==>
      buckets[i] != [] && turns[i] == TurnNode(buckets[i])
    ensures Covered(turns) == |Join(buckets)|
    decreases |turns|
  {
    if turns == [] {
    } else {
      CoveredByBuckets(turns[..|turns| - 1], buckets[..|turns| - 1]);
    }
  }

  /** The turns of a run stand for all of its records. */
  lemma TurnsCoverAll(entries: seq<Node>)
    ensures Covered(TurnsOf(entries)) == |entries|
  {
    hide Covered, Join;
    TurnsPartition(entries);
    CoveredByBuckets(TurnsOf(entries), BucketsOf(entries));
  }

  // ---- the graph ----

  predicate ValidGraph(g: Graph) {
    forall id :: id in g ==> g[id].id == id && id != ""
  }

  /** Synthetic run ids cannot be mistaken for entry ids, nor for the ids entries link to. */
  predicate FreshRunIds(g: Graph) {
    forall h, id :: h in g && id in g ==> RunId(h) != id && RunId(h) != g[id].parent
  }

  predicate RunIdsFree(nodes: seq<Node>) {
    forall i, j :: 0 <= i < |nodes| && 0 <= j < |nodes| ==>
      RunId(nodes[i].id) != nodes[j].id && RunId(nodes[i].id) != nodes[j].parent
  }

  predicate IsChild(g: Graph, c: string, p: string) {
    c in g && p in g && g[c].parent == p
  }

  predicate OnlyChild(g: Graph, c: string) {
    c in g && g[c].parent in g && forall m :: m in g && g[m].parent == g[c].parent ==> m == c
  }

  predicate Structural(n: Node, keep: set<string>) {
    || n.childCount != 1 || n.isLeaf || n.isHead || n.isForkAnchor || n.labelled || n.id in keep
    || n.kind.BranchSummaryKind? || n.kind.CompactionKind? || n.kind.CollapsedKind?
  }

  /** A node that can be part of a run: nothing to navigate to, and no siblings. */
  predicate Linear(g: Graph, keep: set<string>, x: string) {
    OnlyChild(g, x) && !Structural(g[x], keep)
  }

  /** Three linear nodes in a row: the least stretch that is folded. */
  predicate Triple(g: Graph, keep: set<string>, a: string, b: string, c: string) {
    && Linear(g, keep, a) && Linear(g, keep, b) && Linear(g, keep, c)
    && g[b].parent == a && g[c].parent == b
  }

  // ---- what folding does to the graph ----

  /** `fold` maps every folded node to the first node of its run. */
  type Folding = map<string, string>

  function Rep(fold: Folding, id: string): string {
    if id in fold then RunId(fold[id]) else id
  }

  /** The parent link a kept node shows in the output. */
  function ShownParent(g: Graph, fold: Folding, id: string): string
    requires id in g
  {
    if g[id].parent in g then Rep(fold, g[id].parent) else g[id].parent
  }

  predicate Mentions(out: seq<Node>, id: string) {
    exists i :: 0 <= i < |out| && out[i].id == id
  }

  predicate DistinctIds(out: seq<Node>) {
    forall i, j :: 0 <= i < j < |out| ==> out[i].id != out[j].id
  }

  /** Folded nodes form runs: each hangs off the run's previous node, the first off a kept node. */
  ghost predicate RunsOk(g: Graph, keep: set<string>, fold: Folding) {
    && (forall x :: x in fold ==> Linear(g, keep, x) && fold[x] in fold && fold[fold[x]] == fold[x])
    && (forall x :: x in fold && fold[x] != x ==> g[x].parent in fold && fold[g[x].parent] == fold[x])
    && (forall x :: x in fold && fold[x] == x ==> g[x].parent !in fold)
    && (forall x :: x in fold ==> LongRun(g, keep, fold, fold[x]))
  }

  ghost predicate LongRun(g: Graph, keep: set<string>, fold: Folding, head: string) {
    exists a, b, c :: Triple(g, keep, a, b, c) && FoldedTogether(fold, a, b, c) && fold[a] == head
  }

  /** One output node per kept input node, and one per run. */
  ghost predicate Shows(g: Graph, fold: Folding, visited: set<string>, out: seq<Node>) {
    && DistinctIds(out)
    && (forall i :: 0 <= i < |out| ==> ShownOk(g, fold, visited, out[i]))
    && (forall id :: id in visited && id !in fold ==> Mentions(out, id))
    && (forall x :: x in fold ==> Mentions(out, RunId(fold[x])))
  }

  /** The whole run that starts at `h`, in order. */
  ghost predicate WholeRun(g: Graph, fold: Folding, h: string, chain: seq<Node>) {
    && chain != [] && chain[0].id == h
    && (forall i :: 0 <= i < |chain| ==> chain[i].id in g && chain[i] == g[chain[i].id])
    && (forall i :: 0 <= i < |chain| ==> chain[i].id in fold && fold[chain[i].id] == h)
    && (forall i, j :: 0 <= i < j < |chain| ==> chain[i].id != chain[j].id)
    && (forall i, j :: 0 <= i < j < |chain| && j == i + 1 ==> chain[j].parent == chain[i].id)
    && (forall x :: x in fold && fold[x] == h ==> x in IdsOf(chain))
  }

  /** What a fold says about its run: both ends, the number of turns, and the first of them when expanded. */
  predicate Describes(o: Node, chain: seq<Node>)
    requires chain != [] && o.fold.Some?
  {
    var f := o.fold.value;
    && o.title == FoldTitle(f.turns) && o.text == Span(TurnsOf(chain))
    && f.from == chain[0].id && f.to == chain[|chain| - 1].id && f.turns == |TurnsOf(chain)|
    && f.steps <= TurnsOf(chain) && (!f.expanded ==> f.steps == [])
    && (f.truncated <==> f.expanded && |f.steps| < |TurnsOf(chain)|)
  }

  function FoldTitle(turns: nat): string {
    "+" + Decimal(turns) + " 轮"
  }

  ghost predicate FoldFrom(g: Graph, fold: Folding, o: Node, h: string) {
    o.kind == CollapsedKind && o.fold.Some? && exists chain :: WholeRun(g, fold, h, chain) && Describes(o, chain)
  }

  function IdsOf(chain: seq<Node>): set<string> {
    set i | 0 <= i < |chain| :: chain[i].id
  }

  /** An output node is a kept node under its new parent, or the fold of a run. */
  ghost predicate ShownOk(g: Graph, fold: Folding, visited: set<string>, o: Node) {
    || (o.id in visited && o.id in g && o.id !in fold && o == g[o.id].(parent := ShownParent(g, fold, o.id)))
    || (exists h ::
          h in fold && h in g && fold[h] == h && o.id == RunId(h) && o.parent == g[h].parent && FoldFrom(g, fold, o, h))
  }

  predicate FoldedTogether(fold: Folding, a: string, b: string, c: string) {
    a in fold && b in fold && c in fold && fold[a] == fold[b] == fold[c]
  }

  ghost predicate Visited(g: Graph, keep: set<string>, fold: Folding, visited: set<string>, out: seq<Node>) {
    && visited <= g.Keys && fold.Keys <= visited && RunsOk(g, keep, fold) && Shows(g, fold, visited, out)
    && (forall x :: x in visited && g[x].parent in g ==> g[x].parent in visited)
    && (forall a, b, c :: Triple(g, keep, a, b, c) && a in visited ==> FoldedTogether(fold, a, b, c))
  }

  /** Everything below the nodes visited since `before` has been visited. */
  ghost predicate Finished(g: Graph, before: set<string>, visited: set<string>) {
    before <= visited && forall x, c :: x in visited && x !in before && IsChild(g, c, x) ==> c in visited
  }

  /** A call of the visitor: a start that no run can contain, below something already shown. */
  predicate Callable(g: Graph, keep: set<string>, fold: Folding, visited: set<string>, start: string,
                     parentOverride: string) {
    && start in g && !Linear(g, keep, start)
    && (if g[start].parent in g then g[start].parent in visited else parentOverride == "")
    && (g[start].parent in g ==>
        (if parentOverride == "" then g[start].parent else parentOverride) == Rep(fold, g[start].parent))
  }

  /** The children map: for each id the nodes whose parent it is, each once. */
  ghost predicate ChildrenOk(g: Graph, children: map<string, seq<Node>>) {
    && (forall p, i :: p in children && 0 <= i < |children[p]| ==>
          children[p][i].id in g && children[p][i] == g[children[p][i].id] && IsChild(g, children[p][i].id, p))
    && (forall p, i, j :: p in children && 0 <= i < j < |children[p]| ==> children[p][i].id != children[p][j].id)
    && (forall c :: c in g && g[c].parent in g ==>
        g[c].parent in children && exists i :: 0 <= i < |children[g[c].parent]| && children[g[c].parent][i] == g[c])
  }

  function KidsOf(children: map<string, seq<Node>>, p: string): seq<Node> {
    if p in children then children[p] else []
  }

  lemma DistinctSameId(kids: seq<Node>, c: string)
    requires forall i, j :: 0 <= i < j < |kids| ==> kids[i].id != kids[j].id
    requires |kids| > 0 && forall j :: 0 <= j < |kids| ==> kids[j].id == c
    ensures |kids| == 1
  {
    assert kids[0].id == kids[|kids| - 1].id;
  }

  lemma SingleKid(g: Graph, children: map<string, seq<Node>>, p: string)
    requires ValidGraph(g) && ChildrenOk(g, children) && p in g
    ensures |KidsOf(children, p)| == 1 ==> OnlyChild(g, children[p][0].id) && g[children[p][0].id].parent == p
    ensures forall c :: OnlyChild(g, c) && g[c].parent == p ==> |KidsOf(children, p)| == 1 && children[p][0] == g[c]
  {
    var kids := KidsOf(children, p);
    if |kids| == 1 {
      forall m | m in g && g[m].parent == p ensures m == kids[0].id {
        var i :| 0 <= i < |children[p]| && children[p][i] == g[m];
      }
    }
    forall c | OnlyChild(g, c) && g[c].parent == p ensures |kids| == 1 && kids[0] == g[c] {
      var i :| 0 <= i < |children[p]| && children[p][i] == g[c];
      forall j | 0 <= j < |kids| ensures kids[j].id == c { assert IsChild(g, children[p][j].id, p); }
      DistinctSameId(kids, c);
    }
  }

  // ---- the steps of the visitor ----

  /** A start is shown under its parent, or under the fold its parent went into. */
  lemma ShowStart(g: Graph, keep: set<string>, fold: Folding, visited: set<string>, out: seq<Node>, start: string,
                  parentOverride: string)
    requires ValidGraph(g) && FreshRunIds(g) && Visited(g, keep, fold, visited, out) && start !in visited
    requires Callable(g, keep, fold, visited, start, parentOverride)
    ensures var shown := if parentOverride != "" then g[start].(parent := parentOverride) else g[start];
            Visited(g, keep, fold, visited + {start}, out + [shown])
  {
    var shown := if parentOverride != "" then g[start].(parent := parentOverride) else g[start];
    var out', visited' := out + [shown], visited + {start};
    assert shown == g[start].(parent := ShownParent(g, fold, start));
    GrowShows(g, fold, visited, out, fold, visited', shown);
    MentionsLast(out, shown);
  }

  /** A run keeps its fold while other runs are folded. */
  lemma FoldStays(g: Graph, fold: Folding, fold': Folding, o: Node, h: string)
    requires FoldFrom(g, fold, o, h) && h in fold
    requires forall x :: x in fold ==> x in fold' && fold'[x] == fold[x]
    requires forall x :: x in fold' && x !in fold ==> fold'[x] !in fold
    ensures FoldFrom(g, fold', o, h)
  {
    hide Describes;
    var chain :| WholeRun(g, fold, h, chain) && Describes(o, chain);
    assert WholeRun(g, fold', h, chain);
  }

  /** Adding one properly shown node with a new id keeps the others properly shown. */
  lemma GrowShows(g: Graph, fold: Folding, visited: set<string>, out: seq<Node>, fold': Folding, visited': set<string>,
                  o: Node)
    requires ValidGraph(g) && FreshRunIds(g) && Shows(g, fold, visited, out) && visited <= visited' <= g.Keys
    requires fold.Keys <= visited && fold.Keys <= fold'.Keys
    requires forall x :: x in visited ==> (x in fold' <==> x in fold) && (x in fold ==> fold'[x] == fold[x])
    requires fold == fold' || forall x :: x in visited && g[x].parent in g ==> g[x].parent in visited
    requires ShownOk(g, fold', visited', o) && o.id !in visited
    requires forall h :: h in fold ==> o.id != RunId(fold[h])
    requires forall x :: x in fold' && x !in fold ==> fold'[x] !in fold
    ensures DistinctIds(out + [o])
    ensures forall i :: 0 <= i < |out + [o]| ==> ShownOk(g, fold', visited', (out + [o])[i])
    ensures forall id :: Mentions(out, id) ==> Mentions(out + [o], id)
  {
    hide FoldFrom;
    forall i | 0 <= i < |out| ensures ShownOk(g, fold', visited', out[i]) && out[i].id != o.id {
      assert ShownOk(g, fold, visited, out[i]);
      if !(out[i].id in visited && out[i].id in g && out[i].id !in fold) {
        var h :| h in fold && h in g && fold[h] == h && out[i].id == RunId(h) && out[i].parent == g[h].parent &&
          FoldFrom(g, fold, out[i], h);
        assert h in fold' && fold'[h] == h;
        FoldStays(g, fold, fold', out[i], h);
        assert out[i].id != o.id;
      }
    }
    forall id | Mentions(out, id) ensures Mentions(out + [o], id) {
      var i :| 0 <= i < |out| && out[i].id == id;
      assert (out + [o])[i].id == id;
    }
  }

  predicate InRun(g: Graph, keep: set<string>, visited: set<string>, n: Node) {
    n.id in g && n == g[n.id] && n.id !in visited && Linear(g, keep, n.id)
  }

  /** The nodes below `start` that one run would take: linear, in a row, as many as there are. */
  ghost predicate RunBelow(g: Graph, keep: set<string>, visited: set<string>, start: string, chain: seq<Node>) {
    && start in g
    && (forall i :: 0 <= i < |chain| ==> InRun(g, keep, visited, chain[i]))
    && (forall i, j :: 0 <= i < j < |chain| ==> chain[i].id != chain[j].id)
    && (forall i, j :: 0 <= i < j < |chain| && j == i + 1 ==> chain[j].parent == chain[i].id)
    && (chain != [] ==> chain[0].parent == start)
  }

  ghost predicate Maximal(g: Graph, keep: set<string>, start: string, chain: seq<Node>) {
    forall c :: c in g && Linear(g, keep, c) ==> g[c].parent != LastOf(start, chain)
  }

  function LastOf(start: string, chain: seq<Node>): string {
    if chain == [] then start else chain[|chain| - 1].id
  }

  ghost function FoldedChain(fold: Folding, chain: seq<Node>): Folding
    requires chain != []
  {
    map x | x in fold.Keys + IdsOf(chain) :: if x in IdsOf(chain) then chain[0].id else fold[x]
  }

  lemma FoldChain(g: Graph, keep: set<string>, fold: Folding, visited: set<string>, out: seq<Node>, start: string,
                  chain: seq<Node>, folded: Node)
    requires ValidGraph(g) && FreshRunIds(g) && Visited(g, keep, fold, visited, out)
    requires start in visited && !Linear(g, keep, start) && RunBelow(g, keep, visited, start, chain)
    requires |chain| >= SESSION_TREE_LINEAR_RUN_MIN && Maximal(g, keep, start, chain)
    requires folded.id == RunId(chain[0].id) && folded.parent == start && folded.kind == CollapsedKind
    requires folded.fold.Some?
    requires Describes(folded, chain)
    ensures Visited(g, keep, FoldedChain(fold, chain), visited + IdsOf(chain), out + [folded])
  {
    hide LongRun, Linear, Triple, Mentions, ShownOk, RunId, RunsOk, InRun, FoldFrom, Describes;
    var fold', visited', head := FoldedChain(fold, chain), visited + IdsOf(chain), chain[0].id;
    StartOutside(g, keep, visited, start, chain);
    RunInGraph(g, keep, visited, start, chain);
    FoldedRuns(g, keep, fold, visited, start, chain);
    ShowFold(g, keep, fold, visited, out, start, chain, folded);
    ChainParents(g, keep, visited, start, chain);
    forall a, b, c | Triple(g, keep, a, b, c) && a in visited' ensures FoldedTogether(fold', a, b, c) {
      if a in IdsOf(chain) {
        TripleInRun(g, keep, visited, start, chain, a, b, c);
      } else {
        assert FoldedTogether(fold, a, b, c);
      }
    }
  }

  lemma TripleInRun(g: Graph, keep: set<string>, visited: set<string>, start: string, chain: seq<Node>, a: string,
                    b: string, c: string)
    requires RunBelow(g, keep, visited, start, chain) && Maximal(g, keep, start, chain)
    requires Triple(g, keep, a, b, c) && a in IdsOf(chain)
    ensures b in IdsOf(chain) && c in IdsOf(chain)
  {
    NextInRun(g, keep, visited, start, chain, a, b);
    NextInRun(g, keep, visited, start, chain, b, c);
  }

  lemma NextInRun(g: Graph, keep: set<string>, visited: set<string>, start: string, chain: seq<Node>, a: string,
                  b: string)
    requires RunBelow(g, keep, visited, start, chain) && Maximal(g, keep, start, chain)
    requires a in IdsOf(chain) && Linear(g, keep, b) && g[b].parent == a
    ensures b in IdsOf(chain)
  {
    var i :| 0 <= i < |chain| && chain[i].id == a;
    assert LastOf(start, chain) != a;
    assert InRun(g, keep, visited, chain[i + 1]) && chain[i + 1].parent == a;
    assert chain[i + 1].id == b;
  }

  lemma ShowFold(g: Graph, keep: set<string>, fold: Folding, visited: set<string>, out: seq<Node>, start: string,
                 chain: seq<Node>, folded: Node)
    requires ValidGraph(g) && FreshRunIds(g) && Shows(g, fold, visited, out) && UpClosed(g, visited)
    requires fold.Keys <= visited
    requires RunsOk(g, keep, fold) && RunBelow(g, keep, visited, start, chain) && chain != []
    requires folded.id == RunId(chain[0].id) && folded.parent == start && folded.kind == CollapsedKind
    requires folded.fold.Some?
    requires Describes(folded, chain)
    ensures Shows(g, FoldedChain(fold, chain), visited + IdsOf(chain), out + [folded])
  {
    var fold', visited', head := FoldedChain(fold, chain), visited + IdsOf(chain), chain[0].id;
    FoldGrows(g, keep, fold, visited, start, chain);
    NewFold(g, keep, fold, visited, start, chain, folded);
    hide *;
    ShownRun(g, fold', visited', folded, head);
    RunIdOutside(g, head, visited);
    forall h | h in fold ensures folded.id != RunId(fold[h]) {
      RunIdInjective(fold[h], head);
    }
    ShowMore(g, fold, visited, out, fold', visited', folded, IdsOf(chain));
  }

  /** What folding one more run does to the map of folds. */
  lemma FoldGrows(g: Graph, keep: set<string>, fold: Folding, visited: set<string>, start: string, chain: seq<Node>)
    requires fold.Keys <= visited && RunsOk(g, keep, fold) && RunBelow(g, keep, visited, start, chain) && chain != []
    ensures var fold', head := FoldedChain(fold, chain), chain[0].id;
            && fold'.Keys == fold.Keys + IdsOf(chain) && IdsOf(chain) <= g.Keys && IdsOf(chain) !! visited
            && head in IdsOf(chain) && fold'[head] == head && g[head].parent == start
            && (forall x :: x in fold ==> fold'[x] == fold[x] && fold[x] in fold)
            && (forall x :: x in IdsOf(chain) ==> fold'[x] == head)
  {
    hide LongRun, Linear, InRun;
    StartOutside(g, keep, visited, start, chain);
    RunInGraph(g, keep, visited, start, chain);
  }

  /** One more node, for ids that had not been visited. */
  lemma ShowMore(g: Graph, fold: Folding, visited: set<string>, out: seq<Node>, fold': Folding, visited': set<string>,
                 o: Node, more: set<string>)
    requires ValidGraph(g) && FreshRunIds(g) && Shows(g, fold, visited, out) && UpClosed(g, visited)
    requires fold.Keys <= visited <= g.Keys && visited' == visited + more <= g.Keys && more !! visited && more != {}
    requires fold'.Keys == fold.Keys + more && forall x :: x in fold ==> fold'[x] == fold[x]
    requires forall x :: x in more ==> fold'[x] in more && o.id == RunId(fold'[x])
    requires ShownOk(g, fold', visited', o) && o.id !in visited
    requires forall h :: h in fold ==> o.id != RunId(fold[h])
    ensures Shows(g, fold', visited', out + [o])
  {
    hide ShownOk, Mentions, RunId, FreshRunIds, ValidGraph, DistinctIds;
    GrowShows(g, fold, visited, out, fold', visited', o);
    MentionsLast(out, o);
  }

  lemma NewFold(g: Graph, keep: set<string>, fold: Folding, visited: set<string>, start: string, chain: seq<Node>,
                folded: Node)
    requires RunsOk(g, keep, fold) && fold.Keys <= visited && RunBelow(g, keep, visited, start, chain) && chain != []
    requires folded.kind == CollapsedKind && folded.fold.Some? && Describes(folded, chain)
    ensures FoldFrom(g, FoldedChain(fold, chain), folded, chain[0].id)
  {
    hide Describes, LongRun, Linear;
    var fold', h := FoldedChain(fold, chain), chain[0].id;
    StartOutside(g, keep, visited, start, chain);
    assert h in IdsOf(chain);
    forall i | 0 <= i < |chain| ensures chain[i].id in g && chain[i] == g[chain[i].id] && chain[i].id in IdsOf(chain) {
      assert InRun(g, keep, visited, chain[i]);
    }
    assert WholeRun(g, fold', h, chain);
  }

  lemma RunIdOutside(g: Graph, head: string, visited: set<string>)
    requires FreshRunIds(g) && head in g && visited <= g.Keys
    ensures RunId(head) !in visited
  {
  }

  lemma RunInGraph(g: Graph, keep: set<string>, visited: set<string>, start: string, chain: seq<Node>)
    requires RunBelow(g, keep, visited, start, chain)
    ensures IdsOf(chain) <= g.Keys
    ensures forall i :: 0 <= i < |chain| ==> chain[i].id in g && chain[i] == g[chain[i].id]
  {
    forall i | 0 <= i < |chain| ensures chain[i].id in g && chain[i] == g[chain[i].id] {
      assert InRun(g, keep, visited, chain[i]);
    }
  }

  lemma ShownRun(g: Graph, fold: Folding, visited: set<string>, o: Node, h: string)
    requires h in fold && h in g && fold[h] == h && o.id == RunId(h) && o.parent == g[h].parent
    requires FoldFrom(g, fold, o, h)
    ensures ShownOk(g, fold, visited, o)
  {
  }

  lemma MentionsLast(out: seq<Node>, o: Node)
    ensures Mentions(out + [o], o.id)
  {
    assert (out + [o])[|out|].id == o.id;
  }

  lemma RunIdInjective(a: string, b: string)
    ensures RunId(a) == RunId(b) ==> a == b
  {
    assert RunId(a)[4..] == a && RunId(b)[4..] == b;
  }

  lemma ChainParents(g: Graph, keep: set<string>, visited: set<string>, start: string, chain: seq<Node>)
    requires start in visited && RunBelow(g, keep, visited, start, chain)
    ensures forall x :: x in IdsOf(chain) ==> x in g && g[x].parent in visited + IdsOf(chain)
  {
    forall x | x in IdsOf(chain) ensures x in g && g[x].parent in visited + IdsOf(chain) {
      var i :| 0 <= i < |chain| && chain[i].id == x;
      if i > 0 { assert g[x].parent == chain[i - 1].id; }
    }
  }

  lemma FoldedRuns(g: Graph, keep: set<string>, fold: Folding, visited: set<string>, start: string, chain: seq<Node>)
    requires RunsOk(g, keep, fold) && fold.Keys <= visited && start in visited && !Linear(g, keep, start)
    requires visited <= g.Keys && forall x :: x in visited && g[x].parent in g ==> g[x].parent in visited
    requires RunBelow(g, keep, visited, start, chain) && |chain| >= SESSION_TREE_LINEAR_RUN_MIN
    ensures RunsOk(g, keep, FoldedChain(fold, chain))
  {
    hide LongRun, Structural, OnlyChild;
    var fold', head := FoldedChain(fold, chain), chain[0].id;
    assert chain[0].id in IdsOf(chain) && chain[1].id in IdsOf(chain) && chain[2].id in IdsOf(chain);
    NewLongRun(g, keep, fold', chain[0].id, chain[1].id, chain[2].id);
    forall x | x in fold' ensures MemberOk(g, keep, fold', x) {
      if x in IdsOf(chain) {
        var i :| 0 <= i < |chain| && chain[i].id == x;
        NewMember(g, keep, fold, visited, start, chain, i);
      } else {
        OldMember(g, keep, fold, visited, start, chain, x);
      }
    }
  }

  /** What `RunsOk` says about one folded node. */
  ghost predicate MemberOk(g: Graph, keep: set<string>, fold: Folding, x: string)
    requires x in fold
  {
    && Linear(g, keep, x) && fold[x] in fold && fold[fold[x]] == fold[x] && LongRun(g, keep, fold, fold[x])
    && (if fold[x] != x then g[x].parent in fold && fold[g[x].parent] == fold[x] else g[x].parent !in fold)
  }

  lemma NewMember(g: Graph, keep: set<string>, fold: Folding, visited: set<string>, start: string, chain: seq<Node>,
                  i: nat)
    requires RunsOk(g, keep, fold) && fold.Keys <= visited && start in visited && !Linear(g, keep, start)
    requires RunBelow(g, keep, visited, start, chain) && i < |chain|
    requires LongRun(g, keep, FoldedChain(fold, chain), chain[0].id)
    ensures MemberOk(g, keep, FoldedChain(fold, chain), chain[i].id)
  {
    hide LongRun, Structural, OnlyChild;
    assert InRun(g, keep, visited, chain[i]) && chain[i].id in IdsOf(chain) && chain[0].id in IdsOf(chain);
    if i > 0 {
      assert chain[i - 1].id in IdsOf(chain) && chain[i].parent == chain[i - 1].id;
    } else {
      assert start !in IdsOf(chain) by { StartOutside(g, keep, visited, start, chain); }
    }
  }

  lemma StartOutside(g: Graph, keep: set<string>, visited: set<string>, start: string, chain: seq<Node>)
    requires RunBelow(g, keep, visited, start, chain)
    ensures forall x :: x in visited ==> x !in IdsOf(chain)
  {
    forall i | 0 <= i < |chain| ensures chain[i].id !in visited { assert InRun(g, keep, visited, chain[i]); }
  }

  lemma OldMember(g: Graph, keep: set<string>, fold: Folding, visited: set<string>, start: string, chain: seq<Node>,
                  x: string)
    requires RunsOk(g, keep, fold) && fold.Keys <= visited && x in fold && chain != []
    requires visited <= g.Keys && forall y :: y in visited && g[y].parent in g ==> g[y].parent in visited
    requires RunBelow(g, keep, visited, start, chain)
    ensures x in FoldedChain(fold, chain) && MemberOk(g, keep, FoldedChain(fold, chain), x)
  {
    hide LongRun, Structural, OnlyChild;
    StartOutside(g, keep, visited, start, chain);
    OldLongRun(g, keep, fold, FoldedChain(fold, chain), fold[x]);
    LinearHasParent(g, keep, x);
  }

  lemma NewLongRun(g: Graph, keep: set<string>, fold: Folding, a: string, b: string, c: string)
    requires Triple(g, keep, a, b, c) && a in fold && b in fold && c in fold && fold[a] == fold[b] == fold[c]
    ensures LongRun(g, keep, fold, fold[a])
  {
  }

  lemma OldLongRun(g: Graph, keep: set<string>, fold: Folding, fold': Folding, head: string)
    requires LongRun(g, keep, fold, head) && forall x :: x in fold ==> x in fold' && fold'[x] == fold[x]
    ensures LongRun(g, keep, fold', head)
  {
    var a, b, c :| Triple(g, keep, a, b, c) && FoldedTogether(fold, a, b, c) && fold[a] == head;
    NewLongRun(g, keep, fold', a, b, c);
  }

  lemma LinearHasParent(g: Graph, keep: set<string>, x: string)
    requires Linear(g, keep, x)
    ensures x in g && g[x].parent in g
  {
  }

  /** A run too short to fold is shown as it is. */
  lemma {:induction false} KeepChain(g: Graph, keep: set<string>, fold: Folding, visited: set<string>, out: seq<Node>,
                                     start: string, chain: seq<Node>)
    requires ValidGraph(g) && FreshRunIds(g) && Visited(g, keep, fold, visited, out)
    requires start in visited && !Linear(g, keep, start) && RunBelow(g, keep, visited, start, chain)
    requires |chain| < SESSION_TREE_LINEAR_RUN_MIN && Maximal(g, keep, start, chain)
    ensures Visited(g, keep, fold, visited + IdsOf(chain), out + chain)
  {
    hide LongRun, Linear, Mentions, ShownOk, RunId, RunsOk;
    var visited' := visited + IdsOf(chain);
    ChainParents(g, keep, visited, start, chain);
    NotFolded(g, keep, fold, visited, out, start, chain);
    if |chain| > 0 {
      ShowKept(g, keep, fold, visited, out, chain[0]);
      assert out + chain[..1] == out + [chain[0]];
      if |chain| > 1 {
        ShowKept(g, keep, fold, visited + {chain[0].id}, out + [chain[0]], chain[1]);
        assert out + chain == out + [chain[0]] + [chain[1]];
        assert visited' == visited + {chain[0].id} + {chain[1].id};
      } else {
        assert out + chain == out + [chain[0]];
        assert visited' == visited + {chain[0].id};
      }
    } else {
      assert out + chain == out && visited' == visited;
    }
    forall a, b, c | Triple(g, keep, a, b, c) && a in visited' ensures FoldedTogether(fold, a, b, c) {
      if a in IdsOf(chain) { ShortChainHasNoTriple(g, keep, start, chain, a, b, c); }
    }
  }

  lemma NotFolded(g: Graph, keep: set<string>, fold: Folding, visited: set<string>, out: seq<Node>, start: string,
                  chain: seq<Node>)
    requires Visited(g, keep, fold, visited, out) && !Linear(g, keep, start) && RunBelow(g, keep, visited, start, chain)
    ensures start !in fold && forall i :: 0 <= i < |chain| ==> chain[i].id !in fold
  {
  }

  lemma ShowKept(g: Graph, keep: set<string>, fold: Folding, visited: set<string>, out: seq<Node>, n: Node)
    requires ValidGraph(g) && FreshRunIds(g) && Shows(g, fold, visited, out)
    requires visited <= g.Keys && fold.Keys <= visited && RunsOk(g, keep, fold)
    requires forall x :: x in visited && g[x].parent in g ==> g[x].parent in visited
    requires InRun(g, keep, visited, n) && n.parent in visited && n.parent !in fold
    ensures Shows(g, fold, visited + {n.id}, out + [n])
    ensures visited + {n.id} <= g.Keys && forall x :: x in visited + {n.id} && g[x].parent in g ==>
      g[x].parent in visited + {n.id}
  {
    assert n == n.(parent := ShownParent(g, fold, n.id));
    GrowShows(g, fold, visited, out, fold, visited + {n.id}, n);
    MentionsLast(out, n);
  }

  lemma ShortChainHasNoTriple(g: Graph, keep: set<string>, start: string, chain: seq<Node>, a: string, b: string,
                              c: string)
    requires |chain| < SESSION_TREE_LINEAR_RUN_MIN && Maximal(g, keep, start, chain) && Triple(g, keep, a, b, c)
    requires forall i :: 0 <= i < |chain| ==>
      chain[i].id in g && chain[i] == g[chain[i].id] && Linear(g, keep, chain[i].id)
    requires forall i, j :: 0 <= i < j < |chain| && j == i + 1 ==> chain[j].parent == chain[i].id
    ensures a !in IdsOf(chain)
  {
    forall i | 0 <= i < |chain| ensures chain[i].id != a {
      assert i + 1 < |chain| ==> chain[i + 1].parent == chain[i].id;
      assert Linear(g, keep, b) && Linear(g, keep, c);
    }
  }

  // ---- the visitor ----

  /** The child lists built from the first `i` nodes, each in input order. */
  ghost predicate Listed(nodes: seq<Node>, g: Graph, children: map<string, seq<Node>>, i: nat)
    requires i <= |nodes|
  {
    && (forall p, k :: p in children && 0 <= k < |children[p]| ==> ListedAt(nodes, g, children[p][k], p, i))
    && (forall p :: p in children ==> DistinctIds(children[p]))
    && (forall k :: 0 <= k < i && nodes[k].parent in g ==>
          nodes[k].parent in children && nodes[k] in children[nodes[k].parent])
  }

  predicate ListedAt(nodes: seq<Node>, g: Graph, node: Node, p: string, i: nat)
    requires i <= |nodes|
  {
    node.id in g && node == g[node.id] && IsChild(g, node.id, p) && Mentions(nodes[..i], node.id)
  }

  method ChildrenMap(nodes: seq<Node>, g: Graph) returns (children: map<string, seq<Node>>)
    requires ValidGraph(g) && DistinctIds(nodes)
    requires forall i :: 0 <= i < |nodes| ==> nodes[i].id in g && g[nodes[i].id] == nodes[i]
    requires forall id :: id in g ==> Mentions(nodes, id)
    ensures ChildrenOk(g, children)
  {
    hide Listed, ValidGraph, DistinctIds, ChildrenOk, Mentions;
    children := map[];
    NothingListed(nodes, g);
    NoEmptyId(g);
    for i := 0 to |nodes|
      invariant Listed(nodes, g, children, i)
    {
      var node := nodes[i];
      ListNext(nodes, g, children, i);
      if node.parent != "" && node.parent in g {
        var list := (if node.parent in children then children[node.parent] else []) + [node];
        children := children[node.parent := list];
      }
    }
    AllListed(nodes, g, children);
  }

  lemma NoEmptyId(g: Graph)
    requires ValidGraph(g)
    ensures "" !in g
  {
  }

  lemma NothingListed(nodes: seq<Node>, g: Graph)
    ensures Listed(nodes, g, map[], 0)
  {
  }

  lemma ListNext(nodes: seq<Node>, g: Graph, children: map<string, seq<Node>>, i: nat)
    requires ValidGraph(g) && DistinctIds(nodes) && i < |nodes| && Listed(nodes, g, children, i)
    requires nodes[i].id in g && g[nodes[i].id] == nodes[i]
    ensures var node := nodes[i];
            if node.parent !in g then Listed(nodes, g, children, i + 1)
            else
              Listed(nodes, g,
                     children[node.parent := (if node.parent in children then children[node.parent] else []) + [node]],
                     i + 1)
  {
    hide Mentions, IsChild;
    var node := nodes[i];
    MentionsPrefix(nodes, i);
    if node.parent in g {
      var known := if node.parent in children then children[node.parent] else [];
      assert node == (known + [node])[|known|];
      assert IsChild(g, node.id, node.parent) by { ChildOfParent(g, node); }
    }
  }

  lemma ChildOfParent(g: Graph, node: Node)
    requires node.id in g && g[node.id] == node && node.parent in g
    ensures IsChild(g, node.id, node.parent)
  {
  }

  lemma AllListed(nodes: seq<Node>, g: Graph, children: map<string, seq<Node>>)
    requires Listed(nodes, g, children, |nodes|)
    requires forall i :: 0 <= i < |nodes| ==> nodes[i].id in g && g[nodes[i].id] == nodes[i]
    requires forall id :: id in g ==> Mentions(nodes, id)
    ensures ChildrenOk(g, children)
  {
    forall c | c in g && g[c].parent in g
      ensures g[c].parent in children
      ensures exists k :: 0 <= k < |children[g[c].parent]| && children[g[c].parent][k] == g[c]
    {
      var i :| 0 <= i < |nodes| && nodes[i].id == c;
      assert nodes[i] in children[nodes[i].parent];
    }
  }

  lemma MentionsPrefix(nodes: seq<Node>, i: nat)
    requires i < |nodes| && DistinctIds(nodes)
    ensures !Mentions(nodes[..i], nodes[i].id) && Mentions(nodes[..i + 1], nodes[i].id)
    ensures forall id :: Mentions(nodes[..i], id) ==> Mentions(nodes[..i + 1], id)
  {
    assert nodes[..i + 1][i].id == nodes[i].id;
    forall id | Mentions(nodes[..i], id) ensures Mentions(nodes[..i + 1], id) {
      var k :| 0 <= k < i && nodes[..i][k].id == id;
      assert nodes[..i + 1][k].id == id;
    }
  }

  /** `filter(child => !consumed.has(child.id))`. */
  function Unvisited(kids: seq<Node>, visited: set<string>): seq<Node> {
    if kids == [] then []
    else (if kids[0].id in visited then [] else [kids[0]]) + Unvisited(kids[1..], visited)
  }

  lemma {:induction false} NoneVisited(kids: seq<Node>, visited: set<string>)
    requires forall i :: 0 <= i < |kids| ==> kids[i].id !in visited
    ensures Unvisited(kids, visited) == kids
    decreases |kids|
  {
    if kids == [] {
    } else {
      NoneVisited(kids[1..], visited);
    }
  }

  ghost predicate UpClosed(g: Graph, visited: set<string>) {
    visited <= g.Keys && forall x :: x in visited && g[x].parent in g ==> g[x].parent in visited
  }

  lemma GrowRun(g: Graph, keep: set<string>, visited0: set<string>, start: string, chain: seq<Node>, kid: Node)
    requires ValidGraph(g) && UpClosed(g, visited0) && start in visited0 && RunBelow(g, keep, visited0, start, chain)
    requires kid.id in g && g[kid.id] == kid && Linear(g, keep, kid.id) && kid.parent == LastOf(start, chain)
    requires kid.id !in visited0 + IdsOf(chain)
    ensures RunBelow(g, keep, visited0, start, chain + [kid])
    ensures IdsOf(chain + [kid]) == IdsOf(chain) + {kid.id}
    ensures forall c :: IsChild(g, c, kid.id) ==> c !in visited0 + IdsOf(chain + [kid])
  {
    hide Linear;
    var longer := chain + [kid];
    IdsAppend(chain, kid);
    forall i | 0 <= i < |longer| ensures InRun(g, keep, visited0, longer[i]) {
      if i < |chain| { assert longer[i] == chain[i]; }
    }
    forall i, j | 0 <= i < j < |longer| ensures longer[i].id != longer[j].id &&
      (j == i + 1 ==> longer[j].parent == longer[i].id) {
      assert longer[i] == chain[i] && chain[i].id in IdsOf(chain);
    }
    assert RunBelow(g, keep, visited0, start, longer);
    forall c | IsChild(g, c, kid.id) ensures c !in visited0 + IdsOf(longer) {
      if c in IdsOf(longer) { ParentInRun(g, keep, visited0, start, longer, c); }
    }
  }

  lemma IdsAppend(chain: seq<Node>, kid: Node)
    ensures IdsOf(chain + [kid]) == IdsOf(chain) + {kid.id}
  {
    var longer := chain + [kid];
    assert longer[|chain|] == kid;
    forall x | x in IdsOf(chain) ensures x in IdsOf(longer) {
      var i :| 0 <= i < |chain| && chain[i].id == x;
      assert longer[i].id == x;
    }
  }

  /** The parent of a run's node is the start or an earlier node of the run. */
  lemma ParentInRun(g: Graph, keep: set<string>, visited0: set<string>, start: string, chain: seq<Node>, c: string)
    requires RunBelow(g, keep, visited0, start, chain) && chain != [] && c in IdsOf(chain)
    requires start in visited0
    ensures c in g && g[c].parent in visited0 + IdsOf(chain[..|chain| - 1])
    ensures chain[|chain| - 1].id !in visited0 + IdsOf(chain[..|chain| - 1])
  {
    var n := |chain| - 1;
    var i :| 0 <= i <= n && chain[i].id == c;
    assert InRun(g, keep, visited0, chain[i]) && InRun(g, keep, visited0, chain[n]);
    if i > 0 {
      assert chain[..n][i - 1].id == chain[i - 1].id == chain[i].parent;
    }
  }

  /** Follow single non-structural children; the nodes taken are marked as visited. */
  method TakeRun(g: Graph, keep: set<string>, children: map<string, seq<Node>>, start: Node, visited0: set<string>)
    returns (chain: seq<Node>, visited: set<string>)
    requires ValidGraph(g) && ChildrenOk(g, children) && start.id in visited0 && UpClosed(g, visited0)
    requires forall c :: IsChild(g, c, start.id) ==> c !in visited0
    ensures RunBelow(g, keep, visited0, start.id, chain) && Maximal(g, keep, start.id, chain)
    ensures visited == visited0 + IdsOf(chain)
    ensures forall c :: IsChild(g, c, LastOf(start.id, chain)) ==> c !in visited
  {
    hide Structural;
    chain, visited := [], visited0;
    var current := start.id;
    while true
      invariant RunBelow(g, keep, visited0, start.id, chain) && current == LastOf(start.id, chain) && current in g
      invariant visited == visited0 + IdsOf(chain) && visited <= g.Keys
      invariant forall c :: IsChild(g, c, current) ==> c !in visited
      decreases g.Keys - visited
    {
      SingleKid(g, children, current);
      NoneVisited(KidsOf(children, current), visited);
      var kids := Unvisited(KidsOf(children, current), visited);
      if |kids| != 1 || Structural(kids[0], keep) { break; }
      var kid := kids[0];
      assert IsChild(g, kid.id, current);
      GrowRun(g, keep, visited0, start.id, chain, kid);
      chain := chain + [kid];
      visited := visited + {kid.id};
      current := kid.id;
    }
  }

  datatype Options = Options(keep: set<string>, expandRuns: set<string>, stepLimit: nat)

  /** The node a run of at least three becomes; it counts turns, not records. */
  method FoldRun(start: Node, chain: seq<Node>, opts: Options) returns (o: Node)
    requires chain != []
    ensures o.id == RunId(chain[0].id) && o.parent == start.id && o.sessionKey == start.sessionKey
    ensures o.kind == CollapsedKind
    ensures o.childCount == 1 && !o.isLeaf && !o.isHead && o.fold.Some? && Describes(o, chain)
    ensures o.fold.value.expanded == (o.id in opts.expandRuns)
    ensures o.fold.value.expanded ==> |o.fold.value.steps| == Min(opts.stepLimit, o.fold.value.turns)
    ensures !o.labelled && !o.isForkAnchor && o.role.NoRole? && o.tools == []
  {
    var turns := TurnSteps(chain);
    var id := RunId(chain[0].id);
    var expanded := id in opts.expandRuns;
    var steps := if expanded then turns[..Min(opts.stepLimit, |turns|)] else [];
    var truncated := expanded && |turns| > opts.stepLimit;
    var fold := Fold(|turns|, chain[0].id, chain[|chain| - 1].id, expanded, steps, truncated);
    var firstText, lastText := turns[0].request, turns[|turns| - 1].request;
    var both := firstText != "" && lastText != "" && firstText != lastText;
    var span := if both then firstText + " → " + lastText else firstText;
    o := Node(id, start.id, CollapsedKind, NoRole, start.sessionKey, false, 1, false, false, false,
              FoldTitle(|turns|), span, [], Some(fold));
  }

  /** A node that stands for a run is expanded exactly when a reader asked for that, then with as many turns as asked;
      it belongs to the session of the node it hangs off, has one child, and is nothing to navigate to. */
  predicate FoldAsAsked(g: Graph, opts: Options, o: Node) {
    o.id !in g ==>
      && o.fold.Some?
      && o.fold.value.expanded == (o.id in opts.expandRuns)
      && (o.fold.value.expanded ==> |o.fold.value.steps| == Min(opts.stepLimit, o.fold.value.turns))
      && o.parent in g && o.sessionKey == g[o.parent].sessionKey
      && o.childCount == 1 && !o.isLeaf && !o.isHead && !o.labelled && !o.isForkAnchor
      && o.role.NoRole? && o.tools == []
  }

  predicate AsAsked(g: Graph, opts: Options, out: seq<Node>) {
    forall i :: 0 <= i < |out| ==> FoldAsAsked(g, opts, out[i])
  }

  lemma AsAskedKnown(g: Graph, opts: Options, out: seq<Node>, more: seq<Node>)
    requires AsAsked(g, opts, out) && forall i :: 0 <= i < |more| ==> more[i].id in g
    ensures AsAsked(g, opts, out + more)
  {
  }

  lemma AsAskedPush(g: Graph, opts: Options, out: seq<Node>, o: Node)
    requires AsAsked(g, opts, out) && FoldAsAsked(g, opts, o)
    ensures AsAsked(g, opts, out + [o])
  {
  }

  /** Nodes visited earlier keep the place they were given. */
  ghost predicate Extends(fold: Folding, visited: set<string>, fold': Folding) {
    forall x :: x in visited ==> (x in fold' <==> x in fold) && (x in fold ==> fold'[x] == fold[x])
  }

  lemma ExtendsTransitive(fold0: Folding, visited0: set<string>, fold1: Folding, visited1: set<string>, fold2: Folding)
    requires Extends(fold0, visited0, fold1) && Extends(fold1, visited1, fold2) && visited0 <= visited1
    ensures Extends(fold0, visited0, fold2)
  {
  }

  lemma FinishedTransitive(g: Graph, a: set<string>, b: set<string>, c: set<string>)
    requires Finished(g, a, b) && Finished(g, b, c)
    ensures Finished(g, a, c)
  {
  }

  lemma VisitedIsUpClosed(g: Graph, keep: set<string>, fold: Folding, visited: set<string>, out: seq<Node>)
    requires Visited(g, keep, fold, visited, out)
    ensures UpClosed(g, visited)
  {
  }

  /** Nothing below an unvisited start has been visited. */
  lemma StartIsFresh(g: Graph, keep: set<string>, fold: Folding, visited: set<string>, start: string,
                     parentOverride: string)
    requires UpClosed(g, visited) && start !in visited && Callable(g, keep, fold, visited, start, parentOverride)
    ensures forall c :: IsChild(g, c, start) ==> c !in visited + {start}
    ensures !Linear(g, keep, start)
  {
  }

  /** Inside a run every child is the run's next node. */
  lemma RunChildren(g: Graph, keep: set<string>, visited1: set<string>, start: string, chain: seq<Node>, x: string,
                    c: string)
    requires RunBelow(g, keep, visited1, start, chain) && IsChild(g, c, x)
    requires x == start || x in IdsOf(chain)
    ensures c in IdsOf(chain) || x == LastOf(start, chain)
  {
    if x != LastOf(start, chain) {
      var i := -1;
      if x in IdsOf(chain) && x != start { i :| 0 <= i < |chain| && chain[i].id == x; }
      assert InRun(g, keep, visited1, chain[i + 1]) && chain[i + 1].parent == x;
      assert chain[i + 1].id == c;
    }
  }

  /** The state after a run has been shown or folded lets its last node's children be visited. */
  lemma AfterRun(g: Graph, keep: set<string>, fold0: Folding, visited1: set<string>, start: string, chain: seq<Node>,
                 fold: Folding, parentOverride: string)
    requires fold0.Keys <= visited1 && start in visited1 && start !in fold0 && RunBelow(g, keep, visited1, start, chain)
    requires if |chain| >= SESSION_TREE_LINEAR_RUN_MIN then fold == FoldedChain(fold0, chain) &&
      parentOverride == RunId(chain[0].id)
             else fold == fold0 && parentOverride == ""
    ensures var last := LastOf(start, chain);
            last in visited1 + IdsOf(chain) &&
              (if parentOverride == "" then last else parentOverride) == Rep(fold, last)
    ensures Extends(fold0, visited1, fold)
  {
    StartOutside(g, keep, visited1, start, chain);
    if chain != [] { assert chain[|chain| - 1].id in IdsOf(chain); }
    assert RunId("")[..4] == "run:";
  }

  lemma VisitFinishes(g: Graph, keep: set<string>, visited0: set<string>, visited1: set<string>, start: string,
                      chain: seq<Node>, visited: set<string>)
    requires visited1 == visited0 + {start} && RunBelow(g, keep, visited1, start, chain)
    requires Finished(g, visited1 + IdsOf(chain), visited)
    requires forall c :: IsChild(g, c, LastOf(start, chain)) ==> c in visited
    ensures Finished(g, visited0, visited)
  {
    forall x, c | x in visited && x !in visited0 && IsChild(g, c, x) ensures c in visited {
      if x in visited1 + IdsOf(chain) { RunChildren(g, keep, visited1, start, chain, x, c); }
    }
  }

  method Visit(g: Graph, children: map<string, seq<Node>>, opts: Options, start: Node, parentOverride: string,
               out0: seq<Node>, visited0: set<string>, ghost fold0: Folding)
    returns (out: seq<Node>, visited: set<string>, ghost fold: Folding)
    requires ValidGraph(g) && FreshRunIds(g) && ChildrenOk(g, children) && Visited(g, opts.keep, fold0, visited0, out0)
    requires start.id in g && g[start.id] == start
    requires start.id !in visited0 ==> Callable(g, opts.keep, fold0, visited0, start.id, parentOverride)
    requires AsAsked(g, opts, out0)
    ensures AsAsked(g, opts, out)
    ensures Visited(g, opts.keep, fold, visited, out) && Extends(fold0, visited0, fold)
    ensures Finished(g, visited0, visited) && start.id in visited
    ensures start.id in visited0 ==> out == out0 && visited == visited0 && fold == fold0
    decreases g.Keys - visited0, 0
  {
    hide Visited, Callable, ChildrenOk, RunBelow, Maximal, Linear, FoldFrom, Describes, AsAsked;
    out, visited, fold := out0, visited0, fold0;
    if start.id in visited { return; }
    VisitedIsUpClosed(g, opts.keep, fold0, visited0, out0);
    FoldsAreVisited(g, opts.keep, fold0, visited0, out0);
    ShowStart(g, opts.keep, fold0, visited0, out0, start.id, parentOverride);
    StartIsFresh(g, opts.keep, fold0, visited0, start.id, parentOverride);
    AsAskedKnown(g, opts, out, [if parentOverride != "" then start.(parent := parentOverride) else start]);
    out := out + [if parentOverride != "" then start.(parent := parentOverride) else start];
    visited := visited + {start.id};
    ghost var visited1 := visited;
    VisitedIsUpClosed(g, opts.keep, fold, visited, out);
    var chain: seq<Node>;
    chain, visited := TakeRun(g, opts.keep, children, start, visited);
    var runId := "";
    if |chain| >= SESSION_TREE_LINEAR_RUN_MIN {
      var folded := FoldRun(start, chain, opts);
      FoldChain(g, opts.keep, fold, visited1, out, start.id, chain, folded);
      AsAskedPush(g, opts, out, folded);
      out := out + [folded];
      runId := folded.id;
      fold := FoldedChain(fold, chain);
    } else {
      KeepChain(g, opts.keep, fold, visited1, out, start.id, chain);
      RunInGraph(g, opts.keep, visited1, start.id, chain);
      AsAskedKnown(g, opts, out, chain);
      out := out + chain;
    }
    ghost var visited2, fold2 := visited, fold;
    AfterRun(g, opts.keep, fold0, visited1, start.id, chain, fold, runId);
    NoLinearBelow(g, opts.keep, start.id, chain);
    out, visited, fold := VisitKids(g, children, opts, LastOf(start.id, chain), runId, out, visited, fold);
    ExtendsTransitive(fold0, visited0, fold2, visited2, fold);
    VisitFinishes(g, opts.keep, visited0, visited1, start.id, chain, visited);
    // The run, if any, was the only child: nothing is left to visit here.
    out, visited, fold := VisitKids(g, children, opts, start.id, "", out, visited, fold);
  }

  lemma FoldsAreVisited(g: Graph, keep: set<string>, fold: Folding, visited: set<string>, out: seq<Node>)
    requires Visited(g, keep, fold, visited, out)
    ensures fold.Keys <= visited
  {
  }

  lemma NoLinearBelow(g: Graph, keep: set<string>, start: string, chain: seq<Node>)
    requires Maximal(g, keep, start, chain)
    ensures forall c :: IsChild(g, c, LastOf(start, chain)) ==> !Linear(g, keep, c)
  {
  }

  method VisitKids(g: Graph, children: map<string, seq<Node>>, opts: Options, parent: string, parentOverride: string,
                   out0: seq<Node>, visited0: set<string>, ghost fold0: Folding)
    returns (out: seq<Node>, visited: set<string>, ghost fold: Folding)
    requires ValidGraph(g) && FreshRunIds(g) && ChildrenOk(g, children) && Visited(g, opts.keep, fold0, visited0, out0)
    requires parent in visited0 && AsAsked(g, opts, out0)
    requires forall c :: IsChild(g, c, parent) && c !in visited0 ==>
               !Linear(g, opts.keep, c) &&
                 (if parentOverride == "" then parent else parentOverride) == Rep(fold0, parent)
    ensures Visited(g, opts.keep, fold, visited, out) && Extends(fold0, visited0, fold)
    ensures Finished(g, visited0, visited) && AsAsked(g, opts, out)
    ensures forall c :: IsChild(g, c, parent) ==> c in visited
    ensures (forall c :: IsChild(g, c, parent) ==> c in visited0) ==>
      out == out0 && visited == visited0 && fold == fold0
    decreases g.Keys - visited0, 1
  {
    hide Visited, ChildrenOk, Linear, Callable, Rep, AsAsked;
    out, visited, fold := out0, visited0, fold0;
    var kids := KidsOf(children, parent);
    KidsAreChildren(g, children, parent);
    for i := 0 to |kids|
      invariant Visited(g, opts.keep, fold, visited, out) && Extends(fold0, visited0, fold)
      invariant Finished(g, visited0, visited) && AsAsked(g, opts, out)
      invariant forall k :: 0 <= k < i ==> kids[k].id in visited
      invariant (forall c :: IsChild(g, c, parent) ==> c in visited0) ==>
        out == out0 && visited == visited0 && fold == fold0
    {
      var kid := kids[i];
      assert IsChild(g, kid.id, parent);
      if kid.id !in visited {
        KidIsCallable(g, opts.keep, fold0, visited0, fold, visited, parent, kid.id, parentOverride);
      }
      ghost var before, fold1 := visited, fold;
      out, visited, fold := Visit(g, children, opts, kid, parentOverride, out, visited, fold);
      ExtendsTransitive(fold0, visited0, fold1, before, fold);
      FinishedTransitive(g, visited0, before, visited);
    }
    forall c | IsChild(g, c, parent) ensures c in visited {
      var i :| 0 <= i < |kids| && kids[i] == g[c];
      assert g[c].id == c;
    }
  }

  lemma KidsAreChildren(g: Graph, children: map<string, seq<Node>>, parent: string)
    requires ChildrenOk(g, children)
    ensures var kids := KidsOf(children, parent);
            && (forall i :: 0 <= i < |kids| ==>
                kids[i].id in g && g[kids[i].id] == kids[i] && IsChild(g, kids[i].id, parent))
            && (forall c :: IsChild(g, c, parent) ==> exists i :: 0 <= i < |kids| && kids[i] == g[c])
  {
    forall c | IsChild(g, c, parent)
      ensures exists i :: 0 <= i < |KidsOf(children, parent)| && KidsOf(children, parent)[i] == g[c]
    {
      var k :| 0 <= k < |children[parent]| && children[parent][k] == g[c];
      assert KidsOf(children, parent)[k] == g[c];
    }
  }

  lemma KidIsCallable(g: Graph, keep: set<string>, fold0: Folding, visited0: set<string>, fold: Folding,
                      visited: set<string>,
                      parent: string, kid: string, parentOverride: string)
    requires Extends(fold0, visited0, fold) && parent in visited0 && visited0 <= visited && IsChild(g, kid, parent)
    requires !Linear(g, keep, kid)
    requires (if parentOverride == "" then parent else parentOverride) == Rep(fold0, parent)
    ensures Callable(g, keep, fold, visited, kid, parentOverride)
  {
  }

  // ---- the whole contraction ----

  predicate IsRoot(g: Graph, id: string) {
    id in g && g[id].parent !in g
  }

  /** Every input node is shown once or folded into one run; `reached` are the nodes below a root. */
  ghost predicate Contracts(g: Graph, keep: set<string>, fold: Folding, reached: set<string>, out: seq<Node>) {
    && Shows(g, fold, g.Keys, out) && RunsOk(g, keep, fold) && fold.Keys <= reached <= g.Keys
    && Finished(g, {}, reached) && (forall id :: IsRoot(g, id) ==> id in reached)
    && (forall a, b, c :: Triple(g, keep, a, b, c) && a in reached ==> FoldedTogether(fold, a, b, c))
  }

  lemma FinishedGrows(g: Graph, before: set<string>, visited: set<string>)
    requires Finished(g, before, visited)
    ensures before <= visited
  {
  }

  /** `nodes` are the nodes of the graph, and none has the empty id. */
  lemma NodesAreKnown(nodes: seq<Node>, g: Graph)
    requires GraphOf(nodes, g) && ValidGraph(g)
    ensures "" !in g && forall i :: 0 <= i < |nodes| ==> nodes[i].id in g && g[nodes[i].id] == nodes[i]
    ensures forall id :: id in g ==> Mentions(nodes, id)
  {
  }

  method VisitRoots(nodes: seq<Node>, g: Graph, opts: Options)
    returns (out: seq<Node>, visited: set<string>, ghost fold: Folding)
    requires GraphOf(nodes, g) && ValidGraph(g) && FreshRunIds(g) && DistinctIds(nodes)
    ensures Visited(g, opts.keep, fold, visited, out) && Finished(g, {}, visited) && AsAsked(g, opts, out)
    ensures forall id :: IsRoot(g, id) ==> id in visited
  {
    hide Visited, Callable, ChildrenOk, FreshRunIds, DistinctIds, Extends, Finished, GraphOf, ValidGraph, Mentions;
    NodesAreKnown(nodes, g);
    var children := ChildrenMap(nodes, g);
    out, visited, fold := [], {}, map[];
    NothingVisited(g, opts.keep);
    for i := 0 to |nodes|
      invariant Visited(g, opts.keep, fold, visited, out) && Finished(g, {}, visited) && AsAsked(g, opts, out)
      invariant forall k :: 0 <= k < i && nodes[k].parent !in g ==> nodes[k].id in visited
    {
      if nodes[i].parent == "" || nodes[i].parent !in g {
        RootIsCallable(g, opts.keep, fold, visited, nodes[i].id);
        ghost var before := visited;
        out, visited, fold := Visit(g, children, opts, nodes[i], "", out, visited, fold);
        FinishedTransitive(g, {}, before, visited);
        FinishedGrows(g, before, visited);
      }
    }
    RootsAreAmong(nodes, g, visited);
  }

  lemma RootsAreAmong(nodes: seq<Node>, g: Graph, visited: set<string>)
    requires GraphOf(nodes, g) && forall k :: 0 <= k < |nodes| && nodes[k].parent !in g ==> nodes[k].id in visited
    ensures forall id :: IsRoot(g, id) ==> id in visited
  {
    forall id | IsRoot(g, id) ensures id in visited {
      var i :| 0 <= i < |nodes| && nodes[i].id == id;
    }
  }

  method CollapseLinearRuns(nodes: seq<Node>, opts: Options) returns (out: seq<Node>)
    requires DistinctIds(nodes) && forall i :: 0 <= i < |nodes| ==> nodes[i].id != ""
    requires RunIdsFree(nodes)
    ensures Contraction(nodes, opts.keep, out) && AsAsked(GraphFrom(nodes), opts, out)
  {
    hide Visited, Shows, RunsOk, Triple, FreshRunIds, GraphFrom;
    var byId := IndexNodes(nodes);
    RunIdsAreFresh(nodes, byId);
    GraphFromIs(nodes);
    SameGraph(nodes, byId, GraphFrom(nodes));
    var visited: set<string>;
    ghost var fold: Folding;
    out, visited, fold := VisitRoots(nodes, byId, opts);
    VisitedShows(byId, opts.keep, fold, visited, out);
    out := AddUnreached(nodes, byId, opts, visited, out, fold);
    assert Contracts(byId, opts.keep, fold, visited, out);
  }

  /** The nodes by id. */
  function GraphFrom(nodes: seq<Node>): Graph {
    if nodes == [] then map[] else GraphFrom(nodes[..|nodes| - 1])[nodes[|nodes| - 1].id := nodes[|nodes| - 1]]
  }

  /** The output is a faithful contraction of the input. */
  ghost predicate Contraction(nodes: seq<Node>, keep: set<string>, out: seq<Node>) {
    exists fold, reached :: Contracts(GraphFrom(nodes), keep, fold, reached, out)
  }

  lemma {:induction false} GraphFromIs(nodes: seq<Node>)
    requires DistinctIds(nodes) && forall i :: 0 <= i < |nodes| ==> nodes[i].id != ""
    ensures GraphOf(nodes, GraphFrom(nodes)) && ValidGraph(GraphFrom(nodes))
  {
    if nodes == [] {
    } else {
      hide GraphOf, ValidGraph;
      var n := |nodes| - 1;
      assert nodes == nodes[..n] + [nodes[n]];
      GraphFromIs(nodes[..n]);
      GraphPush(nodes[..n], GraphFrom(nodes[..n]), nodes[n]);
    }
  }

  lemma GraphPush(nodes: seq<Node>, g: Graph, n: Node)
    requires DistinctIds(nodes + [n]) && n.id != "" && GraphOf(nodes, g) && ValidGraph(g)
    ensures GraphOf(nodes + [n], g[n.id := n]) && ValidGraph(g[n.id := n])
  {
    hide Mentions;
    var all := nodes + [n];
    MentionsLast(nodes, n);
    forall id | Mentions(nodes, id) ensures Mentions(all, id) { MentionsMore(nodes, n, id); }
    forall i | 0 <= i < |nodes| ensures all[i] == nodes[i] && all[i].id != n.id { assert all[|nodes|] == n; }
  }

  lemma MentionsMore(nodes: seq<Node>, n: Node, id: string)
    requires Mentions(nodes, id)
    ensures Mentions(nodes + [n], id)
  {
    var i :| 0 <= i < |nodes| && nodes[i].id == id;
    assert (nodes + [n])[i].id == id;
  }

  lemma SameGraph(nodes: seq<Node>, g: Graph, h: Graph)
    requires GraphOf(nodes, g) && GraphOf(nodes, h)
    ensures g == h
  {
    forall id | Mentions(nodes, id) ensures id in g && id in h && g[id] == h[id] {
      var i :| 0 <= i < |nodes| && nodes[i].id == id;
    }
  }

  method AddUnreached(nodes: seq<Node>, ghost g: Graph, ghost opts: Options, visited: set<string>, out0: seq<Node>,
                      ghost fold: Folding)
    returns (out: seq<Node>)
    requires GraphOf(nodes, g) && ValidGraph(g) && FreshRunIds(g) && DistinctIds(nodes)
    requires Shows(g, fold, visited, out0) && fold.Keys <= visited <= g.Keys && Finished(g, {}, visited)
    requires AsAsked(g, opts, out0)
    ensures Shows(g, fold, g.Keys, out) && AsAsked(g, opts, out)
  {
    hide Shows, FreshRunIds, Finished, AsAsked;
    out := out0;
    ghost var shown := visited;
    for i := 0 to |nodes|
      invariant Shows(g, fold, shown, out) && visited <= shown <= g.Keys && AsAsked(g, opts, out)
      invariant forall k :: 0 <= k < i ==> nodes[k].id in shown
      invariant forall k :: i <= k < |nodes| && nodes[k].id in shown ==> nodes[k].id in visited
    {
      if nodes[i].id !in visited {
        LeftOver(g, fold, visited, shown, out, nodes[i]);
        AsAskedKnown(g, opts, out, [nodes[i]]);
        out := out + [nodes[i]];
        shown := shown + {nodes[i].id};
      }
    }
    AllShown(nodes, g, shown);
  }

  lemma RunIdsAreFresh(nodes: seq<Node>, g: Graph)
    requires GraphOf(nodes, g)
    requires RunIdsFree(nodes)
    ensures FreshRunIds(g)
  {
    forall h, id | h in g && id in g ensures RunId(h) != id && RunId(h) != g[id].parent {
      var i :| 0 <= i < |nodes| && nodes[i].id == h;
      var j :| 0 <= j < |nodes| && nodes[j].id == id;
    }
  }

  ghost predicate GraphOf(nodes: seq<Node>, g: Graph) {
    && (forall i :: 0 <= i < |nodes| ==> nodes[i].id in g && g[nodes[i].id] == nodes[i])
    && (forall id :: id in g ==> Mentions(nodes, id))
  }

  method IndexNodes(nodes: seq<Node>) returns (g: Graph)
    requires DistinctIds(nodes) && forall i :: 0 <= i < |nodes| ==> nodes[i].id != ""
    ensures GraphOf(nodes, g) && ValidGraph(g)
  {
    g := map[];
    for i := 0 to |nodes|
      invariant forall k :: 0 <= k < i ==> nodes[k].id in g && g[nodes[k].id] == nodes[k]
      invariant forall id :: id in g ==> Mentions(nodes, id) && g[id].id == id && id != ""
    {
      assert Mentions(nodes, nodes[i].id);
      g := g[nodes[i].id := nodes[i]];
    }
  }

  lemma NothingVisited(g: Graph, keep: set<string>)
    ensures Visited(g, keep, map[], {}, []) && Finished(g, {}, {})
  {
  }

  lemma RootIsCallable(g: Graph, keep: set<string>, fold: Folding, visited: set<string>, id: string)
    requires id in g && g[id].parent !in g
    ensures Callable(g, keep, fold, visited, id, "")
  {
  }

  lemma VisitedShows(g: Graph, keep: set<string>, fold: Folding, visited: set<string>, out: seq<Node>)
    requires Visited(g, keep, fold, visited, out)
    ensures Shows(g, fold, visited, out) && RunsOk(g, keep, fold) && fold.Keys <= visited <= g.Keys
    ensures forall a, b, c :: Triple(g, keep, a, b, c) && a in visited ==> FoldedTogether(fold, a, b, c)
  {
  }

  /** A node no root leads to is shown unchanged. */
  lemma LeftOver(g: Graph, fold: Folding, visited: set<string>, shown: set<string>, out: seq<Node>, n: Node)
    requires ValidGraph(g) && FreshRunIds(g) && Shows(g, fold, shown, out) && fold.Keys <= visited <= shown <= g.Keys
    requires Finished(g, {}, visited) && n.id in g && g[n.id] == n && n.id !in shown
    ensures Shows(g, fold, shown + {n.id}, out + [n])
  {
    assert n.parent in g ==> IsChild(g, n.id, n.parent);
    assert n == n.(parent := ShownParent(g, fold, n.id));
    GrowShows(g, fold, shown, out, fold, shown + {n.id}, n);
    MentionsLast(out, n);
  }

  lemma AllShown(nodes: seq<Node>, g: Graph, shown: set<string>)
    requires GraphOf(nodes, g) && shown <= g.Keys && forall k :: 0 <= k < |nodes| ==> nodes[k].id in shown
    ensures shown == g.Keys
  {
  }

  // ---- what the contraction keeps ----

  /** A structural node, or one with siblings, survives. */
  lemma StructuralSurvives(g: Graph, keep: set<string>, fold: Folding, reached: set<string>, out: seq<Node>, id: string)
    requires Contracts(g, keep, fold, reached, out) && id in g
    requires Structural(g[id], keep) || !OnlyChild(g, id)
    ensures Mentions(out, id)
  {
    assert id !in fold;
  }

  /** No output node hangs off something that is not in the output, unless it was so in the input. */
  lemma ParentsAreShown(g: Graph, keep: set<string>, fold: Folding, reached: set<string>, out: seq<Node>, i: nat)
    requires ValidGraph(g) && FreshRunIds(g) && Contracts(g, keep, fold, reached, out) && i < |out|
    ensures Mentions(out, out[i].parent) || (out[i].id in g && g[out[i].id].parent !in g && out[i] == g[out[i].id])
  {
    var o := out[i];
    assert ShownOk(g, fold, g.Keys, o);
    if o.id in g && o.id !in fold {
      var p := g[o.id].parent;
      if p in g && p in fold { assert Mentions(out, RunId(fold[p])); }
    } else {
      var h :| h in fold && h in g && fold[h] == h && o.id == RunId(h) && o.parent == g[h].parent &&
        FoldFrom(g, fold, o, h);
      assert Linear(g, keep, h);
    }
  }

  /** In a forest every node is reached, so every stretch of three linear nodes is folded. */
  ghost predicate Ranked(g: Graph, rank: map<string, nat>) {
    forall c, p :: IsChild(g, c, p) ==> c in rank && p in rank && rank[p] < rank[c]
  }

  lemma {:induction false} ForestIsReached(g: Graph, reached: set<string>, rank: map<string, nat>, id: string)
    requires Ranked(g, rank) && Finished(g, {}, reached) && (forall r :: IsRoot(g, r) ==> r in reached) && id in g
    ensures id in reached
    decreases if id in rank then rank[id] else 0
  {
    if g[id].parent in g {
      assert IsChild(g, id, g[id].parent);
      ForestIsReached(g, reached, rank, g[id].parent);
    } else {
      assert IsRoot(g, id);
    }
  }

  /** The ancestor `k` links up, inside the graph. */
  function Up(g: Graph, b: string, k: nat): Option<string>
    decreases k
  {
    if b !in g then None else if k == 0 then Some(b) else Up(g, g[b].parent, k - 1)
  }

  /** `a` is `b` or an ancestor of it. */
  ghost predicate Above(g: Graph, a: string, b: string) {
    exists k: nat :: Up(g, b, k) == Some(a)
  }

  lemma AboveParent(g: Graph, a: string, b: string)
    requires b in g && Above(g, a, g[b].parent)
    ensures Above(g, a, b)
  {
    var k: nat :| Up(g, g[b].parent, k) == Some(a);
    assert Up(g, b, k + 1) == Some(a);
  }

  lemma AboveItself(g: Graph, a: string)
    requires a in g
    ensures Above(g, a, a)
  {
    assert Up(g, a, 0) == Some(a);
  }

  lemma {:induction false} AboveTransitive(g: Graph, a: string, b: string, c: string, k: nat)
    requires Above(g, a, b) && Up(g, c, k) == Some(b)
    ensures Above(g, a, c)
    decreases k
  {
    if k == 0 {
    } else {
      AboveTransitive(g, a, b, g[c].parent, k - 1);
      AboveParent(g, a, c);
    }
  }

  /** What stands for a node in the output is in the output, under what stands for its parent. */
  lemma RepInOutput(g: Graph, keep: set<string>, fold: Folding, reached: set<string>, out: seq<Node>, h: Graph,
                    x: string)
    requires ValidGraph(g) && FreshRunIds(g) && Contracts(g, keep, fold, reached, out) && GraphOf(out, h) && x in g
    ensures Rep(fold, x) in h
    ensures g[x].parent in g ==>
      Rep(fold, x) == Rep(fold, g[x].parent) || h[Rep(fold, x)].parent == Rep(fold, g[x].parent)
    ensures g[x].parent !in g ==> h[Rep(fold, x)].parent == g[x].parent
  {
    hide Linear, FoldFrom;
    var y := Rep(fold, x);
    if x in fold { assert Mentions(out, RunId(fold[x])); } else { assert Mentions(out, x); }
    var i :| 0 <= i < |out| && out[i].id == y;
    assert ShownOk(g, fold, g.Keys, out[i]);
    if x in fold {
      LinearHasParent(g, keep, x);
      var r :| r in fold && r in g && fold[r] == r && out[i].id == RunId(r) && out[i].parent == g[r].parent &&
        FoldFrom(g, fold, out[i], r);
      RunIdInjective(r, fold[x]);
    }
  }

  lemma {:induction false} AncestorsStayAbove(g: Graph, keep: set<string>, fold: Folding, reached: set<string>,
                                              out: seq<Node>,
                                              h: Graph, a: string, x: string, k: nat)
    requires ValidGraph(g) && FreshRunIds(g) && Contracts(g, keep, fold, reached, out) && GraphOf(out, h)
    requires a !in fold && Up(g, x, k) == Some(a)
    ensures Above(h, a, Rep(fold, x))
    decreases k
  {
    hide Contracts, FreshRunIds;
    RepInOutput(g, keep, fold, reached, out, h, x);
    if k == 0 {
      AboveItself(h, a);
    } else {
      AncestorsStayAbove(g, keep, fold, reached, out, h, a, g[x].parent, k - 1);
      if Rep(fold, x) != Rep(fold, g[x].parent) { AboveParent(h, a, Rep(fold, x)); }
    }
  }

  /** Inside a run the first node is above the others. */
  lemma {:induction false} HeadIsAbove(g: Graph, keep: set<string>, fold: Folding, rank: map<string, nat>, x: string)
    requires RunsOk(g, keep, fold) && Ranked(g, rank) && x in fold
    ensures Above(g, fold[x], x)
    decreases if x in rank then rank[x] else 0
  {
    LinearHasParent(g, keep, x);
    if fold[x] == x {
      AboveItself(g, x);
    } else {
      assert IsChild(g, x, g[x].parent);
      HeadIsAbove(g, keep, fold, rank, g[x].parent);
      AboveParent(g, fold[x], x);
    }
  }

  lemma {:induction false} NothingNewIsAbove(g: Graph, keep: set<string>, fold: Folding, reached: set<string>,
                                             out: seq<Node>,
                                             h: Graph, rank: map<string, nat>, a: string, x: string, k: nat)
    requires ValidGraph(g) && FreshRunIds(g) && Contracts(g, keep, fold, reached, out) && GraphOf(out, h)
    requires Ranked(g, rank)
    requires a in g && a !in fold && x in g && Up(h, Rep(fold, x), k) == Some(a)
    ensures Above(g, a, x)
    decreases k
  {
    hide FreshRunIds, Linear, LongRun, Shows, Finished, Triple, GraphOf, ValidGraph;
    assert RunsOk(g, keep, fold);
    var top := if x in fold then fold[x] else x;
    if x in fold { HeadIsAbove(g, keep, fold, rank, x); } else { AboveItself(g, x); }
    RepInOutput(g, keep, fold, reached, out, h, top);
    if k == 0 {
      RepIsKept(g, fold, x, a);
      AboveItself(g, a);
    } else {
      TopHasParent(g, keep, fold, reached, out, h, rank, top, k);
      NothingNewIsAbove(g, keep, fold, reached, out, h, rank, a, g[top].parent, k - 1);
      AboveParent(g, a, top);
      var j: nat :| Up(g, x, j) == Some(top);
      AboveTransitive(g, a, top, x, j);
    }
  }

  lemma RepIsKept(g: Graph, fold: Folding, x: string, a: string)
    requires FreshRunIds(g) && a in g && x in g && Rep(fold, x) == a && (x in fold ==> fold[x] in g)
    ensures x == a
  {
  }

  /** A node whose stand-in has a parent in the output has one in the input. */
  lemma TopHasParent(g: Graph, keep: set<string>, fold: Folding, reached: set<string>, out: seq<Node>, h: Graph,
                     rank: map<string, nat>, top: string, k: nat)
    requires ValidGraph(g) && FreshRunIds(g) && Contracts(g, keep, fold, reached, out) && GraphOf(out, h) && k > 0
    requires Ranked(g, rank) && top in g && (top in fold ==> fold[top] == top) && Up(h, Rep(fold, top), k).Some?
    ensures g[top].parent in g && h[Rep(fold, top)].parent == Rep(fold, g[top].parent)
  {
    hide Linear, FoldFrom, Shows, FreshRunIds, LongRun;
    RepInOutput(g, keep, fold, reached, out, h, top);
    var q := h[Rep(fold, top)].parent;
    assert Up(h, q, k - 1).Some?;
    assert q in h;
    if g[top].parent in g {
      assert IsChild(g, top, g[top].parent);
      RepsDiffer(g, keep, fold, top);
    } else {
      DanglingIsNotShown(g, fold, out, h, top);
    }
  }

  lemma DanglingIsNotShown(g: Graph, fold: Folding, out: seq<Node>, h: Graph, x: string)
    requires FreshRunIds(g) && Shows(g, fold, g.Keys, out) && GraphOf(out, h) && x in g && g[x].parent !in g
    ensures g[x].parent !in h
  {
    var p := g[x].parent;
    forall i | 0 <= i < |out| ensures out[i].id != p {
      assert ShownOk(g, fold, g.Keys, out[i]);
    }
  }

  lemma RepsDiffer(g: Graph, keep: set<string>, fold: Folding, top: string)
    requires ValidGraph(g) && FreshRunIds(g) && RunsOk(g, keep, fold) && top in g && (top in fold ==> fold[top] == top)
    requires g[top].parent in g && g[top].parent != top
    ensures Rep(fold, top) != Rep(fold, g[top].parent)
  {
  }

  /** Between surviving nodes of a forest, being an ancestor is what it was before. */
  lemma AncestryIsUnchanged(g: Graph, keep: set<string>, fold: Folding, reached: set<string>, out: seq<Node>, h: Graph,
                            rank: map<string, nat>, a: string, b: string)
    requires ValidGraph(g) && FreshRunIds(g) && Contracts(g, keep, fold, reached, out) && GraphOf(out, h)
    requires Ranked(g, rank)
    requires a in g && a !in fold && b in g && b !in fold
    ensures Above(h, a, b) <==> Above(g, a, b)
  {
    if Above(g, a, b) {
      var k: nat :| Up(g, b, k) == Some(a);
      AncestorsStayAbove(g, keep, fold, reached, out, h, a, b, k);
    }
    if Above(h, a, b) {
      var k: nat :| Up(h, b, k) == Some(a);
      NothingNewIsAbove(g, keep, fold, reached, out, h, rank, a, b, k);
    }
  }

  /** In a forest a node is folded exactly when it lies in a run with three linear nodes in a row, and such
      three are always folded together. */
  lemma FoldedExactly(g: Graph, keep: set<string>, fold: Folding, reached: set<string>, out: seq<Node>,
                      rank: map<string, nat>)
    requires ValidGraph(g) && Contracts(g, keep, fold, reached, out) && Ranked(g, rank)
    ensures forall a, b, c :: Triple(g, keep, a, b, c) ==> FoldedTogether(fold, a, b, c)
    ensures forall x :: x in fold ==> Linear(g, keep, x) && LongRun(g, keep, fold, fold[x])
  {
    hide Linear, LongRun, Shows;
    forall a, b, c | Triple(g, keep, a, b, c) ensures FoldedTogether(fold, a, b, c) {
      assert a in g by { TripleInGraph(g, keep, a, b, c); }
      ForestIsReached(g, reached, rank, a);
    }
  }

  lemma TripleInGraph(g: Graph, keep: set<string>, a: string, b: string, c: string)
    requires Triple(g, keep, a, b, c)
    ensures a in g && b in g && c in g
  {
  }

  /** A node is either shown once under its own id or folded, never both and never neither. */
  lemma ShownOrFolded(g: Graph, keep: set<string>, fold: Folding, reached: set<string>, out: seq<Node>, x: string)
    requires ValidGraph(g) && FreshRunIds(g) && Contracts(g, keep, fold, reached, out) && x in g
    ensures Mentions(out, x) <==> x !in fold
    ensures x in fold ==> fold[x] in g && Mentions(out, RunId(fold[x]))
    ensures DistinctIds(out)
  {
    if x in fold {
      assert Linear(g, keep, fold[x]);
      forall i | 0 <= i < |out| ensures out[i].id != x {
        assert ShownOk(g, fold, g.Keys, out[i]);
      }
    }
  }

  lemma ShownIdsAreNamed(g: Graph, fold: Folding, out: seq<Node>)
    requires ValidGraph(g) && Shows(g, fold, g.Keys, out)
    ensures forall i :: 0 <= i < |out| ==> out[i].id != ""
  {
    hide FoldFrom;
    forall i | 0 <= i < |out| ensures out[i].id != "" {
      assert ShownOk(g, fold, g.Keys, out[i]);
      if !(out[i].id in g) {
        var h :| h in fold && out[i].id == RunId(h);
        assert |RunId(h)| >= 4;
      }
    }
  }

  /** For any graph and its collapsed form: a node that both show is above another in the one exactly when it is in the
      other. */
  lemma ContractionKeepsAncestry(nodes: seq<Node>, keep: set<string>, out: seq<Node>, rank: map<string, nat>,
                                 a: string, b: string)
    requires DistinctIds(nodes) && RunIdsFree(nodes) && forall i :: 0 <= i < |nodes| ==> nodes[i].id != ""
    requires Contraction(nodes, keep, out) && Ranked(GraphFrom(nodes), rank)
    requires Mentions(nodes, a) && Mentions(out, a) && Mentions(nodes, b) && Mentions(out, b)
    ensures Above(GraphFrom(out), a, b) <==> Above(GraphFrom(nodes), a, b)
  {
    hide Contracts, GraphFrom, Ranked, Above, Shows, FreshRunIds, ValidGraph;
    var g := GraphFrom(nodes);
    GraphFromIs(nodes);
    RunIdsAreFresh(nodes, g);
    var fold, reached :| Contracts(g, keep, fold, reached, out);
    ContractsShows(g, keep, fold, reached, out);
    ShownIdsAreNamed(g, fold, out);
    ShownOrFolded(g, keep, fold, reached, out, a);
    ShownOrFolded(g, keep, fold, reached, out, b);
    GraphFromIs(out);
    AncestryIsUnchanged(g, keep, fold, reached, out, GraphFrom(out), rank, a, b);
  }

  lemma ContractsShows(g: Graph, keep: set<string>, fold: Folding, reached: set<string>, out: seq<Node>)
    requires Contracts(g, keep, fold, reached, out)
    ensures Shows(g, fold, g.Keys, out)
  {
  }
}
