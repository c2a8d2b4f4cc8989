/**
 * In-place rewind of a session file (backend/live-sessions/session-discard.ts).
 *
 * A session is a header and a list of entries that form a tree through parent ids; the last
 * entry is where the agent resumes. A discard removes everything below a user message, a
 * withdrawal removes the message as well.
 */
module SessionDiscard {
  import opened Wrappers

  datatype Parent = NoParent | BadParent | Parent(id: string)

  /** `id` is empty when the record has no usable id; `body` stands for everything else it holds. */
  datatype Entry = Entry(session: bool, id: string, parent: Parent, user: bool, body: string)

  datatype Plan = Plan(content: seq<Entry>, deletedEntries: int, removedEntries: int)

  // ---- reading the tree ----

  predicate UniqueIds(entries: seq<Entry>) {
    && (forall i :: 0 <= i < |entries| ==> entries[i].id != "")
    && (forall i, j :: 0 <= i < j < |entries| ==> entries[i].id != entries[j].id)
  }

  ghost predicate Indexes(byId: map<string, Entry>, entries: seq<Entry>) {
    && (forall i :: 0 <= i < |entries| ==> entries[i].id in byId && byId[entries[i].id] == entries[i])
    && (forall id :: id in byId ==> byId[id] in entries && byId[id].id == id)
  }

  function ById(entries: seq<Entry>): (m: map<string, Entry>) {
    if entries == [] then map[] else ById(entries[..|entries| - 1])[entries[|entries| - 1].id := entries[|entries| - 1]]
  }

  lemma {:induction false} ByIdIndexes(entries: seq<Entry>)
    requires UniqueIds(entries)
    ensures Indexes(ById(entries), entries)
    decreases |entries|
  {
    if entries == [] {
    } else {
      var init := entries[..|entries| - 1];
      ByIdIndexes(init);
      forall i | 0 <= i < |entries| ensures entries[i].id in ById(entries) &&
        ById(entries)[entries[i].id] == entries[i] {
        if i < |init| { assert init[i] == entries[i]; }
      }
    }
  }

  /** The branch from `cur` to its root, or why there is none. */
  function Branch(byId: map<string, Entry>, cur: Entry, seen: set<string>): Result<seq<Entry>, string>
    requires cur.id in byId.Keys && seen <= byId.Keys
    requires forall id :: id in byId ==> byId[id].id == id
    decreases byId.Keys - seen
  {
    if cur.id in seen then Err("session branch contains a cycle")
    else match cur.parent
      case NoParent => Ok([cur])
      case BadParent => Err("session entry has an invalid parent id")
      case Parent(p) =>
        if p !in byId then Err("session branch references a missing parent")
        else match Branch(byId, byId[p], seen + {cur.id})
          case Err(e) => Err(e)
          case Ok(rest) => Ok([cur] + rest)
  }

  function ActiveBranch(entries: seq<Entry>): Result<seq<Entry>, string>
    requires UniqueIds(entries)
  {
    if entries == [] then Ok([]) else
      ByIdIndexes(entries);
      Branch(ById(entries), entries[|entries| - 1], {})
  }

  /** An entry's parent link, read downwards. */
  ghost predicate Child(entries: seq<Entry>, p: string, c: string) {
    exists i :: 0 <= i < |entries| && entries[i].id == c && entries[i].parent == Parent(p)
  }

  ghost predicate ChildPath(entries: seq<Entry>, path: seq<string>) {
    path != [] && forall i, j :: 0 <= i < j < |path| && j == i + 1 ==> Child(entries, path[i], path[j])
  }

  /** `id` is reached from `root` through child links. */
  ghost predicate Below(entries: seq<Entry>, root: string, id: string) {
    exists path :: ChildPath(entries, path) && path[0] == root && path[|path| - 1] == id
  }

  ghost function Descendants(entries: seq<Entry>, root: string): set<string> {
    set i | 0 <= i < |entries| && Below(entries, root, entries[i].id) :: entries[i].id
  }

  function Without(entries: seq<Entry>, removed: set<string>): seq<Entry> {
    if entries == [] then []
    else Without(entries[..|entries| - 1], removed) +
         (if entries[|entries| - 1].id in removed then [] else [entries[|entries| - 1]])
  }

  function FirstUser(branch: seq<Entry>): Option<Entry> {
    if branch == [] then None else if branch[0].user then Some(branch[0]) else FirstUser(branch[1..])
  }

  predicate Whitespace(c: char) {
    c in {'\U{0009}', '\U{000A}', '\U{000B}', '\U{000C}', '\U{000D}', '\U{0020}', '\U{00A0}', '\U{1680}', '\U{2028}',
          '\U{2029}',
          '\U{202F}', '\U{205F}', '\U{3000}', '\U{FEFF}'} || '\U{2000}' <= c <= '\U{200A}'
  }

  predicate Blank(s: string) {
    forall i :: 0 <= i < |s| ==> Whitespace(s[i])
  }

  predicate OnBranch(branch: seq<Entry>, id: string) {
    exists i :: 0 <= i < |branch| && branch[i].id == id
  }

  // ---- the rewrite ----

  /** The retained entries, the one to resume from last; None where the root has other branches. */
  function Retained(entries: seq<Entry>, target: Entry, removed: set<string>,
                    removeSelected: bool): Option<seq<Entry>> {
    var kept := Without(entries, removed);
    if !removeSelected then Some(kept + [target])
    else match target.parent
      case Parent(p) => if p in ById(entries) then Some(Without(kept, {p}) + [ById(entries)[p]]) else None
      case _ => if kept == [] then Some([]) else None
  }

  /** The whole decision of `prepareSessionRewrite`, in the order of its checks. */
  ghost function Rewrite(records: seq<Entry>, entryId: string, removeSelected: bool): Result<Plan, string> {
    if Blank(entryId) then Err("invalid_entry_id")
    else if records == [] || !records[0].session ||
         (exists i :: 0 < i < |records| && records[i].session) then Err("session_file_invalid")
    else if !UniqueIds(records[1..]) then Err("session_file_invalid")
    else
      var entries := records[1..];
      if entryId !in ById(entries) then Err("session_entry_not_found")
      else
        var target := ById(entries)[entryId];
        var branch := ActiveBranch(entries);
        if !target.user then Err("entry_not_user_message")
        else if branch.Err? then Err("session_file_invalid")
        else if !OnBranch(branch.value, entryId) then Err("entry_not_on_active_branch")
        else if removeSelected && FirstUser(branch.value) != Some(target) then Err("not_latest_user_message")
        else
          var removed := Descendants(entries, entryId);
          if !removeSelected && |removed| == 1 then Err("nothing_to_discard")
          else match Retained(entries, target, removed, removeSelected)
            case None => Err("rewind_root_has_other_branches")
            case Some(kept) =>
              Ok(Plan([records[0]] + kept, |removed| - 1, if removeSelected then |removed| else |removed| - 1))
  }

  lemma UniqueAppend(init: seq<Entry>, e: Entry)
    requires UniqueIds(init)
    ensures UniqueIds(init + [e]) <==> e.id != "" && forall k :: 0 <= k < |init| ==> init[k].id != e.id
  {
    var all := init + [e];
    assert all[|init|] == e;
    if UniqueIds(all) {
      forall k | 0 <= k < |init| ensures init[k].id != e.id { assert all[k].id != all[|init|].id; }
    }
  }

  lemma InIndex(entries: seq<Entry>, id: string)
    requires UniqueIds(entries)
    ensures id in ById(entries) <==> exists k :: 0 <= k < |entries| && entries[k].id == id
  {
    ByIdIndexes(entries);
  }

  lemma UniqueStep(entries: seq<Entry>, i: nat)
    requires i < |entries| && UniqueIds(entries[..i])
    ensures UniqueIds(entries[..i + 1]) <==> entries[i].id != "" && entries[i].id !in ById(entries[..i])
    ensures ById(entries[..i + 1]) == ById(entries[..i])[entries[i].id := entries[i]]
  {
    assert entries[..i + 1] == entries[..i] + [entries[i]];
    assert entries[..i + 1][..i] == entries[..i];
    UniqueAppend(entries[..i], entries[i]);
    InIndex(entries[..i], entries[i].id);
  }

  lemma UniquePrefix(entries: seq<Entry>, i: nat)
    requires i <= |entries| && UniqueIds(entries)
    ensures UniqueIds(entries[..i])
  {
  }

  method IndexEntries(entries: seq<Entry>) returns (byId: Option<map<string, Entry>>)
    ensures byId.Some? <==> UniqueIds(entries)
    ensures byId.Some? ==> byId.value == ById(entries)
  {
    hide UniqueIds, ById;
    var m: map<string, Entry> := map[];
    EmptyIndex();
    assert entries[..0] == [];
    for i := 0 to |entries|
      invariant UniqueIds(entries[..i]) && m == ById(entries[..i])
    {
      UniqueStep(entries, i);
      if entries[i].id == "" || entries[i].id in m {
        if UniqueIds(entries) { UniquePrefix(entries, i + 1); }
        return None;
      }
      m := m[entries[i].id := entries[i]];
    }
    assert entries[..|entries|] == entries;
    return Some(m);
  }

  lemma EmptyIndex()
    ensures UniqueIds([]) && ById([]) == map[]
  {
  }

  method ChildrenOf(entries: seq<Entry>) returns (children: map<string, seq<Entry>>)
    ensures forall p :: p in children ==> forall i :: 0 <= i < |children[p]| ==>
              children[p][i] in entries && children[p][i].parent == Parent(p)
    ensures forall i :: 0 <= i < |entries| && entries[i].parent.Parent? ==>
              entries[i].parent.id in children && entries[i] in children[entries[i].parent.id]
  {
    children := map[];
    for i := 0 to |entries|
      invariant forall p :: p in children ==> forall j :: 0 <= j < |children[p]| ==>
                  children[p][j] in entries && children[p][j].parent == Parent(p)
      invariant forall j :: 0 <= j < i && entries[j].parent.Parent? ==>
                  entries[j].parent.id in children && entries[j] in children[entries[j].parent.id]
    {
      if entries[i].parent.Parent? {
        var p := entries[i].parent.id;
        var siblings := (if p in children then children[p] else []) + [entries[i]];
        assert entries[i] == siblings[|siblings| - 1];
        children := children[p := siblings];
      }
    }
  }

  /** The active branch, walked from the last entry; `seen` guards against a cycle. */
  method WalkActiveBranch(entries: seq<Entry>, byId: map<string, Entry>) returns (r: Result<seq<Entry>, string>)
    requires UniqueIds(entries) && byId == ById(entries)
    ensures r == ActiveBranch(entries)
  {
    if entries == [] { return Ok([]); }
    ByIdIndexes(entries);
    var seen: set<string> := {};
    var branch: seq<Entry> := [];
    var cursor := entries[|entries| - 1];
    ghost var whole := ActiveBranch(entries);
    PrefixedNothing(whole);
    while true
      invariant cursor.id in byId.Keys && seen <= byId.Keys
      invariant whole == Prefixed(branch, Branch(byId, cursor, seen))
      decreases byId.Keys - seen
    {
      if cursor.id in seen { return Err("session branch contains a cycle"); }
      ghost var before := seen;
      seen := seen + {cursor.id};
      branch := branch + [cursor];
      match cursor.parent
      case NoParent => return Ok(branch);
      case BadParent => return Err("session entry has an invalid parent id");
      case Parent(p) =>
        if p !in byId { return Err("session branch references a missing parent"); }
        PrefixedStep(branch[..|branch| - 1], cursor, Branch(byId, byId[p], seen));
        cursor := byId[p];
    }
  }

  ghost function Prefixed(done: seq<Entry>, rest: Result<seq<Entry>, string>): Result<seq<Entry>, string> {
    if rest.Ok? then Ok(done + rest.value) else rest
  }

  lemma PrefixedNothing(rest: Result<seq<Entry>, string>)
    ensures Prefixed([], rest) == rest
  {
    if rest.Ok? { assert [] + rest.value == rest.value; }
  }

  lemma PrefixedStep(done: seq<Entry>, cur: Entry, rest: Result<seq<Entry>, string>)
    ensures Prefixed(done + [cur], rest) == Prefixed(done, Prefixed([cur], rest))
  {
    if rest.Ok? { AppendAssoc(done, cur, rest.value); }
  }

  lemma BelowStep(entries: seq<Entry>, root: string, p: string, c: string)
    requires Below(entries, root, p) && Child(entries, p, c)
    ensures Below(entries, root, c)
  {
    var path :| ChildPath(entries, path) && path[0] == root && path[|path| - 1] == p;
    var longer := path + [c];
    forall i, j | 0 <= i < j < |longer| && j == i + 1 ensures Child(entries, longer[i], longer[j]) {
      assert longer[i] == path[i];
      if j < |path| { assert longer[j] == path[j]; }
    }
    assert ChildPath(entries, longer) && longer[0] == root && longer[|longer| - 1] == c;
  }

  lemma {:induction false} ClosedHoldsPath(entries: seq<Entry>, d: set<string>, path: seq<string>, k: nat)
    requires ChildPath(entries, path) && path[0] in d && k < |path|
    requires forall i :: 0 <= i < |entries| && entries[i].parent.Parent? && entries[i].parent.id in d ==>
      entries[i].id in d
    ensures path[k] in d
  {
    if k == 0 {
    } else {
      ClosedHoldsPath(entries, d, path, k - 1);
      assert Child(entries, path[k - 1], path[k]);
    }
  }

  /** A set that holds the root, is closed under child links and has nothing else is the set of descendants. */
  lemma ClosureIsDescendants(entries: seq<Entry>, root: string, d: set<string>)
    requires root in d && (exists i :: 0 <= i < |entries| && entries[i].id == root)
    requires forall id :: id in d ==> Below(entries, root, id) && exists i :: 0 <= i < |entries| && entries[i].id == id
    requires forall i :: 0 <= i < |entries| && entries[i].parent.Parent? && entries[i].parent.id in d ==>
      entries[i].id in d
    ensures d == Descendants(entries, root)
  {
    forall id | id in Descendants(entries, root) ensures id in d {
      var path :| ChildPath(entries, path) && path[0] == root && path[|path| - 1] == id;
      ClosedHoldsPath(entries, d, path, |path| - 1);
    }
    forall id | id in d ensures id in Descendants(entries, root) {
      var i :| 0 <= i < |entries| && entries[i].id == id;
    }
  }

  /** Every child link out of a discarded entry, other than those of queued ones, has been followed. */
  ghost predicate Explored(entries: seq<Entry>, discarded: set<string>, queue: seq<string>) {
    forall i :: 0 <= i < |entries| && entries[i].parent.Parent? && entries[i].parent.id in discarded ==>
      entries[i].id in discarded || entries[i].parent.id in queue
  }

  ghost predicate AllBelow(entries: seq<Entry>, root: string, discarded: set<string>) {
    forall id :: id in discarded ==> Below(entries, root, id) && exists i :: 0 <= i < |entries| && entries[i].id == id
  }

  /** Discard the children of one entry and queue those that are new. */
  method VisitChildren(entries: seq<Entry>, ghost root: string, ghost parent: string, kids: seq<Entry>,
                       before: set<string>, tail: seq<string>)
    returns (discarded: set<string>, queue: seq<string>)
    requires UniqueIds(entries) && parent in before && AllBelow(entries, root, before)
    requires forall j :: 0 <= j < |kids| ==> kids[j] in entries && kids[j].parent == Parent(parent)
    requires forall j :: 0 <= j < |tail| ==> tail[j] in before
    ensures before <= discarded && AllBelow(entries, root, discarded)
    ensures tail <= queue && (discarded == before ==> queue == tail)
    ensures forall j :: 0 <= j < |queue| ==> queue[j] in discarded
    ensures forall id :: id in discarded && id !in before ==> id in queue
    ensures forall j :: 0 <= j < |kids| ==> kids[j].id in discarded
  {
    discarded, queue := before, tail;
    for k := 0 to |kids|
      invariant before <= discarded && AllBelow(entries, root, discarded)
      invariant tail <= queue && (discarded == before ==> queue == tail)
      invariant forall j :: 0 <= j < |queue| ==> queue[j] in discarded
      invariant forall id :: id in discarded && id !in before ==> id in queue
      invariant forall j :: 0 <= j < k ==> kids[j].id in discarded
    {
      var child := kids[k];
      var i :| 0 <= i < |entries| && entries[i] == child;
      if child.id != "" && child.id !in discarded {
        assert Child(entries, parent, child.id);
        BelowStep(entries, root, parent, child.id);
        discarded := discarded + {child.id};
        queue := queue + [child.id];
      }
    }
  }

  /** Breadth-first search over child links. */
  method CollectDiscarded(entries: seq<Entry>, entryId: string) returns (discarded: set<string>)
    requires UniqueIds(entries) && exists i :: 0 <= i < |entries| && entries[i].id == entryId
    ensures discarded == Descendants(entries, entryId)
  {
    hide UniqueIds, Below;
    var children := ChildrenOf(entries);
    discarded := {entryId};
    var queue := [entryId];
    ghost var ids := set i | 0 <= i < |entries| :: entries[i].id;
    BelowItself(entries, entryId);
    while queue != []
      invariant entryId in discarded && discarded <= ids && AllBelow(entries, entryId, discarded)
      invariant forall k :: 0 <= k < |queue| ==> queue[k] in discarded
      invariant Explored(entries, discarded, queue)
      decreases ids - discarded, |queue|
    {
      var parent := queue[0];
      var kids := if parent in children then children[parent] else [];
      ghost var before, tail := discarded, queue[1..];
      discarded, queue := VisitChildren(entries, entryId, parent, kids, discarded, queue[1..]);
      assert discarded <= ids;
      ExploredStep(entries, before, [parent] + tail, discarded, queue, kids, parent);
    }
    ClosureIsDescendants(entries, entryId, discarded);
  }

  lemma BelowItself(entries: seq<Entry>, root: string)
    ensures Below(entries, root, root)
  {
    var path := [root];
    assert ChildPath(entries, path) && path[0] == root && path[|path| - 1] == root;
  }

  lemma ExploredStep(entries: seq<Entry>, before: set<string>, pending: seq<string>, discarded: set<string>,
                     queue: seq<string>, kids: seq<Entry>, parent: string)
    requires pending != [] && pending[0] == parent && Explored(entries, before, pending)
    requires before <= discarded && pending[1..] <= queue
    requires forall id :: id in discarded && id !in before ==> id in queue
    requires forall j :: 0 <= j < |kids| ==> kids[j].id in discarded
    requires forall i :: 0 <= i < |entries| && entries[i].parent == Parent(parent) ==> entries[i] in kids
    ensures Explored(entries, discarded, queue)
  {
    forall i | 0 <= i < |entries| && entries[i].parent.Parent? && entries[i].parent.id in discarded
      ensures entries[i].id in discarded || entries[i].parent.id in queue
    {
      var p := entries[i].parent.id;
      if p == parent {
        assert entries[i] in kids;
      } else if p in before && p in pending {
        var k :| 0 <= k < |pending| && pending[k] == p;
        assert pending[1..][k - 1] == p && queue[k - 1] == p;
      }
    }
  }

  method FilterOut(entries: seq<Entry>, removed: set<string>) returns (kept: seq<Entry>)
    ensures kept == Without(entries, removed)
  {
    kept := [];
    for i := 0 to |entries|
      invariant kept == Without(entries[..i], removed)
    {
      assert entries[..i + 1][..i] == entries[..i];
      if entries[i].id !in removed { kept := kept + [entries[i]]; }
    }
    assert entries[..|entries|] == entries;
  }

  method BuildRetained(entries: seq<Entry>, byId: map<string, Entry>, target: Entry, discarded: set<string>,
                       removeSelected: bool)
    returns (r: Option<seq<Entry>>)
    requires byId == ById(entries)
    ensures r == Retained(entries, target, discarded, removeSelected)
  {
    var kept := FilterOut(entries, discarded);
    if removeSelected {
      match target.parent
      case Parent(p) =>
        if p !in byId { return None; }
        kept := FilterOut(kept, {p});
        kept := kept + [byId[p]];
      case _ =>
        if kept != [] { return None; }
    } else {
      // The agent resumes from the selected message without running it again.
      kept := kept + [target];
    }
    return Some(kept);
  }

  method PrepareRewrite(records: seq<Entry>, entryId: string, removeSelected: bool) returns (r: Result<Plan, string>)
    ensures r == Rewrite(records, entryId, removeSelected)
  {
    hide Descendants, ActiveBranch, ById, UniqueIds, Retained, FirstUser, OnBranch, Blank;
    if Blank(entryId) { return Err("invalid_entry_id"); }
    if records == [] || !records[0].session || (exists i :: 0 < i < |records| && records[i].session) {
      return Err("session_file_invalid");
    }
    var entries := records[1..];
    var index := IndexEntries(entries);
    if index.None? { return Err("session_file_invalid"); }
    var byId := index.value;
    if entryId !in byId { return Err("session_entry_not_found"); }
    var target := byId[entryId];
    if !target.user { return Err("entry_not_user_message"); }
    var branch := WalkActiveBranch(entries, byId);
    if branch.Err? { return Err("session_file_invalid"); }
    if !OnBranch(branch.value, entryId) { return Err("entry_not_on_active_branch"); }
    if removeSelected && FirstUser(branch.value) != Some(target) { return Err("not_latest_user_message"); }
    InIndex(entries, entryId);
    var discarded := CollectDiscarded(entries, entryId);
    var deletedEntries := |discarded| - 1;
    if !removeSelected && deletedEntries == 0 { return Err("nothing_to_discard"); }
    var kept := BuildRetained(entries, byId, target, discarded, removeSelected);
    if kept.None? { return Err("rewind_root_has_other_branches"); }
    return Ok(Plan([records[0]] + kept.value, deletedEntries, if removeSelected then |discarded| else deletedEntries));
  }

  // ---- what a rewrite keeps and removes ----

  /** A parent chain inside `entries`, from an entry to its root. */
  ghost predicate Chain(entries: seq<Entry>, c: seq<Entry>) {
    && c != [] && c[|c| - 1].parent == NoParent
    && (forall i :: 0 <= i < |c| ==> c[i] in entries)
    && (forall i, j :: 0 <= i < j < |c| && j == i + 1 ==> c[i].parent == Parent(c[j].id))
    && (forall i, j :: 0 <= i < j < |c| ==> c[i].id != c[j].id)
  }

  lemma {:induction false} BranchIsChain(entries: seq<Entry>, cur: Entry, seen: set<string>)
    requires UniqueIds(entries) && cur in entries && Indexes(ById(entries), entries) && seen <= ById(entries).Keys
    ensures var r := Branch(ById(entries), cur, seen);
            r.Ok? ==> Chain(entries, r.value) && r.value[0] == cur && forall i :: 0 <= i < |r.value| ==>
              r.value[i].id !in seen
    decreases ById(entries).Keys - seen
  {
    var byId := ById(entries);
    var r := Branch(byId, cur, seen);
    if r.Ok? && cur.parent.Parent? {
      BranchIsChain(entries, byId[cur.parent.id], seen + {cur.id});
      var rest := Branch(byId, byId[cur.parent.id], seen + {cur.id}).value;
      assert r.value == [cur] + rest;
      forall i, j | 0 <= i < j < |r.value| && j == i + 1 ensures r.value[i].parent == Parent(r.value[j].id) {
        if i > 0 { assert r.value[i] == rest[i - 1] && r.value[j] == rest[j - 1]; }
      }
    }
  }

  lemma {:induction false} ChainIsBranch(entries: seq<Entry>, c: seq<Entry>, k: nat, seen: set<string>)
    requires UniqueIds(entries) && Chain(entries, c) && k < |c| && Indexes(ById(entries), entries)
    requires seen <= ById(entries).Keys && forall i :: k <= i < |c| ==> c[i].id !in seen
    ensures Branch(ById(entries), c[k], seen) == Ok(c[k..])
    decreases |c| - k
  {
    if k + 1 < |c| {
      assert c[k].parent == Parent(c[k + 1].id) && c[k + 1] in entries;
      assert ById(entries)[c[k + 1].id] == c[k + 1];
      ChainIsBranch(entries, c, k + 1, seen + {c[k].id});
      assert c[k..] == [c[k]] + c[k + 1..];
    } else {
      assert c[k..] == [c[k]];
    }
  }

  /** Whatever is below an entry has it on its own way up. */
  lemma {:induction false} BelowMeetsChain(entries: seq<Entry>, c: seq<Entry>, path: seq<string>, j: nat)
    requires UniqueIds(entries) && Chain(entries, c) && ChildPath(entries, path)
    requires j < |c| && path[|path| - 1] == c[j].id
    ensures exists k :: j <= k < |c| && c[k].id == path[0]
    decreases |path|
  {
    var n := |path| - 1;
    if n == 0 {
    } else {
      assert Child(entries, path[n - 1], path[n]);
      var i :| 0 <= i < |entries| && entries[i].id == path[n] && entries[i].parent == Parent(path[n - 1]);
      assert entries[i] == c[j];
      assert j + 1 < |c| && c[j + 1].id == path[n - 1];
      assert ChildPath(entries, path[..n]);
      BelowMeetsChain(entries, c, path[..n], j + 1);
    }
  }

  /** Proper ancestors on a chain are not below its entries. */
  lemma AncestorsStay(entries: seq<Entry>, c: seq<Entry>, i: nat, j: nat)
    requires UniqueIds(entries) && Chain(entries, c) && i < j < |c|
    ensures c[j].id !in Descendants(entries, c[i].id)
  {
    if c[j].id in Descendants(entries, c[i].id) {
      var path :| ChildPath(entries, path) && path[0] == c[i].id && path[|path| - 1] == c[j].id;
      BelowMeetsChain(entries, c, path, j);
    }
  }

  function Ids(entries: seq<Entry>): set<string> {
    if entries == [] then {} else Ids(entries[..|entries| - 1]) + {entries[|entries| - 1].id}
  }

  lemma {:induction false} InIds(entries: seq<Entry>, id: string)
    ensures id in Ids(entries) <==> exists i :: 0 <= i < |entries| && entries[i].id == id
    decreases |entries|
  {
    if entries == [] {
    } else {
      var init := entries[..|entries| - 1];
      InIds(init, id);
      if i :| 0 <= i < |init| && init[i].id == id { assert entries[i].id == id; }
      if i :| 0 <= i < |entries| && entries[i].id == id {
        if i < |init| { assert init[i].id == id; }
      }
    }
  }

  lemma {:induction false} WithoutFacts(entries: seq<Entry>, removed: set<string>)
    requires UniqueIds(entries)
    ensures var kept := Without(entries, removed);
            && UniqueIds(kept) && |kept| + |removed * Ids(entries)| == |entries|
            && forall e :: e in kept <==> e in entries && e.id !in removed
    decreases |entries|
  {
    if entries == [] {
    } else {
      var n := |entries| - 1;
      var init, last := entries[..n], entries[n];
      assert entries == init + [last];
      UniquePrefix(entries, n);
      WithoutFacts(init, removed);
      InIds(init, last.id);
      UniqueAppend(init, last);
      if last.id in removed {
        assert removed * Ids(entries) == removed * Ids(init) + {last.id};
      } else {
        assert removed * Ids(entries) == removed * Ids(init);
        AppendUnique(Without(init, removed), init, last);
      }
    }
  }

  lemma AppendUnique(kept: seq<Entry>, init: seq<Entry>, last: Entry)
    requires UniqueIds(kept) && UniqueIds(init + [last]) && forall e :: e in kept ==> e in init
    ensures UniqueIds(kept + [last])
  {
    assert (init + [last])[|init|].id != "";
    forall k | 0 <= k < |kept| ensures kept[k].id != last.id {
      assert kept[k] in init;
      var i :| 0 <= i < |init| && init[i] == kept[k];
      assert (init + [last])[i].id != (init + [last])[|init|].id;
    }
    UniqueAppend(kept, last);
  }

  /** The rewrite went through: `c` is the active branch, and the selected entry is its `at`-th. */
  ghost predicate Went(records: seq<Entry>, entryId: string, removeSelected: bool, plan: Plan, c: seq<Entry>, at: nat) {
    && Rewrite(records, entryId, removeSelected) == Ok(plan)
    && records != [] && UniqueIds(records[1..]) && Chain(records[1..], c)
    && ActiveBranch(records[1..]) == Ok(c) && at < |c| && c[at].id == entryId
    && entryId in ById(records[1..]) && c[at] == ById(records[1..])[entryId]
  }

  lemma WentFacts(records: seq<Entry>, entryId: string, removeSelected: bool, plan: Plan)
    returns (c: seq<Entry>, at: nat)
    requires Rewrite(records, entryId, removeSelected) == Ok(plan)
    ensures Went(records, entryId, removeSelected, plan, c, at)
  {
    hide Descendants, Retained, FirstUser, Blank;
    var entries := records[1..];
    InIndex(entries, entryId);
    ByIdIndexes(entries);
    c := ActiveBranch(entries).value;
    BranchIsChain(entries, entries[|entries| - 1], {});
    at :| 0 <= at < |c| && c[at].id == entryId;
  }

  /** Members, number and last entry of what is retained after branch place `at`. */
  ghost predicate Keeps(entries: seq<Entry>, c: seq<Entry>, at: nat, removeSelected: bool, retained: seq<Entry>)
    requires at < |c|
  {
    var removed := Descendants(entries, c[at].id);
    var resume := if removeSelected then at + 1 else at;
    && UniqueIds(retained)
    && |retained| + |removed| == |entries| + (if removeSelected then 0 else 1)
    && (forall e :: e in retained <==> e in entries && (e.id !in removed || (!removeSelected && e == c[at])))
    && (if resume < |c| then retained != [] && retained[|retained| - 1] == c[resume] else retained == [])
  }

  lemma RetainedKeeps(entries: seq<Entry>, c: seq<Entry>, at: nat, removeSelected: bool, retained: seq<Entry>)
    requires UniqueIds(entries) && Chain(entries, c) && at < |c|
    requires Retained(entries, c[at], Descendants(entries, c[at].id), removeSelected) == Some(retained)
    ensures Keeps(entries, c, at, removeSelected, retained)
  {
    hide Descendants, Keeps, Without, ById;
    if removeSelected { WithdrawKeeps(entries, c, at, retained); } else { DiscardKeeps(entries, c, at, retained); }
  }

  lemma KeptFacts(entries: seq<Entry>, target: Entry)
    requires UniqueIds(entries) && target in entries
    ensures var removed := Descendants(entries, target.id);
            var kept := Without(entries, removed);
            && target.id in removed && UniqueIds(kept) && |kept| + |removed| == |entries|
            && (forall e :: e in kept <==> e in entries && e.id !in removed)
  {
    hide Descendants;
    var removed := Descendants(entries, target.id);
    WithoutFacts(entries, removed);
    TargetIsDescendant(entries, target);
    DescendantsAreIds(entries, target.id);
    assert removed * Ids(entries) == removed;
  }

  lemma DiscardKeeps(entries: seq<Entry>, c: seq<Entry>, at: nat, retained: seq<Entry>)
    requires UniqueIds(entries) && Chain(entries, c) && at < |c|
    requires Retained(entries, c[at], Descendants(entries, c[at].id), false) == Some(retained)
    ensures Keeps(entries, c, at, false, retained)
  {
    hide Descendants, Without;
    KeptFacts(entries, c[at]);
    var kept := Without(entries, Descendants(entries, c[at].id));
    assert forall k :: 0 <= k < |kept| ==> kept[k] in kept;
    UniqueAppend(kept, c[at]);
  }

  lemma WithdrawKeeps(entries: seq<Entry>, c: seq<Entry>, at: nat, retained: seq<Entry>)
    requires UniqueIds(entries) && Chain(entries, c) && at < |c|
    requires Retained(entries, c[at], Descendants(entries, c[at].id), true) == Some(retained)
    ensures Keeps(entries, c, at, true, retained)
  {
    hide Descendants, Without, UniqueIds;
    KeptFacts(entries, c[at]);
    if at + 1 < |c| {
      AncestorsStay(entries, c, at, at + 1);
      assert c[at].parent == Parent(c[at + 1].id);
      MoveLast(entries, Without(entries, Descendants(entries, c[at].id)), c[at + 1]);
    }
  }

  lemma MoveLast(entries: seq<Entry>, kept: seq<Entry>, parent: Entry)
    requires UniqueIds(entries) && UniqueIds(kept) && parent in kept && parent in entries
    ensures parent.id in ById(entries) && ById(entries)[parent.id] == parent
    ensures var moved := Without(kept, {parent.id}) + [parent];
            UniqueIds(moved) && |moved| == |kept| && forall e :: e in moved <==> e in kept
  {
    ByIdIndexes(entries);
    var rest := Without(kept, {parent.id});
    WithoutFacts(kept, {parent.id});
    InIds(kept, parent.id);
    assert {parent.id} * Ids(kept) == {parent.id};
    assert forall k :: 0 <= k < |rest| ==> rest[k] in rest;
    UniqueAppend(rest, parent);
    forall e | e in kept ensures e in rest + [parent] {
      if e.id == parent.id { SameIdSameEntry(kept, e, parent); }
    }
  }

  lemma SameIdSameEntry(entries: seq<Entry>, a: Entry, b: Entry)
    requires UniqueIds(entries) && a in entries && b in entries && a.id == b.id
    ensures a == b
  {
  }

  lemma TargetIsDescendant(entries: seq<Entry>, target: Entry)
    requires target in entries
    ensures target.id in Descendants(entries, target.id)
  {
    BelowItself(entries, target.id);
    var i :| 0 <= i < |entries| && entries[i] == target;
  }

  lemma DescendantsAreIds(entries: seq<Entry>, root: string)
    ensures Descendants(entries, root) <= Ids(entries)
  {
    forall id | id in Descendants(entries, root) ensures id in Ids(entries) { InIds(entries, id); }
  }

  lemma PlanKeeps(records: seq<Entry>, entryId: string, removeSelected: bool, plan: Plan, c: seq<Entry>, at: nat)
    requires Went(records, entryId, removeSelected, plan, c, at)
    ensures plan.content != [] && plan.content[0] == records[0]
    ensures Keeps(records[1..], c, at, removeSelected, plan.content[1..])
    ensures var removed := Descendants(records[1..], entryId);
            plan.deletedEntries == |removed| - 1 && plan.removedEntries == if removeSelected then |removed|
              else |removed| - 1
  {
    hide Descendants, Retained, FirstUser, Blank, OnBranch, ById, Keeps;
    var entries := records[1..];
    var retained := Retained(entries, c[at], Descendants(entries, entryId), removeSelected).value;
    assert plan.content == [records[0]] + retained;
    RetainedKeeps(entries, c, at, removeSelected, retained);
  }

  /** Exactly the entries reached from the selected message are removed; a discard keeps the message itself. */
  lemma RemovesExactlyTheDescendants(records: seq<Entry>, entryId: string, removeSelected: bool, plan: Plan, e: Entry)
    requires Rewrite(records, entryId, removeSelected) == Ok(plan)
    ensures plan.content != [] && plan.content[0] == records[0]
    ensures e in plan.content[1..] <==>
            e in records[1..] && (!Below(records[1..], entryId, e.id) || (!removeSelected && e.id == entryId))
  {
    hide Rewrite, Below;
    var c, at := WentFacts(records, entryId, removeSelected, plan);
    PlanKeeps(records, entryId, removeSelected, plan, c, at);
    if e in records[1..] {
      var i :| 0 <= i < |records[1..]| && records[1..][i] == e;
      assert e.id in Descendants(records[1..], entryId) <==> Below(records[1..], entryId, e.id) by {
        DescendantsById(records[1..], entryId, e);
      }
      if e.id == entryId { ChainMember(records[1..], c, at, e); }
    }
  }

  lemma DescendantsById(entries: seq<Entry>, root: string, e: Entry)
    requires e in entries
    ensures e.id in Descendants(entries, root) <==> Below(entries, root, e.id)
  {
    var i :| 0 <= i < |entries| && entries[i] == e;
  }

  lemma ChainMember(entries: seq<Entry>, c: seq<Entry>, at: nat, e: Entry)
    requires UniqueIds(entries) && Chain(entries, c) && at < |c| && e in entries && e.id == c[at].id
    ensures e == c[at]
  {
  }

  /** No retained entry hangs off a removed one. */
  lemma NoRetainedOrphan(records: seq<Entry>, entryId: string, removeSelected: bool, plan: Plan, e: Entry,
                         parent: Entry)
    requires Rewrite(records, entryId, removeSelected) == Ok(plan)
    requires e in plan.content[1..] && parent in records[1..] && e.parent == Parent(parent.id)
    ensures parent in plan.content[1..]
  {
    hide Rewrite, Below, Descendants;
    var entries := records[1..];
    var c, at := WentFacts(records, entryId, removeSelected, plan);
    PlanKeeps(records, entryId, removeSelected, plan, c, at);
    if parent.id in Descendants(entries, entryId) {
      DescendantsById(entries, entryId, parent);
      assert Child(entries, parent.id, e.id) by {
        var i :| 0 <= i < |entries| && entries[i] == e;
      }
      BelowStep(entries, entryId, parent.id, e.id);
      DescendantsById(entries, entryId, e);
      // only the selected message of a discard is both below itself and retained
      assert e == c[at];
      assert at + 1 < |c| && c[at + 1].id == parent.id;
      AncestorsStay(entries, c, at, at + 1);
      assert false;
    }
  }

  /** Entries before are entries after plus the removed ones, and the counts reported say so. */
  lemma CountsBalance(records: seq<Entry>, entryId: string, removeSelected: bool, plan: Plan)
    requires Rewrite(records, entryId, removeSelected) == Ok(plan)
    ensures |plan.content| + plan.removedEntries == |records|
    ensures plan.removedEntries == plan.deletedEntries + (if removeSelected then 1 else 0)
    ensures plan.removedEntries > 0
  {
    var c, at := WentFacts(records, entryId, removeSelected, plan);
    PlanKeeps(records, entryId, removeSelected, plan, c, at);
    TargetIsDescendant(records[1..], c[at]);
  }

  /** The agent resumes on the old active branch, cut at the selected message or just above it, and the
      rewritten file is again a session file. */
  lemma ResumesOnTheCutBranch(records: seq<Entry>, entryId: string, removeSelected: bool, plan: Plan)
    returns (c: seq<Entry>, at: nat)
    requires Rewrite(records, entryId, removeSelected) == Ok(plan)
    ensures UniqueIds(records[1..]) && ActiveBranch(records[1..]) == Ok(c) && at < |c| && c[at].id == entryId
    ensures plan.content[0].session && forall i :: 0 < i < |plan.content| ==> !plan.content[i].session
    ensures UniqueIds(plan.content[1..]) &&
            ActiveBranch(plan.content[1..]) == Ok(c[if removeSelected then at + 1 else at..])
  {
    c, at := WentFacts(records, entryId, removeSelected, plan);
    PlanKeeps(records, entryId, removeSelected, plan, c, at);
    HeaderStays(records, entryId, removeSelected, plan);
    CutChain(records[1..], c, at, removeSelected, plan.content[1..]);
  }

  lemma HeaderStays(records: seq<Entry>, entryId: string, removeSelected: bool, plan: Plan)
    requires Rewrite(records, entryId, removeSelected) == Ok(plan)
    ensures plan.content != [] && plan.content[0].session && forall i :: 0 < i < |plan.content| ==>
      !plan.content[i].session
  {
    hide Descendants, Retained, FirstUser, Blank, OnBranch, ById, ActiveBranch, Below, UniqueIds;
    var c, at := WentFacts(records, entryId, removeSelected, plan);
    PlanKeeps(records, entryId, removeSelected, plan, c, at);
    forall i | 0 < i < |plan.content| ensures !plan.content[i].session {
      assert plan.content[1..][i - 1] in records[1..];
      var k :| 0 <= k < |records[1..]| && records[1..][k] == plan.content[i];
      assert !records[k + 1].session;
    }
  }

  lemma CutChain(entries: seq<Entry>, c: seq<Entry>, at: nat, removeSelected: bool, retained: seq<Entry>)
    requires UniqueIds(entries) && Chain(entries, c) && at < |c| && Keeps(entries, c, at, removeSelected, retained)
    ensures ActiveBranch(retained) == Ok(c[if removeSelected then at + 1 else at..])
  {
    hide Descendants;
    var from := if removeSelected then at + 1 else at;
    if from < |c| {
      var cut := c[from..];
      forall i | 0 <= i < |cut| ensures cut[i] in retained {
        assert cut[i] == c[from + i] && cut[i] in entries;
        if from + i > at { AncestorsStay(entries, c, at, from + i); }
      }
      assert Chain(retained, cut);
      ByIdIndexes(retained);
      ChainIsBranch(retained, cut, 0, {});
      assert cut[0..] == cut;
    }
  }

  // ---- committing ----

  class SessionFile {
    var records: seq<Entry>

    /** The staged rewrite replaces the file only if it is still the file that was read. */
    method Commit(source: seq<Entry>, plan: Plan) returns (ok: bool)
      modifies this
      ensures ok <==> old(records) == source
      ensures records == if ok then plan.content else old(records)
    {
      ok := records == source;
      if ok { records := plan.content; }
    }
  }
}
