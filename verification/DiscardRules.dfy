/**
 * When a session file is rewritten, why not, and in what order its entries are kept
 * (backend/live-sessions/session-discard.ts), said of the records themselves.
 */
module DiscardRules {
  import opened Wrappers
  import opened SessionDiscard

  predicate WellHeaded(records: seq<Entry>) {
    records != [] && records[0].session && forall i :: 0 < i < |records| ==> !records[i].session
  }

  /** `c` leads from the last entry to a root. */
  ghost predicate Resumes(entries: seq<Entry>, c: seq<Entry>) {
    entries != [] && Chain(entries, c) && c[0] == entries[|entries| - 1]
  }

  /** There is an active branch exactly when parent links lead from the last entry to a root, and then it is these. */
  lemma ActiveBranchExactly(entries: seq<Entry>)
    requires UniqueIds(entries) && entries != []
    ensures ActiveBranch(entries).Ok? <==> exists c :: Resumes(entries, c)
    ensures forall c :: Resumes(entries, c) ==> ActiveBranch(entries) == Ok(c)
  {
    hide Branch, Chain;
    ByIdIndexes(entries);
    var last := entries[|entries| - 1];
    BranchIsChain(entries, last, {});
    if ActiveBranch(entries).Ok? { assert Resumes(entries, ActiveBranch(entries).value); }
    forall c | Resumes(entries, c) ensures ActiveBranch(entries) == Ok(c) {
      ChainIsBranch(entries, c, 0, {}) by { assert c != [] by { Nonempty(entries, c); } }
      assert c[0..] == c;
    }
  }

  lemma Nonempty(entries: seq<Entry>, c: seq<Entry>)
    requires Chain(entries, c)
    ensures c != []
  {
  }

  lemma {:induction false} FirstUserExactly(branch: seq<Entry>, at: nat)
    requires at < |branch| && forall i, j :: 0 <= i < j < |branch| ==> branch[i] != branch[j]
    ensures FirstUser(branch) == Some(branch[at]) <==> branch[at].user && forall i :: 0 <= i < at ==> !branch[i].user
    decreases |branch|
  {
    if at == 0 {
      FirstUserIsAmong(branch[1..]);
    } else {
      FirstUserExactly(branch[1..], at - 1);
      assert branch[1..][at - 1] == branch[at];
      if forall i :: 0 <= i < at ==> !branch[i].user {
        assert forall i :: 0 <= i < at - 1 ==> !branch[1..][i].user;
      }
      if !branch[0].user && forall i :: 0 <= i < at - 1 ==> !branch[1..][i].user {
        forall i | 0 <= i < at ensures !branch[i].user {
          if i > 0 { assert branch[i] == branch[1..][i - 1]; }
        }
      }
    }
  }

  lemma {:induction false} FirstUserIsAmong(branch: seq<Entry>)
    ensures FirstUser(branch).Some? ==> FirstUser(branch).value in branch
    decreases |branch|
  {
    if branch == [] {
    } else {
      FirstUserIsAmong(branch[1..]);
    }
  }

  /** Entry `at` of the active branch is the message selected. */
  ghost predicate Selected(records: seq<Entry>, c: seq<Entry>, at: nat, entryId: string) {
    && records != [] && Resumes(records[1..], c) && at < |c| && c[at].id == entryId
  }

  /** Some entry besides the message was reached from it. */
  ghost predicate HasLater(entries: seq<Entry>, entryId: string) {
    exists e :: e in entries && e.id != entryId && Below(entries, entryId, e.id)
  }

  ghost predicate AllLater(entries: seq<Entry>, entryId: string) {
    forall e :: e in entries ==> Below(entries, entryId, e.id)
  }

  lemma HasLaterExactly(entries: seq<Entry>, target: Entry)
    requires UniqueIds(entries) && target in entries
    ensures |Descendants(entries, target.id)| == 1 <==> !HasLater(entries, target.id)
  {
    hide Below, UniqueIds;
    var d := Descendants(entries, target.id);
    TargetIsDescendant(entries, target);
    if e :| e in entries && e.id != target.id && Below(entries, target.id, e.id) {
      DescendantsById(entries, target.id, e);
      assert {target.id, e.id} <= d;
      assert |{target.id, e.id}| == 2;
      SubsetIsNoLarger({target.id, e.id}, d);
    } else {
      assert d == {target.id};
    }
  }

  lemma SubsetIsNoLarger(a: set<string>, b: set<string>)
    requires a <= b
    ensures |a| <= |b|
  {
    assert b == a + (b - a) && a !! (b - a);
  }

  lemma AllLaterExactly(entries: seq<Entry>, target: Entry)
    requires UniqueIds(entries) && target in entries
    ensures Without(entries, Descendants(entries, target.id)) == [] <==> AllLater(entries, target.id)
  {
    hide Below, UniqueIds, Descendants;
    KeptFacts(entries, target);
    var kept := Without(entries, Descendants(entries, target.id));
    forall e | e in entries ensures e.id in Descendants(entries, target.id) <==> Below(entries, target.id, e.id) {
      DescendantsById(entries, target.id, e);
    }
    if kept != [] { assert kept[0] in kept; }
  }

  /** For a message on the active branch of a sound file: a discard goes through exactly when there is something
      after it, a withdrawal when no user message comes later on the branch and the message is no root that other
      entries would outlive; and each refusal says which of these it was. */
  lemma SelectedExactly(records: seq<Entry>, entryId: string, removeSelected: bool, c: seq<Entry>, at: nat)
    requires !Blank(entryId) && WellHeaded(records) && UniqueIds(records[1..]) && Selected(records, c, at, entryId)
    ensures var entries, r := records[1..], Rewrite(records, entryId, removeSelected);
            var latest := forall i :: 0 <= i < at ==> !c[i].user;
            if !c[at].user then r == Err("entry_not_user_message")
            else if removeSelected && !latest then r == Err("not_latest_user_message")
            else if !removeSelected && !HasLater(entries, entryId) then r == Err("nothing_to_discard")
            else if removeSelected && at + 1 == |c| && !AllLater(entries, entryId)
            then r == Err("rewind_root_has_other_branches")
            else r.Ok?
  {
    hide Blank, UniqueIds, Descendants, Without, Below, HasLater, AllLater, FirstUser;
    var entries := records[1..];
    ActiveBranchExactly(entries);
    ByIdIndexes(entries);
    assert c[at] in entries && ById(entries)[entryId] == c[at];
    HasLaterExactly(entries, c[at]);
    AllLaterExactly(entries, c[at]);
    FirstUserExactly(c, at);
    if at + 1 < |c| { assert c[at].parent == Parent(c[at + 1].id) && c[at + 1] in entries; }
  }

  lemma SelectedOnBranch(records: seq<Entry>, c: seq<Entry>, entryId: string)
    requires records != [] && Resumes(records[1..], c)
    ensures OnBranch(c, entryId) ==> exists at :: Selected(records, c, at, entryId)
  {
    if OnBranch(c, entryId) {
      var at: nat :| at < |c| && c[at].id == entryId;
      assert Selected(records, c, at, entryId);
    }
  }

  /** Anything else is refused, by the first of these checks that fails. */
  lemma UnselectedExactly(records: seq<Entry>, entryId: string, removeSelected: bool)
    requires !(!Blank(entryId) && WellHeaded(records) && UniqueIds(records[1..]) &&
               exists c, at :: Selected(records, c, at, entryId))
    ensures var r := Rewrite(records, entryId, removeSelected);
            if Blank(entryId) then r == Err("invalid_entry_id")
            else if !WellHeaded(records) || !UniqueIds(records[1..]) then r == Err("session_file_invalid")
            else if !exists e :: e in records[1..] && e.id == entryId then r == Err("session_entry_not_found")
            else if exists e :: e in records[1..] && e.id == entryId && !e.user then r == Err("entry_not_user_message")
            else if !exists c :: Resumes(records[1..], c) then r == Err("session_file_invalid")
            else r == Err("entry_not_on_active_branch")
  {
    hide Blank, Descendants, Retained, Below, FirstUser, Resumes, ActiveBranch;
    if !Blank(entryId) && WellHeaded(records) && UniqueIds(records[1..]) {
      var entries := records[1..];
      ByIdIndexes(entries);
      if e :| e in entries && e.id == entryId {
        var k :| 0 <= k < |entries| && entries[k] == e;
        assert ById(entries)[entryId] == e;
        ActiveBranchExactly(entries);
        forall c | Resumes(entries, c) ensures OnBranch(c, entryId) ==> exists at :: Selected(records, c, at, entryId) {
          SelectedOnBranch(records, c, entryId);
        }
      }
    }
  }

  // ---- order ----

  /** `a` is written before `b`. */
  predicate Before(entries: seq<Entry>, a: Entry, b: Entry) {
    exists i, j :: 0 <= i < j < |entries| && entries[i] == a && entries[j] == b
  }

  predicate InOrder(part: seq<Entry>, entries: seq<Entry>) {
    forall i, j :: 0 <= i < j < |part| ==> Before(entries, part[i], part[j])
  }

  lemma {:induction false} WithoutKeepsOrder(entries: seq<Entry>, removed: set<string>)
    ensures InOrder(Without(entries, removed), entries)
    ensures forall e :: e in Without(entries, removed) ==> e in entries
    decreases |entries|
  {
    if entries == [] {
    } else {
      var n := |entries| - 1;
      var init, last := entries[..n], entries[n];
      var kept, r := Without(init, removed), Without(entries, removed);
      WithoutKeepsOrder(init, removed);
      forall i, j | 0 <= i < j < |r| ensures Before(entries, r[i], r[j]) {
        if j < |kept| {
          var a, b :| 0 <= a < b < |init| && init[a] == kept[i] && init[b] == kept[j];
          assert entries[a] == r[i] && entries[b] == r[j];
        } else {
          assert kept[i] in init;
          var a :| 0 <= a < n && init[a] == kept[i];
          assert entries[a] == r[i] && entries[n] == r[j];
        }
      }
    }
  }

  lemma BeforeOnwards(a: seq<Entry>, b: seq<Entry>, x: Entry, y: Entry)
    requires InOrder(a, b) && Before(a, x, y)
    ensures Before(b, x, y)
  {
  }

  /** All entries that are kept, but for the one to resume from, which comes last, stay in the order of the file. */
  lemma KeepsFileOrder(records: seq<Entry>, entryId: string, removeSelected: bool, plan: Plan)
    requires Rewrite(records, entryId, removeSelected) == Ok(plan) && |plan.content| > 1
    ensures InOrder(plan.content[1..|plan.content| - 1], records[1..])
  {
    hide Descendants, UniqueIds, ActiveBranch, FirstUser, Blank, OnBranch, ById, Before;
    var entries := records[1..];
    var removed := Descendants(entries, entryId);
    var kept := Without(entries, removed);
    WithoutKeepsOrder(entries, removed);
    var middle := plan.content[1..|plan.content| - 1];
    if !removeSelected {
      assert middle == kept;
    } else if kept == [] && plan.content == [records[0]] {
    } else {
      var target := ById(entries)[entryId];
      var rest := Without(kept, {target.parent.id});
      WithoutKeepsOrder(kept, {target.parent.id});
      assert middle == rest;
      forall i, j | 0 <= i < j < |rest| ensures Before(entries, rest[i], rest[j]) {
        BeforeOnwards(kept, entries, rest[i], rest[j]);
      }
    }
  }
}
