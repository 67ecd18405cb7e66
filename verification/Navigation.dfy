/** Navigation in the session tree: what is summarised when the user leaves one branch
    for another entry, and how much of it fits the summary's budget. */
module Navigation {
  import opened Messages
  import opened AgentMessages
  import opened Compaction

  // ---- the session tree ----------------------------------------------------------------

  datatype Node = Node(entry: Entry, parent: Option<string>)

  type Tree = map<string, Node>

  /** Entries are stored under their own ids, and `rank` shows that no entry is its own
      ancestor.  A parent may still be missing. */
  ghost predicate Acyclic(tree: Tree, rank: map<string, nat>) {
    forall id <- tree ::
      && tree[id].entry.id == id && id in rank
      && (tree[id].parent.Some? && tree[id].parent.value in tree ==>
            tree[id].parent.value in rank && rank[tree[id].parent.value] < rank[id])
  }

  /** The root-first path to an entry; none when an entry on the way is missing. */
  ghost function PathTo(tree: Tree, rank: map<string, nat>, id: string): Option<seq<Entry>>
    requires Acyclic(tree, rank)
    decreases if id in tree then rank[id] + 1 else 0
  {
    if id !in tree then None
    else if tree[id].parent.None? then Some([tree[id].entry])
    else
      var up := PathTo(tree, rank, tree[id].parent.value);
      if up.None? then None else Some(up.value + [tree[id].entry])
  }

  /** `a` is `id` itself or lies above it. */
  ghost predicate IsAncestor(tree: Tree, rank: map<string, nat>, a: string, id: string)
    requires Acyclic(tree, rank)
    decreases if id in tree then rank[id] + 1 else 0
  {
    id in tree && (a == id || (tree[id].parent.Some? && IsAncestor(tree, rank, a, tree[id].parent.value)))
  }

  ghost predicate Occurs(path: seq<Entry>, id: string) {
    exists k :: 0 <= k < |path| && path[k].id == id
  }

  /** Every prefix of a path is the path to its last entry. */
  lemma {:induction false} PathPrefix(tree: Tree, rank: map<string, nat>, id: string, k: nat)
    requires Acyclic(tree, rank) && PathTo(tree, rank, id).Some?
    ensures var path := PathTo(tree, rank, id).value;
            && path != [] && path[|path| - 1].id == id
            && (k < |path| ==> PathTo(tree, rank, path[k].id) == Some(path[..k + 1]))
    decreases if id in tree then rank[id] + 1 else 0
  {
    var path := PathTo(tree, rank, id).value;
    if k < |path| {
      if k == |path| - 1 {
        assert path[..k + 1] == path;
      } else {
        var up := PathTo(tree, rank, tree[id].parent.value).value;
        PathPrefix(tree, rank, tree[id].parent.value, k);
        assert path[..k + 1] == up[..k + 1];
      }
    }
  }

  /** The entries of a path are exactly the ancestors of its last one. */
  lemma {:induction false} PathIsAncestors(tree: Tree, rank: map<string, nat>, a: string, id: string)
    requires Acyclic(tree, rank) && PathTo(tree, rank, id).Some?
    ensures IsAncestor(tree, rank, a, id) <==> Occurs(PathTo(tree, rank, id).value, a)
    decreases if id in tree then rank[id] + 1 else 0
  {
    var path := PathTo(tree, rank, id).value;
    assert path[|path| - 1].id == id;
    if tree[id].parent.Some? {
      var parent := tree[id].parent.value;
      var up := PathTo(tree, rank, parent).value;
      PathIsAncestors(tree, rank, a, parent);
      if Occurs(up, a) {
        var k :| 0 <= k < |up| && up[k].id == a;
        assert path[k].id == a;
      }
      if Occurs(path, a) && a != id {
        var k :| 0 <= k < |path| && path[k].id == a;
        assert k < |up| && up[k].id == a;
      }
    }
  }

  /** An entry has one place on a path, and shared entries have the same place on both. */
  lemma SamePlace(tree: Tree, rank: map<string, nat>, x: string, y: string, i: nat, j: nat)
    requires Acyclic(tree, rank) && PathTo(tree, rank, x).Some? && PathTo(tree, rank, y).Some?
    requires i < |PathTo(tree, rank, x).value| && j < |PathTo(tree, rank, y).value|
    requires PathTo(tree, rank, x).value[i].id == PathTo(tree, rank, y).value[j].id
    ensures i == j && PathTo(tree, rank, x).value[..i + 1] == PathTo(tree, rank, y).value[..j + 1]
  {
    PathPrefix(tree, rank, x, i);
    PathPrefix(tree, rank, y, j);
    var p, q := PathTo(tree, rank, x).value[..i + 1], PathTo(tree, rank, y).value[..j + 1];
    assert p == q && |p| == i + 1 && |q| == j + 1;
  }

  /** The walk from an entry up to its root, reversed at the end. */
  method GetBranch(tree: Tree, ghost rank: map<string, nat>, id: string) returns (branch: Option<seq<Entry>>)
    requires Acyclic(tree, rank)
    ensures branch == PathTo(tree, rank, id)
  {
    var current, path, atRoot := id, [], false;
    if PathTo(tree, rank, id).Some? {
      assert PathTo(tree, rank, id).value + Reversed(path) == PathTo(tree, rank, id).value;
    }
    while !atRoot
      invariant !atRoot ==>
        var up := PathTo(tree, rank, current);
        PathTo(tree, rank, id) == if up.None? then None else Some(up.value + Reversed(path))
      invariant atRoot ==> PathTo(tree, rank, id) == Some(Reversed(path))
      decreases !atRoot, if current in tree then rank[current] + 1 else 0
    {
      if current !in tree { return None; }
      var node := tree[current];
      ghost var up := PathTo(tree, rank, current);
      assert [node.entry] + Reversed(path) == Reversed(path + [node.entry]);
      if node.parent.Some? && up.Some? {
        var above := PathTo(tree, rank, node.parent.value);
        assert above.value + [node.entry] + Reversed(path) == above.value + ([node.entry] + Reversed(path));
      }
      path := path + [node.entry];
      if node.parent.None? { atRoot := true; } else { current := node.parent.value; }
    }
    return Some(Reversed(path));
  }

  function Reversed<T>(s: seq<T>): (r: seq<T>)
    ensures |r| == |s| && forall k | 0 <= k < |r| :: r[k] == s[|s| - 1 - k]
  {
    if s == [] then [] else [s[|s| - 1]] + Reversed(s[..|s| - 1])
  }

  // ---- the entries that are left behind ------------------------------------------------

  datatype Collected =
    | Collected(entries: seq<Entry>, commonAncestor: Option<string>)
    | NotFound

  /** The scan of the target branch from its leaf up for an entry of the old branch, and
      the part of the old branch behind it. */
  method CollectEntriesForBranchSummary(tree: Tree, ghost rank: map<string, nat>, oldLeaf: Option<string>,
                                        target: string)
    returns (r: Collected)
    requires Acyclic(tree, rank)
    ensures oldLeaf.None? ==> r == Collected([], None)
    ensures oldLeaf.Some? ==>
      (r.NotFound? <==> PathTo(tree, rank, oldLeaf.value).None? || PathTo(tree, rank, target).None?)
    ensures oldLeaf.Some? && r.Collected? ==> LeavesBehind(tree, rank, oldLeaf.value, target, r)
  {
    if oldLeaf.None? { return Collected([], None); }
    var left := GetBranch(tree, rank, oldLeaf.value);
    if left.None? { return NotFound; }
    var oldBranch := left.value;
    var oldPath: set<string> := {};
    for i := 0 to |oldBranch|
      invariant forall x :: x in oldPath <==> Occurs(oldBranch[..i], x)
    {
      OccursGrows(oldBranch, i);
      oldPath := oldPath + {oldBranch[i].id};
    }
    assert oldBranch[..|oldBranch|] == oldBranch;
    var aimed := GetBranch(tree, rank, target);
    if aimed.None? { return NotFound; }
    var targetBranch := aimed.value;
    var commonAncestor: Option<string> := None;
    var i: int := |targetBranch| - 1;
    while i >= 0 && commonAncestor.None?
      invariant -1 <= i < |targetBranch|
      invariant commonAncestor.Some? ==>
        0 <= i && targetBranch[i].id == commonAncestor.value && Occurs(oldBranch, commonAncestor.value)
      invariant forall k | i < k < |targetBranch| :: !Occurs(oldBranch, targetBranch[k].id)
      decreases i + if commonAncestor.None? then 1 else 0
    {
      if targetBranch[i].id in oldPath {
        commonAncestor := Some(targetBranch[i].id);
      } else {
        i := i - 1;
      }
    }
    var start := 0;
    if commonAncestor.Some? {
      var j := 0;
      while j < |oldBranch| && oldBranch[j].id != commonAncestor.value
        invariant 0 <= j <= |oldBranch|
        invariant forall k | 0 <= k < j :: oldBranch[k].id != commonAncestor.value
      {
        j := j + 1;
      }
      start := j + 1;
      SamePlace(tree, rank, oldLeaf.value, target, j, i);
    }
    r := Collected(oldBranch[start..], commonAncestor);
    SharedPrefix(tree, rank, oldLeaf.value, target, start, commonAncestor);
  }

  lemma OccursGrows(path: seq<Entry>, i: nat)
    requires i < |path|
    ensures forall x :: Occurs(path[..i + 1], x) <==> Occurs(path[..i], x) || path[i].id == x
  {
    forall x
      ensures Occurs(path[..i + 1], x) <==> Occurs(path[..i], x) || path[i].id == x
    {
      if Occurs(path[..i], x) {
        var k :| 0 <= k < i && path[..i][k].id == x;
        assert path[..i + 1][k].id == x;
      }
      if path[i].id == x { assert path[..i + 1][i].id == x; }
      if Occurs(path[..i + 1], x) && path[i].id != x {
        var k :| 0 <= k < i + 1 && path[..i + 1][k].id == x;
        assert path[..i][k].id == x;
      }
    }
  }

  /** The old branch is the shared root path followed by the collected entries, and the
      shared path ends with the deepest entry above both leaves. */
  ghost predicate LeavesBehind(tree: Tree, rank: map<string, nat>, leaf: string, target: string, r: Collected)
    requires Acyclic(tree, rank) && PathTo(tree, rank, leaf).Some? && PathTo(tree, rank, target).Some?
    requires r.Collected?
  {
    var oldBranch, targetBranch := PathTo(tree, rank, leaf).value, PathTo(tree, rank, target).value;
    var shared := |oldBranch| - |r.entries|;
    && 0 <= shared <= |targetBranch|
    && oldBranch == targetBranch[..shared] + r.entries
    && (r.commonAncestor.None? <==> shared == 0)
    && (r.commonAncestor.Some? ==> oldBranch[shared - 1].id == r.commonAncestor.value)
    && (forall k | shared <= k < |targetBranch| :: !Occurs(oldBranch, targetBranch[k].id))
  }

  lemma SharedPrefix(tree: Tree, rank: map<string, nat>, leaf: string, target: string, start: nat,
                     common: Option<string>)
    requires Acyclic(tree, rank) && PathTo(tree, rank, leaf).Some? && PathTo(tree, rank, target).Some?
    requires var oldBranch, targetBranch := PathTo(tree, rank, leaf).value, PathTo(tree, rank, target).value;
             && start <= |oldBranch| && start <= |targetBranch|
             && (start == 0 <==> common.None?)
             && (common.Some? ==> oldBranch[start - 1].id == common.value && targetBranch[start - 1].id == common.value)
             && (forall k | start <= k < |targetBranch| :: !Occurs(oldBranch, targetBranch[k].id))
    ensures LeavesBehind(tree, rank, leaf, target, Collected(PathTo(tree, rank, leaf).value[start..], common))
  {
    var oldBranch, targetBranch := PathTo(tree, rank, leaf).value, PathTo(tree, rank, target).value;
    if start > 0 { SamePlace(tree, rank, leaf, target, start - 1, start - 1); }
    assert oldBranch[..start] == targetBranch[..start];
    assert oldBranch == oldBranch[..start] + oldBranch[start..];
  }

  /** What is collected, in terms of the tree alone: the common ancestor is above both
      leaves and below every other entry that is, and an entry is collected exactly
      when it is above the old leaf but not above the target. */
  lemma DeepestCommonAncestor(tree: Tree, rank: map<string, nat>, leaf: string, target: string, r: Collected, x: string)
    requires Acyclic(tree, rank) && PathTo(tree, rank, leaf).Some? && PathTo(tree, rank, target).Some?
    requires r.Collected? && LeavesBehind(tree, rank, leaf, target, r)
    ensures r.commonAncestor.Some? ==>
              IsAncestor(tree, rank, r.commonAncestor.value, leaf)
                  && IsAncestor(tree, rank, r.commonAncestor.value, target)
    ensures IsAncestor(tree, rank, x, leaf) && IsAncestor(tree, rank, x, target)
            <==> r.commonAncestor.Some? && IsAncestor(tree, rank, x, r.commonAncestor.value)
    ensures Occurs(r.entries, x) <==> IsAncestor(tree, rank, x, leaf) && !IsAncestor(tree, rank, x, target)
  {
    var p, q := PathTo(tree, rank, leaf).value, PathTo(tree, rank, target).value;
    var shared := |p| - |r.entries|;
    assert p[..shared] == q[..shared];
    PathIsAncestors(tree, rank, x, leaf);
    PathIsAncestors(tree, rank, x, target);
    if r.commonAncestor.Some? {
      var c := r.commonAncestor.value;
      PathPrefix(tree, rank, leaf, shared - 1);
      PathIsAncestors(tree, rank, x, c);
      PathIsAncestors(tree, rank, c, leaf);
      PathIsAncestors(tree, rank, c, target);
      assert p[shared - 1].id == c && q[shared - 1].id == c;
    }
    OccursSplits(p, shared, x);
    OccursSplits(q, shared, x);
    assert p[shared..] == r.entries;
    if Occurs(q[shared..], x) {
      var k :| 0 <= k < |q[shared..]| && q[shared..][k].id == x;
      assert q[shared + k].id == x;
    }
    if Occurs(r.entries, x) && Occurs(q[..shared], x) {
      var i :| 0 <= i < |r.entries| && r.entries[i].id == x;
      var j :| 0 <= j < |q[..shared]| && q[..shared][j].id == x;
      SamePlace(tree, rank, leaf, target, shared + i, j);
    }
  }

  lemma OccursSplits(path: seq<Entry>, n: nat, x: string)
    requires n <= |path|
    ensures Occurs(path, x) <==> Occurs(path[..n], x) || Occurs(path[n..], x)
  {
    if Occurs(path, x) {
      var k :| 0 <= k < |path| && path[k].id == x;
      if k < n { assert path[..n][k].id == x; } else { assert path[n..][k - n].id == x; }
    }
    if Occurs(path[..n], x) {
      var k :| 0 <= k < n && path[..n][k].id == x;
      assert path[k].id == x;
    }
    if Occurs(path[n..], x) {
      var k :| 0 <= k < |path[n..]| && path[n..][k].id == x;
      assert path[n + k].id == x;
    }
  }

  // ---- arriving at the target -------------------------------------------------------------

  /** A message of the user goes back to the editor, so the session moves above it. */
  predicate GoesToEditor(e: Entry) {
    e.kind.CustomEntry? || IsUserEntry(e)
  }

  function NewLeaf(node: Node): Option<string> {
    if GoesToEditor(node.entry) then node.parent else Some(node.entry.id)
  }

  ghost predicate OnBranch(tree: Tree, rank: map<string, nat>, leaf: Option<string>, x: string)
    requires Acyclic(tree, rank)
  {
    leaf.Some? && IsAncestor(tree, rank, x, leaf.value)
  }

  /** After the move an entry of the old branch is on the new branch, or was collected
      for the summary, or is the target that went to the editor, and only one of these. */
  lemma NothingForgotten(tree: Tree, rank: map<string, nat>, leaf: string, target: string, r: Collected, x: string)
    requires Acyclic(tree, rank) && PathTo(tree, rank, leaf).Some? && PathTo(tree, rank, target).Some?
    requires r.Collected? && LeavesBehind(tree, rank, leaf, target, r)
    ensures var stays := OnBranch(tree, rank, NewLeaf(tree[target]), x);
            var edited := x == target && GoesToEditor(tree[target].entry);
            && (IsAncestor(tree, rank, x, leaf) ==> stays || edited || Occurs(r.entries, x))
            && !(stays && edited) && !(stays && Occurs(r.entries, x)) && !(edited && Occurs(r.entries, x))
  {
    DeepestCommonAncestor(tree, rank, leaf, target, r, x);
    if GoesToEditor(tree[target].entry) && tree[target].parent.Some?
        && IsAncestor(tree, rank, target, tree[target].parent.value) {
      AncestorRank(tree, rank, target, tree[target].parent.value);
      assert false;
    }
  }

  lemma {:induction false} AncestorRank(tree: Tree, rank: map<string, nat>, a: string, id: string)
    requires Acyclic(tree, rank) && IsAncestor(tree, rank, a, id)
    ensures a in tree && rank[a] <= rank[id]
    decreases if id in tree then rank[id] + 1 else 0
  {
    if a != id { AncestorRank(tree, rank, a, tree[id].parent.value); }
  }

  // ---- what fits the summary's budget -------------------------------------------------------

  function MessageForSummary(e: Entry): Option<AgentMessage> {
    match e.kind
    case MessageEntry(m) => if m.Some? && m.value.LLM? && m.value.message.role.ToolResult? then None else m
    case CompactionEntry(text, _, ts) => if text == "" then None else Some(AgentMessage.CompactionSummary(text, ts))
    case _ => MessageFromEntry(e)
  }

  function SummaryMessages(entries: seq<Entry>): seq<AgentMessage> {
    if entries == [] then []
    else
      var m := MessageForSummary(entries[0]);
      (if m.Some? then [m.value] else []) + SummaryMessages(entries[1..])
  }

  function Tokens(messages: seq<AgentMessage>, estimate: AgentMessage -> nat): nat {
    if messages == [] then 0 else estimate(messages[0]) + Tokens(messages[1..], estimate)
  }

  predicate IsSummary(e: Entry) {
    e.kind.CompactionEntry? || e.kind.BranchSummaryEntry?
  }

  /** `messages` is what can be told of the last entries, from `from` on. They fit the
      budget, unless the first is itself a summary and the rest leave a tenth of the
      budget unused; and they go back as far as the budget allows. */
  ghost predicate LongestTail(entries: seq<Entry>, from: nat, budget: int, estimate: AgentMessage -> nat,
                              messages: seq<AgentMessage>)
    requires from <= |entries|
  {
    var total := Tokens(messages, estimate);
    && messages == SummaryMessages(entries[from..])
    && (budget > 0 && total > budget ==>
          && messages != [] && from < |entries| && IsSummary(entries[from])
          && MessageForSummary(entries[from]) == Some(messages[0])
          && Tokens(messages[1..], estimate) < (budget as real * 0.9).Floor)
    && (from > 0 ==>
          && budget > 0
          && (total <= budget ==>
                && MessageForSummary(entries[from - 1]).Some?
                && total + estimate(MessageForSummary(entries[from - 1]).value) > budget
                && (IsSummary(entries[from - 1]) ==> total >= (budget as real * 0.9).Floor)))
  }

  method PrepareBranchEntries(entries: seq<Entry>, tokenBudget: int, estimate: AgentMessage -> nat)
    returns (messages: seq<AgentMessage>, totalTokens: nat)
    ensures totalTokens == Tokens(messages, estimate)
    ensures exists from: nat | from <= |entries| :: LongestTail(entries, from, tokenBudget, estimate, messages)
  {
    messages, totalTokens := [], 0;
    var i := |entries|;
    while i > 0
      invariant 0 <= i <= |entries|
      invariant messages == SummaryMessages(entries[i..]) && totalTokens == Tokens(messages, estimate)
      invariant tokenBudget > 0 ==> totalTokens <= tokenBudget
    {
      assert entries[i - 1..][1..] == entries[i..];
      var m := MessageForSummary(entries[i - 1]);
      if m.Some? {
        var tokens := estimate(m.value);
        ghost var longer := [m.value] + messages;
        assert longer[1..] == messages;
        if tokenBudget > 0 && totalTokens + tokens > tokenBudget {
          if IsSummary(entries[i - 1]) && totalTokens < (tokenBudget as real * 0.9).Floor {
            messages, totalTokens := [m.value] + messages, totalTokens + tokens;
            assert LongestTail(entries, i - 1, tokenBudget, estimate, messages);
          } else {
            assert LongestTail(entries, i, tokenBudget, estimate, messages);
          }
          return;
        }
        messages, totalTokens := [m.value] + messages, totalTokens + tokens;
      }
      i := i - 1;
    }
    assert LongestTail(entries, 0, tokenBudget, estimate, messages);
  }
}
