/**
 The department forest of the portal's administration pages, flattened for display.

 Flattening loses nothing: the forest can be rebuilt from ids and depths alone, and the
 subtree of a node is a contiguous block of the flat list.
 */
module Departments {
  import opened Prelude

  datatype Department = Department(id: string, children: seq<Department>)

  datatype Entry = Entry(id: string, depth: nat)

  /** A node, then its descendants one level deeper, then what follows it. */
  function FlattenDepartments(tree: seq<Department>, depth: nat): (flat: seq<Entry>)
    ensures forall i :: 0 <= i < |flat| ==> flat[i].depth >= depth
    ensures tree != [] ==> flat != [] && flat[0] == Entry(tree[0].id, depth)
    ensures tree == [] ==> flat == []
  {
    if tree == [] then []
    else
      [Entry(tree[0].id, depth)] + FlattenDepartments(tree[0].children, depth + 1) + FlattenDepartments(tree[1..], depth)
  }

  function CollectForestIds(tree: seq<Department>): seq<string> {
    if tree == [] then [] else CollectDepartmentSubtreeIds(tree[0]) + CollectForestIds(tree[1..])
  }

  function CollectDepartmentSubtreeIds(node: Department): seq<string> {
    [node.id] + CollectForestIds(node.children)
  }

  // --------------------------------------------------------------------- blocks

  /** Where the entries deeper than `depth` end, from position `k` on. */
  function BlockEnd(flat: seq<Entry>, k: nat, depth: nat): (end: nat)
    requires k <= |flat|
    ensures k <= end <= |flat|
    ensures forall i :: k <= i < end ==> flat[i].depth > depth
    ensures end < |flat| ==> flat[end].depth <= depth
    decreases |flat| - k
  {
    if k < |flat| && flat[k].depth > depth then BlockEnd(flat, k + 1, depth) else k
  }

  lemma {:induction false} BlockEndIs(flat: seq<Entry>, k: nat, depth: nat, end: nat)
    requires k <= end <= |flat|
    requires forall i :: k <= i < end ==> flat[i].depth > depth
    requires end < |flat| ==> flat[end].depth <= depth
    ensures BlockEnd(flat, k, depth) == end
    decreases end - k
  {
    if k < end {
      BlockEndIs(flat, k + 1, depth, end);
    }
  }

  /** The first tree of a forest takes up a block of the flat list, and the others the rest. */
  lemma FirstBlock(tree: seq<Department>, depth: nat)
    requires tree != []
    ensures var flat, below := FlattenDepartments(tree, depth), FlattenDepartments(tree[0].children, depth + 1);
      && BlockEnd(flat, 1, depth) == 1 + |below|
      && flat[1..1 + |below|] == below
      && flat[1 + |below|..] == FlattenDepartments(tree[1..], depth)
  {
    var below, rest := FlattenDepartments(tree[0].children, depth + 1), FlattenDepartments(tree[1..], depth);
    var flat := FlattenDepartments(tree, depth);
    assert flat == [Entry(tree[0].id, depth)] + below + rest;
    forall i | 1 <= i < 1 + |below|
      ensures flat[i].depth > depth
    {
      assert flat[i] == below[i - 1];
    }
    BlockEndIs(flat, 1, depth, 1 + |below|);
  }

  // -------------------------------------------------------------------- rebuilding

  /** Reads a forest back from ids and depths: the entry at `depth` opens a tree, the block
      of deeper entries after it are its descendants. */
  function Rebuild(flat: seq<Entry>, depth: nat): seq<Department>
    decreases |flat|
  {
    if flat == [] then []
    else
      var end := BlockEnd(flat, 1, depth);
      [Department(flat[0].id, Rebuild(flat[1..end], depth + 1))] + Rebuild(flat[end..], depth)
  }

  /** Flattening is lossless. */
  lemma {:induction false} RebuildFlattened(tree: seq<Department>, depth: nat)
    ensures Rebuild(FlattenDepartments(tree, depth), depth) == tree
    decreases tree
  {
    if tree != [] {
      FirstBlock(tree, depth);
      RebuildFlattened(tree[0].children, depth + 1);
      RebuildFlattened(tree[1..], depth);
      assert tree == [Department(tree[0].id, tree[0].children)] + tree[1..];
    }
  }

  /** Two forests that look the same flat are the same. */
  lemma FlatFormsDiffer(a: seq<Department>, b: seq<Department>, depth: nat)
    requires FlattenDepartments(a, depth) == FlattenDepartments(b, depth)
    ensures a == b
  {
    RebuildFlattened(a, depth);
    RebuildFlattened(b, depth);
  }

  // ---------------------------------------------------------------------- subtrees

  /** The node at position `k` of the flat list, counting in the order of a walk. */
  function NodeAt(tree: seq<Department>, k: nat): Option<Department> {
    if tree == [] then None
    else if k == 0 then Some(tree[0])
    else
      var below := |FlattenDepartments(tree[0].children, 0)|;
      if k <= below then NodeAt(tree[0].children, k - 1) else NodeAt(tree[1..], k - 1 - below)
  }

  function Ids(flat: seq<Entry>): seq<string> {
    seq(|flat|, i requires 0 <= i < |flat| => flat[i].id)
  }

  lemma {:induction false} FlatSize(tree: seq<Department>, a: nat, b: nat)
    ensures |FlattenDepartments(tree, a)| == |FlattenDepartments(tree, b)|
    decreases tree
  {
    if tree != [] {
      FlatSize(tree[0].children, a + 1, b + 1);
      FlatSize(tree[1..], a, b);
    }
  }

  lemma IdsOfParts(first: Entry, below: seq<Entry>, rest: seq<Entry>)
    ensures Ids([first] + below) == [first.id] + Ids(below)
    ensures Ids([first] + below + rest) == [first.id] + Ids(below) + Ids(rest)
  {
  }

  /** The ids of a forest are those of its flat list, in order. */
  lemma {:induction false} ForestIds(tree: seq<Department>, depth: nat)
    ensures CollectForestIds(tree) == Ids(FlattenDepartments(tree, depth))
    decreases tree
  {
    if tree != [] {
      var below, rest := FlattenDepartments(tree[0].children, depth + 1), FlattenDepartments(tree[1..], depth);
      ForestIds(tree[0].children, depth + 1);
      ForestIds(tree[1..], depth);
      assert FlattenDepartments(tree, depth) == [Entry(tree[0].id, depth)] + below + rest;
      IdsOfParts(Entry(tree[0].id, depth), below, rest);
    }
  }

  /** What `CollectDepartmentSubtreeIds` gives for a node is the block of the flat list
      from that node up to the next entry that is no deeper than it. */
  ghost predicate IsBlock(flat: seq<Entry>, k: nat, node: Department)
    requires k < |flat|
  {
    && flat[k].id == node.id
    && CollectDepartmentSubtreeIds(node) == Ids(flat[k..BlockEnd(flat, k + 1, flat[k].depth)])
  }

  /** A block stays one when the list is put behind others and before shallower ones. */
  lemma BlockInContext(before: seq<Entry>, flat: seq<Entry>, after: seq<Entry>, k: nat, node: Department)
    requires k < |flat| && IsBlock(flat, k, node)
    requires after != [] ==> after[0].depth <= flat[k].depth
    ensures IsBlock(before + flat + after, |before| + k, node)
  {
    var all, end := before + flat + after, BlockEnd(flat, k + 1, flat[k].depth);
    assert all[|before| + k] == flat[k];
    forall i | |before| + k + 1 <= i < |before| + end
      ensures all[i].depth > flat[k].depth
    {
      assert all[i] == flat[i - |before|];
    }
    if |before| + end < |all| {
      assert all[|before| + end] == if end < |flat| then flat[end] else after[0];
    }
    BlockEndIs(all, |before| + k + 1, flat[k].depth, |before| + end);
    assert all[|before| + k..|before| + end] == flat[k..end];
  }

  lemma RootIsBlock(tree: seq<Department>, depth: nat)
    requires tree != []
    ensures IsBlock(FlattenDepartments(tree, depth), 0, tree[0])
  {
    hide Ids, BlockEnd;
    var flat := FlattenDepartments(tree, depth);
    var below, rest := FlattenDepartments(tree[0].children, depth + 1), FlattenDepartments(tree[1..], depth);
    FirstBlock(tree, depth);
    ForestIds(tree[0].children, depth + 1);
    assert flat[0..1 + |below|] == [Entry(tree[0].id, depth)] + below;
    IdsOfParts(Entry(tree[0].id, depth), below, rest);
  }

  lemma BelowIsBlock(tree: seq<Department>, depth: nat, k: nat, node: Department)
    requires tree != [] && k < |FlattenDepartments(tree[0].children, depth + 1)|
    requires IsBlock(FlattenDepartments(tree[0].children, depth + 1), k, node)
    ensures IsBlock(FlattenDepartments(tree, depth), k + 1, node)
  {
    hide IsBlock;
    BlockInContext([Entry(tree[0].id, depth)], FlattenDepartments(tree[0].children, depth + 1),
                   FlattenDepartments(tree[1..], depth), k, node);
  }

  lemma RestIsBlock(tree: seq<Department>, depth: nat, k: nat, node: Department)
    requires tree != [] && k < |FlattenDepartments(tree[1..], depth)|
    requires IsBlock(FlattenDepartments(tree[1..], depth), k, node)
    ensures IsBlock(FlattenDepartments(tree, depth), 1 + |FlattenDepartments(tree[0].children, depth + 1)| + k, node)
  {
    hide IsBlock;
    var before := [Entry(tree[0].id, depth)] + FlattenDepartments(tree[0].children, depth + 1);
    BlockInContext(before, FlattenDepartments(tree[1..], depth), [], k, node);
    assert before + FlattenDepartments(tree[1..], depth) + [] == FlattenDepartments(tree, depth);
  }

  /** Every subtree is a contiguous block of the flat list. */
  lemma {:induction false} SubtreesAreBlocks(tree: seq<Department>, depth: nat, k: nat)
    requires k < |FlattenDepartments(tree, depth)|
    ensures NodeAt(tree, k).Some? && IsBlock(FlattenDepartments(tree, depth), k, NodeAt(tree, k).value)
    decreases tree
  {
    hide IsBlock;
    var below := |FlattenDepartments(tree[0].children, depth + 1)|;
    FlatSize(tree[0].children, 0, depth + 1);
    if k == 0 {
      RootIsBlock(tree, depth);
    } else if k <= below {
      SubtreesAreBlocks(tree[0].children, depth + 1, k - 1);
      BelowIsBlock(tree, depth, k - 1, NodeAt(tree[0].children, k - 1).value);
    } else {
      SubtreesAreBlocks(tree[1..], depth, k - 1 - below);
      RestIsBlock(tree, depth, k - 1 - below, NodeAt(tree[1..], k - 1 - below).value);
    }
  }

  // ------------------------------------------------------------------------ depths

  lemma NodeFirst(tree: seq<Department>)
    requires tree != []
    ensures NodeAt(tree, 0) == Some(tree[0])
  {
  }

  lemma NodeBelow(tree: seq<Department>, k: nat)
    requires tree != [] && k < |FlattenDepartments(tree[0].children, 0)|
    ensures NodeAt(tree, k + 1) == NodeAt(tree[0].children, k)
  {
    hide FlattenDepartments;
  }

  lemma NodeBeside(tree: seq<Department>, k: nat)
    requires tree != []
    ensures NodeAt(tree, 1 + |FlattenDepartments(tree[0].children, 0)| + k) == NodeAt(tree[1..], k)
  {
    hide FlattenDepartments;
  }

  /** Where the entries and nodes of the first tree are, and those of the others. */
  lemma EntryBelow(tree: seq<Department>, depth: nat, k: nat)
    requires tree != [] && k < |FlattenDepartments(tree[0].children, depth + 1)|
    ensures k + 1 < |FlattenDepartments(tree, depth)|
    ensures FlattenDepartments(tree, depth)[k + 1] == FlattenDepartments(tree[0].children, depth + 1)[k]
    ensures NodeAt(tree, k + 1) == NodeAt(tree[0].children, k)
  {
    hide FlattenDepartments, NodeAt;
    FlatSize(tree[0].children, 0, depth + 1);
    NodeBelow(tree, k);
    FirstBlock(tree, depth);
    var flat, below := FlattenDepartments(tree, depth), FlattenDepartments(tree[0].children, depth + 1);
    assert flat[1..1 + |below|][k] == flat[k + 1];
  }

  lemma EntryBeside(tree: seq<Department>, depth: nat, k: nat)
    requires tree != [] && k < |FlattenDepartments(tree[1..], depth)|
    ensures var at := 1 + |FlattenDepartments(tree[0].children, depth + 1)| + k;
      && at < |FlattenDepartments(tree, depth)|
      && FlattenDepartments(tree, depth)[at] == FlattenDepartments(tree[1..], depth)[k]
      && NodeAt(tree, at) == NodeAt(tree[1..], k)
  {
    hide FlattenDepartments, NodeAt;
    FlatSize(tree[0].children, 0, depth + 1);
    NodeBeside(tree, k);
    FirstBlock(tree, depth);
    SliceAt(FlattenDepartments(tree, depth), 1 + |FlattenDepartments(tree[0].children, depth + 1)|, k, FlattenDepartments(tree[1..], depth));
  }

  lemma SliceAt(flat: seq<Entry>, n: nat, k: nat, rest: seq<Entry>)
    requires n <= |flat| && flat[n..] == rest && k < |rest|
    ensures n + k < |flat| && flat[n + k] == rest[k]
  {
  }

  lemma Sizes(tree: seq<Department>, depth: nat)
    requires tree != []
    ensures |FlattenDepartments(tree, depth)| ==
      1 + |FlattenDepartments(tree[0].children, depth + 1)| + |FlattenDepartments(tree[1..], depth)|
  {
  }

  /** An entry at the base depth is a root. */
  lemma {:induction false} RootAt(tree: seq<Department>, depth: nat, k: nat)
    requires k < |FlattenDepartments(tree, depth)| && FlattenDepartments(tree, depth)[k].depth == depth
    ensures NodeAt(tree, k).Some? && NodeAt(tree, k).value in tree
    decreases tree
  {
    hide FlattenDepartments, NodeAt;
    if k == 0 {
      NodeFirst(tree);
    } else {
      Sizes(tree, depth);
      var below := |FlattenDepartments(tree[0].children, depth + 1)|;
      if k > below {
        EntryBeside(tree, depth, k - 1 - below);
        RootAt(tree[1..], depth, k - 1 - below);
      } else {
        EntryBelow(tree, depth, k - 1);
      }
    }
  }

  /** The nearest entry before `k` that is less deep is `j`, less deep by one, and the node at
      `k` is a child of the node at `j`. */
  ghost predicate Above(tree: seq<Department>, depth: nat, j: nat, k: nat) {
    var flat := FlattenDepartments(tree, depth);
    && j < k < |flat| && flat[j].depth + 1 == flat[k].depth
    && (forall i :: j < i < k ==> flat[i].depth >= flat[k].depth)
    && NodeAt(tree, j).Some? && NodeAt(tree, k).Some? && NodeAt(tree, k).value in NodeAt(tree, j).value.children
  }

  lemma AboveBelow(tree: seq<Department>, depth: nat, j: nat, k: nat)
    requires tree != [] && Above(tree[0].children, depth + 1, j, k)
    ensures Above(tree, depth, j + 1, k + 1)
  {
    hide FlattenDepartments, NodeAt;
    EntryBelow(tree, depth, j);
    EntryBelow(tree, depth, k);
    forall i | j + 1 < i < k + 1
      ensures FlattenDepartments(tree, depth)[i].depth >= FlattenDepartments(tree, depth)[k + 1].depth
    {
      EntryBelow(tree, depth, i - 1);
    }
  }

  lemma AboveBeside(tree: seq<Department>, depth: nat, j: nat, k: nat)
    requires tree != [] && Above(tree[1..], depth, j, k)
    ensures var before := 1 + |FlattenDepartments(tree[0].children, depth + 1)|; Above(tree, depth, before + j, before + k)
  {
    hide FlattenDepartments, NodeAt;
    var before := 1 + |FlattenDepartments(tree[0].children, depth + 1)|;
    EntryBeside(tree, depth, j);
    EntryBeside(tree, depth, k);
    forall i | before + j < i < before + k
      ensures FlattenDepartments(tree, depth)[i].depth >= FlattenDepartments(tree, depth)[before + k].depth
    {
      EntryBeside(tree, depth, i - before);
    }
  }

  lemma RootIsAbove(tree: seq<Department>, depth: nat, k: nat)
    requires tree != [] && k < |FlattenDepartments(tree[0].children, depth + 1)|
    requires FlattenDepartments(tree[0].children, depth + 1)[k].depth == depth + 1
    ensures Above(tree, depth, 0, k + 1)
  {
    hide FlattenDepartments, NodeAt;
    RootAt(tree[0].children, depth + 1, k);
    EntryBelow(tree, depth, k);
    NodeFirst(tree);
    forall i | 0 < i < k + 1
      ensures FlattenDepartments(tree, depth)[i].depth >= FlattenDepartments(tree, depth)[k + 1].depth
    {
      EntryBelow(tree, depth, i - 1);
    }
  }

  /** Depths count levels: an entry that is no root is listed below its parent, which is the
      nearest entry before it that is less deep, and less deep by one. */
  lemma {:induction false} ParentAbove(tree: seq<Department>, depth: nat, k: nat) returns (j: nat)
    requires k < |FlattenDepartments(tree, depth)| && FlattenDepartments(tree, depth)[k].depth > depth
    ensures Above(tree, depth, j, k)
    decreases tree
  {
    hide FlattenDepartments, NodeAt, Above;
    Sizes(tree, depth);
    var below := |FlattenDepartments(tree[0].children, depth + 1)|;
    if k > below {
      EntryBeside(tree, depth, k - 1 - below);
      j := ParentAbove(tree[1..], depth, k - 1 - below);
      AboveBeside(tree, depth, j, k - 1 - below);
      j := 1 + below + j;
    } else {
      EntryBelow(tree, depth, k - 1);
      if FlattenDepartments(tree[0].children, depth + 1)[k - 1].depth == depth + 1 {
        RootIsAbove(tree, depth, k - 1);
        j := 0;
      } else {
        j := ParentAbove(tree[0].children, depth + 1, k - 1);
        AboveBelow(tree, depth, j, k - 1);
        j := j + 1;
      }
    }
  }
}
