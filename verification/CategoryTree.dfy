/**
 Building the category tree from parent pointers. Rows come from a table, so
 ids are distinct, but parent pointers may dangle or form cycles.
 */
module CategoryTree {
  import opened Prelude

  datatype Category = Category(id: int, name: string, parentId: Option<int>, slug: string, image: Option<string>)

  datatype Node = Node(id: int, name: string, slug: string, image: string, children: seq<Node>)

  ghost predicate DifferentIds(categories: seq<Category>, i: nat, j: nat)
    requires i < |categories| && j < |categories|
  {
    categories[i].id != categories[j].id
  }

  ghost predicate DistinctIds(categories: seq<Category>) {
    forall i, j :: 0 <= i < j < |categories| ==> DifferentIds(categories, i, j)
  }

  // ------------------------------------------------------- chains of parents

  /** Indices of categories from the children of `root` downwards, each the parent of the next. */
  ghost predicate IsChain(categories: seq<Category>, root: Option<int>, chain: seq<nat>) {
    && (forall k :: 0 <= k < |chain| ==> chain[k] < |categories|)
    && (|chain| > 0 ==> categories[chain[0]].parentId == root)
    && (forall j, k :: 0 <= j < k < |chain| && k == j + 1 ==> Linked(categories, chain[j], chain[k]))
  }

  ghost predicate Linked(categories: seq<Category>, parent: nat, child: nat) {
    parent < |categories| && child < |categories| && categories[child].parentId == Some(categories[parent].id)
  }

  /** The parent whose children come next after the chain. */
  function Below(categories: seq<Category>, root: Option<int>, chain: seq<nat>): Option<int>
    requires forall k :: 0 <= k < |chain| ==> chain[k] < |categories|
  {
    if chain == [] then root else Some(categories[chain[|chain| - 1]].id)
  }

  /** Following parent pointers down from `root` leads back to it. */
  ghost predicate OnCycle(categories: seq<Category>, root: Option<int>) {
    exists chain {:trigger IsChain(categories, root, chain)} ::
      IsChain(categories, root, chain) && |chain| > 0 && Below(categories, root, chain) == root
  }

  ghost predicate Acyclic(categories: seq<Category>, root: Option<int>) {
    DistinctIds(categories) && !OnCycle(categories, root)
  }

  lemma NullIsOnNoCycle(categories: seq<Category>)
    ensures !OnCycle(categories, None)
  {
  }

  lemma ChainExtends(categories: seq<Category>, root: Option<int>, chain: seq<nat>, i: nat)
    requires IsChain(categories, root, chain) && i < |categories| && categories[i].parentId == Below(categories, root, chain)
    ensures IsChain(categories, root, chain + [i])
  {
  }

  lemma SameId(categories: seq<Category>, i: nat, j: nat)
    requires DistinctIds(categories) && i < |categories| && j < |categories|
    ensures categories[i].id == categories[j].id <==> i == j
  {
    assert i < j ==> DifferentIds(categories, i, j);
    assert j < i ==> DifferentIds(categories, j, i);
  }

  /** No category on a chain is the parent the chain starts below. */
  lemma NeverBackAtRoot(categories: seq<Category>, root: Option<int>, chain: seq<nat>, k: nat)
    requires Acyclic(categories, root) && IsChain(categories, root, chain) && k < |chain|
    ensures Some(categories[chain[k]].id) != root
  {
    var shorter := chain[..k + 1];
    assert IsChain(categories, root, shorter) && Below(categories, root, shorter) == Some(categories[chain[k]].id);
  }

  /** Along a chain no category repeats, even if parent pointers are cyclic elsewhere. */
  lemma {:induction false} ChainNeverRepeats(categories: seq<Category>, root: Option<int>, chain: seq<nat>, j: nat, k: nat)
    requires Acyclic(categories, root) && IsChain(categories, root, chain) && j < k < |chain|
    ensures chain[j] != chain[k]
  {
    assert categories[chain[k]].parentId == Some(categories[chain[k - 1]].id);
    if j > 0 {
      ChainNeverRepeats(categories, root, chain, j - 1, k - 1);
      SameId(categories, chain[j - 1], chain[k - 1]);
    } else {
      NeverBackAtRoot(categories, root, chain, k - 1);
    }
  }

  lemma {:induction false} DistinctFit(s: seq<nat>, n: nat) returns (elements: set<nat>)
    requires forall k :: 0 <= k < |s| ==> s[k] < n
    requires forall j, k :: 0 <= j < k < |s| ==> s[j] != s[k]
    ensures |elements| == |s| && forall x :: x in elements <==> x in s
  {
    if s == [] {
      elements := {};
    } else {
      var before := DistinctFit(s[..|s| - 1], n);
      elements := before + {s[|s| - 1]};
      assert s == s[..|s| - 1] + [s[|s| - 1]];
    }
  }

  lemma {:induction false} BelowSize(elements: set<nat>, n: nat)
    requires forall x :: x in elements ==> x < n
    ensures |elements| <= n
  {
    if n > 0 {
      BelowSize(elements - {n - 1}, n - 1);
    } else {
      assert elements == {};
    }
  }

  /** A chain is no longer than the table. */
  lemma ChainLength(categories: seq<Category>, root: Option<int>, chain: seq<nat>)
    requires Acyclic(categories, root) && IsChain(categories, root, chain)
    ensures |chain| <= |categories|
  {
    forall j: nat, k: nat | j < k < |chain|
      ensures chain[j] != chain[k]
    {
      ChainNeverRepeats(categories, root, chain, j, k);
    }
    var elements := DistinctFit(chain, |categories|);
    BelowSize(elements, |categories|);
  }

  /** A category has at most one chain. */
  lemma {:induction false} ChainUnique(categories: seq<Category>, root: Option<int>, a: seq<nat>, b: seq<nat>)
    requires Acyclic(categories, root) && IsChain(categories, root, a) && IsChain(categories, root, b)
    requires |a| > 0 && |b| > 0 && a[|a| - 1] == b[|b| - 1]
    ensures a == b
    decreases |a|
  {
    assert |a| > 1 ==> categories[a[|a| - 1]].parentId == Some(categories[a[|a| - 2]].id);
    assert |b| > 1 ==> categories[b[|b| - 1]].parentId == Some(categories[b[|b| - 2]].id);
    if |a| > 1 && |b| > 1 {
      SameId(categories, a[|a| - 2], b[|b| - 2]);
      ChainUnique(categories, root, a[..|a| - 1], b[..|b| - 1]);
      assert a == a[..|a| - 1] + [a[|a| - 1]];
      assert b == b[..|b| - 1] + [b[|b| - 1]];
    } else if |a| > 1 {
      NeverBackAtRoot(categories, root, a, |a| - 2);
    } else if |b| > 1 {
      NeverBackAtRoot(categories, root, b, |b| - 2);
    }
  }

  // --------------------------------------------------------------- the tree

  /** Indices of the children of `parent` among the first `n` rows, in input order. */
  function ChildIndices(categories: seq<Category>, parent: Option<int>, n: nat): seq<nat>
    requires n <= |categories|
  {
    Positions(categories[..n], (c: Category) => c.parentId == parent)
  }

  lemma ChildIndicesFine(categories: seq<Category>, parent: Option<int>, n: nat)
    requires n <= |categories|
    ensures Increasing(ChildIndices(categories, parent, n))
    ensures forall i: nat :: i in ChildIndices(categories, parent, n) <==> i < n && categories[i].parentId == parent
  {
    PositionsFine(categories[..n], (c: Category) => c.parentId == parent);
  }

  lemma OneMoreRow(categories: seq<Category>, parent: Option<int>, i: nat)
    requires i < |categories|
    ensures ChildIndices(categories, parent, i + 1)
         == ChildIndices(categories, parent, i) + if categories[i].parentId == parent then [i] else []
  {
    assert categories[..i + 1][..i] == categories[..i];
  }

  predicate Shows(node: Node, c: Category) {
    node.id == c.id && node.name == c.name && node.slug == c.slug
    && node.image == (if c.image.Some? then c.image.value else "")
  }

  /** The forest holds exactly the children of `parent` among the first `n` rows, in order, each with its own children. */
  ghost predicate Faithful(categories: seq<Category>, parent: Option<int>, n: nat, tree: seq<Node>)
    requires n <= |categories|
    decreases tree
  {
    var indices := ChildIndices(categories, parent, n);
    && |tree| == |indices|
    && forall k :: 0 <= k < |tree| ==>
         && indices[k] < |categories|
         && Shows(tree[k], categories[indices[k]])
         && Faithful(categories, Some(tree[k].id), |categories|, tree[k].children)
  }

  /**
   One call of `buildTree`, some way below the parent that the tree is built for.
   The recursion ends because it follows a chain, and a chain repeats no category.
   */
  method BuildBelow(categories: seq<Category>, parent: Option<int>, ghost root: Option<int>, ghost chain: seq<nat>)
    returns (tree: seq<Node>)
    requires Acyclic(categories, root) && IsChain(categories, root, chain) && parent == Below(categories, root, chain)
    ensures Faithful(categories, parent, |categories|, tree)
    decreases |categories| - |chain|
  {
    tree := [];
    ChainLength(categories, root, chain);
    for i := 0 to |categories|
      invariant Faithful(categories, parent, i, tree)
    {
      var item := categories[i];
      OneMoreRow(categories, parent, i);
      if item.parentId == parent {
        ChainExtends(categories, root, chain, i);
        ChainLength(categories, root, chain + [i]);
        var children := BuildBelow(categories, Some(item.id), root, chain + [i]);
        var node := Node(item.id, item.name, item.slug, if item.image.Some? then item.image.value else "", children);
        FaithfulOneMore(categories, parent, i, tree, node);
        tree := tree + [node];
      }
    }
  }

  /** `buildTree` for any parent, in the table or not, that is on no cycle. */
  method BuildTree(categories: seq<Category>, parent: Option<int>) returns (tree: seq<Node>)
    requires Acyclic(categories, parent)
    ensures Faithful(categories, parent, |categories|, tree)
    ensures forall i :: 0 <= i < |categories| ==>
              Occurrences(tree, categories[i].id) == if Descends(categories, parent, i) then 1 else 0
  {
    tree := BuildBelow(categories, parent, parent, []);
    forall i | 0 <= i < |categories|
      ensures Occurrences(tree, categories[i].id) == if Descends(categories, parent, i) then 1 else 0
    {
      TreeContents(categories, parent, tree, i);
    }
  }

  lemma FaithfulOneMore(categories: seq<Category>, parent: Option<int>, i: nat, tree: seq<Node>, node: Node)
    requires i < |categories| && categories[i].parentId == parent
    requires Faithful(categories, parent, i, tree)
    requires Shows(node, categories[i]) && Faithful(categories, Some(node.id), |categories|, node.children)
    ensures Faithful(categories, parent, i + 1, tree + [node])
  {
    var longer := tree + [node];
    var indices := ChildIndices(categories, parent, i + 1);
    OneMoreRow(categories, parent, i);
    forall k | 0 <= k < |longer|
      ensures indices[k] < |categories| && Shows(longer[k], categories[indices[k]])
      ensures Faithful(categories, Some(longer[k].id), |categories|, longer[k].children)
    {
      if k < |tree| {
        assert longer[k] == tree[k];
      }
    }
  }

  /** The tree of the whole table, for which no parent pointers are bad. */
  method BuildRootTree(categories: seq<Category>) returns (tree: seq<Node>)
    requires DistinctIds(categories)
    ensures Faithful(categories, None, |categories|, tree)
    ensures forall i :: 0 <= i < |categories| ==>
              Occurrences(tree, categories[i].id) == if Descends(categories, None, i) then 1 else 0
  {
    NullIsOnNoCycle(categories);
    tree := BuildTree(categories, None);
  }

  // ------------------------------------------------ when the recursion ends

  /** The chains along which calls nest below a parent have a bound. */
  ghost predicate RecursionEnds(categories: seq<Category>, root: Option<int>) {
    exists bound: nat :: NestsUpTo(categories, root, bound)
  }

  ghost predicate NestsUpTo(categories: seq<Category>, root: Option<int>, bound: nat) {
    forall chain {:trigger IsChain(categories, root, chain)} :: IsChain(categories, root, chain) ==> |chain| <= bound
  }

  lemma JoinChains(categories: seq<Category>, root: Option<int>, a: seq<nat>, b: seq<nat>)
    requires IsChain(categories, root, a) && IsChain(categories, root, b) && Below(categories, root, a) == root
    ensures IsChain(categories, root, a + b)
    ensures Below(categories, root, b) == root ==> Below(categories, root, a + b) == root
  {
  }

  /** From a parent on a cycle, calls nest deeper than any bound. */
  lemma {:induction false} CyclesNest(categories: seq<Category>, root: Option<int>, cycle: seq<nat>, n: nat) returns (chain: seq<nat>)
    requires IsChain(categories, root, cycle) && |cycle| > 0 && Below(categories, root, cycle) == root
    ensures IsChain(categories, root, chain) && Below(categories, root, chain) == root && |chain| >= n
  {
    if n == 0 {
      chain := [];
    } else {
      var shorter := CyclesNest(categories, root, cycle, n - 1);
      chain := cycle + shorter;
      JoinChains(categories, root, cycle, shorter);
    }
  }

  /** `buildTree` ends if and only if its parent is on no cycle of parent pointers, whatever the rest of the table. */
  lemma EndsIffOnNoCycle(categories: seq<Category>, root: Option<int>)
    requires DistinctIds(categories)
    ensures RecursionEnds(categories, root) <==> !OnCycle(categories, root)
  {
    if OnCycle(categories, root) {
      var cycle :| IsChain(categories, root, cycle) && |cycle| > 0 && Below(categories, root, cycle) == root;
      forall bound: nat
        ensures !NestsUpTo(categories, root, bound)
      {
        var chain := CyclesNest(categories, root, cycle, bound + 1);
        assert IsChain(categories, root, chain) && |chain| > bound;
      }
    } else {
      forall chain | IsChain(categories, root, chain)
        ensures |chain| <= |categories|
      {
        ChainLength(categories, root, chain);
      }
      assert NestsUpTo(categories, root, |categories|);
    }
  }

  // ------------------------------------------------------ what the tree holds

  /** How many nodes of the forest have this id, at any depth. */
  ghost function Occurrences(tree: seq<Node>, id: int): nat
    decreases tree
  {
    if tree == [] then 0
    else
      var last := tree[|tree| - 1];
      Occurrences(tree[..|tree| - 1], id) + (if last.id == id then 1 else 0) + Occurrences(last.children, id)
  }

  /** The category's parent pointers lead to `root`; for null, to a category without a parent. */
  ghost predicate Descends(categories: seq<Category>, root: Option<int>, i: nat) {
    exists chain {:trigger IsChain(categories, root, chain)} ::
      IsChain(categories, root, chain) && |chain| > 0 && chain[|chain| - 1] == i
  }

  ghost function ChainOf(categories: seq<Category>, root: Option<int>, i: nat): seq<nat>
    requires Descends(categories, root, i)
  {
    var chain :| IsChain(categories, root, chain) && |chain| > 0 && chain[|chain| - 1] == i;
    chain
  }

  /** The category is in the forest below the chain. */
  ghost predicate Under(categories: seq<Category>, root: Option<int>, chain: seq<nat>, i: nat) {
    Descends(categories, root, i) && chain < ChainOf(categories, root, i)
  }

  lemma UnderStep(categories: seq<Category>, root: Option<int>, chain: seq<nat>, c: nat, i: nat)
    requires Acyclic(categories, root) && IsChain(categories, root, chain + [c]) && i < |categories|
    ensures (if c == i then 1 else 0) + (if Under(categories, root, chain + [c], i) then 1 else 0)
         == if Under(categories, root, chain, i) && ChainOf(categories, root, i)[|chain|] == c then 1 else 0
  {
    var longer := chain + [c];
    if c == i {
      assert longer[|longer| - 1] == i;
      assert Descends(categories, root, i);
      ChainUnique(categories, root, longer, ChainOf(categories, root, i));
    }
    if Descends(categories, root, i) {
      var all := ChainOf(categories, root, i);
      if chain < all && all[|chain|] == c {
        assert all[..|chain| + 1] == longer;
        if |all| == |longer| {
          assert all == longer;
        }
      }
      if longer < all {
        assert all[|chain|] == c;
        assert chain < all;
      }
    }
  }

  /** The category's chain goes on, below `chain`, with one of these categories. */
  ghost predicate GoesOnWith(categories: seq<Category>, root: Option<int>, chain: seq<nat>, i: nat, next: seq<nat>) {
    Under(categories, root, chain, i) && ChainOf(categories, root, i)[|chain|] in next
  }

  lemma GoesOnOneMore(categories: seq<Category>, root: Option<int>, chain: seq<nat>, i: nat, next: seq<nat>, c: nat)
    requires Acyclic(categories, root) && IsChain(categories, root, chain + [c]) && i < |categories| && c !in next
    ensures (if GoesOnWith(categories, root, chain, i, next + [c]) then 1 else 0)
         == (if GoesOnWith(categories, root, chain, i, next) then 1 else 0)
          + (if c == i then 1 else 0) + (if Under(categories, root, chain + [c], i) then 1 else 0)
  {
    UnderStep(categories, root, chain, c, i);
  }

  /** A forest of the first `n` rows that the algorithm has built below a chain. */
  ghost predicate Grown(categories: seq<Category>, root: Option<int>, chain: seq<nat>, n: nat, tree: seq<Node>) {
    && Acyclic(categories, root) && IsChain(categories, root, chain) && n <= |categories|
    && Faithful(categories, Below(categories, root, chain), n, tree)
  }

  /** The categories of its first `m` trees. */
  ghost function FirstTrees(categories: seq<Category>, root: Option<int>, chain: seq<nat>, n: nat, m: nat): seq<nat>
    requires IsChain(categories, root, chain) && n <= |categories|
  {
    var indices := ChildIndices(categories, Below(categories, root, chain), n);
    if m <= |indices| then indices[..m] else indices
  }

  /** The trees hold the category once if its chain goes on with one of `next`, else not at all. */
  ghost predicate HoldsOnward(categories: seq<Category>, root: Option<int>, chain: seq<nat>, trees: seq<Node>, next: seq<nat>, i: nat) {
    i < |categories| && Occurrences(trees, categories[i].id) == if GoesOnWith(categories, root, chain, i, next) then 1 else 0
  }

  lemma {:induction false} ForestContents(categories: seq<Category>, root: Option<int>, chain: seq<nat>, n: nat, tree: seq<Node>, m: nat, i: nat)
    requires Grown(categories, root, chain, n, tree) && m <= |tree| && i < |categories|
    ensures HoldsOnward(categories, root, chain, tree[..m], FirstTrees(categories, root, chain, n, m), i)
    decreases |categories| - |chain|, m
  {
    if m > 0 {
      var c := ChildOfTree(categories, root, chain, n, tree, m - 1);
      ForestContents(categories, root, chain, n, tree, m - 1, i);
      ChildForest(categories, root, chain + [c], tree[m - 1].children, i);
      ForestGrows(categories, root, chain, n, tree, m, c, i);
    } else {
      NoTrees(categories, root, chain, n, tree, i);
    }
  }

  lemma NoTrees(categories: seq<Category>, root: Option<int>, chain: seq<nat>, n: nat, tree: seq<Node>, i: nat)
    requires IsChain(categories, root, chain) && n <= |categories| && i < |categories|
    ensures HoldsOnward(categories, root, chain, tree[..0], FirstTrees(categories, root, chain, n, 0), i)
  {
  }

  /** From the first `m - 1` trees, and what tree `m` holds below its root, to the first `m`. */
  lemma ForestGrows(categories: seq<Category>, root: Option<int>, chain: seq<nat>, n: nat, tree: seq<Node>, m: nat, c: nat, i: nat)
    requires 0 < m && i < |categories| && IsTreeOf(categories, root, chain, n, tree, m - 1, c)
    requires HoldsOnward(categories, root, chain, tree[..m - 1], FirstTrees(categories, root, chain, n, m - 1), i)
    requires Occurrences(tree[m - 1].children, categories[i].id) == if Under(categories, root, chain + [c], i) then 1 else 0
    ensures HoldsOnward(categories, root, chain, tree[..m], FirstTrees(categories, root, chain, n, m), i)
  {
    ForestOneMore(categories, root, chain, tree[..m - 1], tree[m - 1], FirstTrees(categories, root, chain, n, m - 1), c, i);
    assert tree[..m] == tree[..m - 1] + [tree[m - 1]];
  }

  /** A whole forest holds the category once if its chain goes on below it, else not at all. */
  lemma {:induction false} ChildForest(categories: seq<Category>, root: Option<int>, chain: seq<nat>, tree: seq<Node>, i: nat)
    requires Grown(categories, root, chain, |categories|, tree) && i < |categories|
    ensures Occurrences(tree, categories[i].id) == if Under(categories, root, chain, i) then 1 else 0
    decreases |categories| - |chain|, |tree| + 1
  {
    ForestContents(categories, root, chain, |categories|, tree, |tree|, i);
    assert tree[..|tree|] == tree;
    WholeForest(categories, root, chain, tree, i);
  }

  /** Tree `k` is that of category `c`, which no tree before it is. */
  ghost predicate IsTreeOf(categories: seq<Category>, root: Option<int>, chain: seq<nat>, n: nat, tree: seq<Node>, k: nat, c: nat) {
    && Acyclic(categories, root) && IsChain(categories, root, chain) && IsChain(categories, root, chain + [c])
    && n <= |categories| && k < |tree| && c < |categories| && tree[k].id == categories[c].id
    && FirstTrees(categories, root, chain, n, k + 1) == FirstTrees(categories, root, chain, n, k) + [c]
    && c !in FirstTrees(categories, root, chain, n, k)
  }

  lemma ChildOfTree(categories: seq<Category>, root: Option<int>, chain: seq<nat>, n: nat, tree: seq<Node>, k: nat) returns (c: nat)
    requires Grown(categories, root, chain, n, tree) && k < |tree|
    ensures IsTreeOf(categories, root, chain, n, tree, k, c) && |chain| < |categories|
    ensures Grown(categories, root, chain + [c], |categories|, tree[k].children)
  {
    c := ChildIndices(categories, Below(categories, root, chain), n)[k];
    FreshChild(categories, root, chain, n, k);
    ChainLength(categories, root, chain + [c]);
  }

  /** One more tree, of a new category, holds what its root and the forest below it hold. */
  lemma ForestOneMore(categories: seq<Category>, root: Option<int>, chain: seq<nat>, trees: seq<Node>, node: Node, next: seq<nat>, c: nat, i: nat)
    requires Acyclic(categories, root) && IsChain(categories, root, chain + [c]) && i < |categories| && c < |categories|
    requires c !in next && node.id == categories[c].id
    requires HoldsOnward(categories, root, chain, trees, next, i)
    requires Occurrences(node.children, categories[i].id) == if Under(categories, root, chain + [c], i) then 1 else 0
    ensures HoldsOnward(categories, root, chain, trees + [node], next + [c], i)
  {
    assert (trees + [node])[..|trees|] == trees;
    SameId(categories, c, i);
    GoesOnOneMore(categories, root, chain, i, next, c);
  }

  lemma FreshChild(categories: seq<Category>, root: Option<int>, chain: seq<nat>, n: nat, k: nat)
    requires IsChain(categories, root, chain) && n <= |categories|
    requires k < |ChildIndices(categories, Below(categories, root, chain), n)|
    ensures var indices := ChildIndices(categories, Below(categories, root, chain), n);
            && indices[k] < |categories|
            && IsChain(categories, root, chain + [indices[k]])
            && Below(categories, root, chain + [indices[k]]) == Some(categories[indices[k]].id)
            && indices[k] !in indices[..k]
  {
    var indices := ChildIndices(categories, Below(categories, root, chain), n);
    ChildIndicesFine(categories, Below(categories, root, chain), n);
    assert indices[k] in indices;
    ChainExtends(categories, root, chain, indices[k]);
  }

  /** Where a chain continues, it continues with a child of its last category, and so with a tree of the whole forest. */
  lemma WholeForest(categories: seq<Category>, root: Option<int>, chain: seq<nat>, tree: seq<Node>, i: nat)
    requires Grown(categories, root, chain, |categories|, tree)
    ensures Under(categories, root, chain, i)
       <==> GoesOnWith(categories, root, chain, i, FirstTrees(categories, root, chain, |categories|, |tree|))
  {
    var indices := ChildIndices(categories, Below(categories, root, chain), |categories|);
    ChildIndicesFine(categories, Below(categories, root, chain), |categories|);
    assert indices[..|indices|] == indices;
    if Under(categories, root, chain, i) {
      var all := ChainOf(categories, root, i);
      assert all[..|chain|] == chain;
    }
  }

  /** The tree holds each category that descends from its parent exactly once, and no other category. */
  lemma TreeContents(categories: seq<Category>, root: Option<int>, tree: seq<Node>, i: nat)
    requires Acyclic(categories, root) && Faithful(categories, root, |categories|, tree) && i < |categories|
    ensures Occurrences(tree, categories[i].id) == if Descends(categories, root, i) then 1 else 0
  {
    ChildForest(categories, root, [], tree, i);
  }

  /** Every node is a category. */
  lemma {:induction false} OnlyCategories(categories: seq<Category>, parent: Option<int>, n: nat, tree: seq<Node>, m: nat, id: int)
    requires n <= |categories| && Faithful(categories, parent, n, tree) && m <= |tree|
    requires forall i :: 0 <= i < |categories| ==> categories[i].id != id
    ensures Occurrences(tree[..m], id) == 0
    decreases tree, m
  {
    if m > 0 {
      OnlyCategories(categories, parent, n, tree, m - 1, id);
      var node := tree[m - 1];
      OnlyCategories(categories, Some(node.id), |categories|, node.children, |node.children|, id);
      assert node.children[..|node.children|] == node.children;
      assert tree[..m][..m - 1] == tree[..m - 1];
    }
  }
}
