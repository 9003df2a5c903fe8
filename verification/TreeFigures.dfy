/** A tree's figure, added up node by node, against the flat sum over its threads, and exactly when their lines agree. */
module TreeFigures {
  import opened Common
  import opened ThreadTree
  import opened Figures
  import opened UsageTree

  /** Every thread's own figure, computed on demand. */
  type Own = map<string, Figure>

  ghost predicate HasAll(own: Own, ids: seq<string>) {
    forall id :: id in ids ==> id in own && IsOwnFigure(own[id])
  }

  /** A thread's own figure: in step, and with no line but those with tokens or dollars. */
  ghost predicate IsOwnFigure(f: Figure) { FigureOk(f) && AllListed(f.byModel) }

  ghost function FiguresOf(own: Own, ids: seq<string>): seq<Figure>
    requires HasAll(own, ids)
  {
    seq(|ids|, i requires 0 <= i < |ids| => own[ids[i]])
  }

  /** The keys of these threads' lines that come to another key when counted again. */
  ghost function Unstable(own: Own, ids: seq<string>): set<string>
    requires HasAll(own, ids)
  {
    set id, key | id in ids && key in Keys(own[id].byModel) && !IsOwnKey(key) :: key
  }

  /**
   * The figure is the flat sum over the threads, the first of which is the
   * root: their totals always, and their lines on every key exactly when none
   * below the root has a key that moves. A line's name that is no key of its
   * own is cut down from a thread's key that is none.
   */
  ghost predicate IsFlatSum(figure: Figure, own: Own, ids: seq<string>)
    requires HasAll(own, ids)
  {
    && FigureOk(figure) && ids != []
    && figure.totals == SumTotals(FiguresOf(own, ids))
    && ComesDown(figure, Unstable(own, ids))
    && (AllFlatOn(figure, own, ids) <==> Unstable(own, ids[1..]) == {})
  }

  ghost predicate ComesDown(figure: Figure, unstable: set<string>) {
    forall name :: name in Names(figure.byModel) && !IsOwnKey(name) ==> CutFrom(name, unstable)
  }

  ghost predicate CutFrom(name: string, unstable: set<string>) { exists key :: key in unstable && |name| <= |key| }

  ghost predicate AllFlatOn(figure: Figure, own: Own, ids: seq<string>)
    requires HasAll(own, ids)
  {
    forall key :: FlatOn(figure, own, ids, key)
  }

  ghost predicate FlatOn(figure: Figure, own: Own, ids: seq<string>, key: string)
    requires HasAll(own, ids)
  {
    SumNamed(figure.byModel, key) == SumFiguresOn(FiguresOf(own, ids), key)
  }

  /** The children's figures, each the flat sum over its subtree. */
  ghost predicate AllFlat(figures: seq<Figure>, own: Own, nodes: seq<TreeNode>) {
    && |figures| == |nodes|
    && forall i :: 0 <= i < |nodes| ==> figures[i] in FlatSums(own, nodes[i])
  }

  ghost function FlatSums(own: Own, node: TreeNode): iset<Figure> { iset figure: Figure | IsFlatNode(figure, own, node) }

  ghost predicate IsFlatNode(figure: Figure, own: Own, node: TreeNode) {
    HasAll(own, NodeIds(node)) && IsFlatSum(figure, own, NodeIds(node))
  }

  lemma FiguresJoin(own: Own, a: seq<string>, b: seq<string>)
    requires HasAll(own, a) && HasAll(own, b)
    ensures HasAll(own, a + b) && FiguresOf(own, a + b) == FiguresOf(own, a) + FiguresOf(own, b)
  {
  }

  lemma TotalsOneMore(own: Own, ids: seq<string>, figures: seq<Figure>, lastIds: seq<string>, last: Figure)
    requires HasAll(own, ids) && HasAll(own, lastIds)
    requires SumTotals(figures) == SumTotals(FiguresOf(own, ids)) && last.totals == SumTotals(FiguresOf(own, lastIds))
    ensures HasAll(own, ids + lastIds) && SumTotals(figures + [last]) == SumTotals(FiguresOf(own, ids + lastIds))
  {
    FiguresJoin(own, ids, lastIds);
    TotalsJoin(FiguresOf(own, ids), FiguresOf(own, lastIds));
    assert (figures + [last])[..|figures|] == figures;
  }

  lemma KeysOneMore(own: Own, ids: seq<string>, figures: seq<Figure>, lastIds: seq<string>, last: Figure, key: string)
    requires HasAll(own, ids) && HasAll(own, lastIds)
    requires SumFiguresOn(figures, key) == SumFiguresOn(FiguresOf(own, ids), key)
    requires FlatOn(last, own, lastIds, key) && NamesStable(last.byModel)
    ensures HasAll(own, ids + lastIds) && SumFiguresOn(figures + [last], key) == SumFiguresOn(FiguresOf(own, ids + lastIds), key)
  {
    FiguresJoin(own, ids, lastIds);
    KeysJoin(FiguresOf(own, ids), FiguresOf(own, lastIds), key);
    StableNamesKeepTheirLines(last.byModel, key);
    assert (figures + [last])[..|figures|] == figures;
  }

  lemma {:induction false} ForestTotals(own: Own, figures: seq<Figure>, nodes: seq<TreeNode>)
    requires AllFlat(figures, own, nodes)
    ensures HasAll(own, NodesIds(nodes)) && SumTotals(figures) == SumTotals(FiguresOf(own, NodesIds(nodes)))
  {
    if nodes != [] {
      var n := |nodes| - 1;
      AllFlatBut(figures, own, nodes);
      ForestTotals(own, figures[..n], nodes[..n]);
      TotalsOneMore(own, NodesIds(nodes[..n]), figures[..n], NodeIds(nodes[n]), figures[n]);
    }
  }

  lemma AllFlatBut(figures: seq<Figure>, own: Own, nodes: seq<TreeNode>)
    requires AllFlat(figures, own, nodes) && nodes != []
    ensures var n := |nodes| - 1;
      AllFlat(figures[..n], own, nodes[..n]) && figures == figures[..n] + [figures[n]]
      && figures[n] in FlatSums(own, nodes[n])
  {
    LastApart(figures);
  }

  lemma LastApart<T>(s: seq<T>)
    requires s != []
    ensures s == s[..|s| - 1] + [s[|s| - 1]]
  {
  }

  lemma UnstableJoin(own: Own, a: seq<string>, b: seq<string>)
    requires HasAll(own, a) && HasAll(own, b)
    ensures HasAll(own, a + b) && Unstable(own, a + b) == Unstable(own, a) + Unstable(own, b)
  {
    forall key ensures key in Unstable(own, a + b) <==> key in Unstable(own, a) + Unstable(own, b) {
      if key in Unstable(own, a + b) {
        var id :| id in a + b && key in Keys(own[id].byModel) && !IsOwnKey(key);
        assert id in a || id in b;
      }
    }
  }

  /** A child's figure whose threads have no key that moves has stable names. */
  lemma NothingMoves(figure: Figure)
    requires ComesDown(figure, {})
    ensures NamesStable(figure.byModel)
  {
    forall i | 0 <= i < |figure.byModel| ensures IsOwnKey(figure.byModel[i].model) {
      assert figure.byModel[i] in figure.byModel;
      assert !CutFrom(figure.byModel[i].model, {});
    }
  }

  /** With no key that moves below the root, the children's lines are those of the threads below it. */
  lemma {:induction false} ForestOn(own: Own, figures: seq<Figure>, nodes: seq<TreeNode>, key: string)
    requires AllFlat(figures, own, nodes) && HasAll(own, NodesIds(nodes)) && Unstable(own, NodesIds(nodes)) == {}
    ensures SumFiguresOn(figures, key) == SumFiguresOn(FiguresOf(own, NodesIds(nodes)), key)
  {
    if nodes != [] {
      var n := |nodes| - 1;
      var before, last := NodesIds(nodes[..n]), NodeIds(nodes[n]);
      AllFlatBut(figures, own, nodes);
      BeforeHasAll(own, before, last);
      UnstableJoin(own, before, last);
      ForestOn(own, figures[..n], nodes[..n], key);
      LastIsFlat(own, figures[n], last);
      assert FlatOn(figures[n], own, last, key);
      KeysOneMore(own, before, figures[..n], last, figures[n], key);
    }
  }

  lemma BeforeHasAll(own: Own, before: seq<string>, last: seq<string>)
    requires HasAll(own, before + last)
    ensures HasAll(own, before) && HasAll(own, last)
  {
    forall id | id in before ensures id in before + last {}
    forall id | id in last ensures id in before + last {}
  }

  lemma LastIsFlat(own: Own, figure: Figure, ids: seq<string>)
    requires HasAll(own, ids) && IsFlatSum(figure, own, ids) && Unstable(own, ids) == {}
    ensures NamesStable(figure.byModel) && AllFlatOn(figure, own, ids)
  {
    NothingMoves(figure);
    assert ids == [ids[0]] + ids[1..];
    BeforeHasAll(own, [ids[0]], ids[1..]);
    UnstableJoin(own, [ids[0]], ids[1..]);
  }

  // ---- a key that moves ----

  lemma {:induction false} Longest(keys: set<string>) returns (longest: string)
    requires keys != {}
    ensures longest in keys && forall key :: key in keys ==> |key| <= |longest|
    decreases keys
  {
    var one :| one in keys;
    if keys == {one} {
      longest := one;
    } else {
      var other := Longest(keys - {one});
      longest := if |one| > |other| then one else other;
    }
  }

  /** No line of a figure comes to the longest key that moves: it was counted on it once, and has moved. */
  lemma LongestIsLeft(figure: Figure, unstable: set<string>, key: string)
    requires ComesDown(figure, unstable) && !IsOwnKey(key) && forall other :: other in unstable ==> |other| <= |key|
    ensures SumOnKey(figure.byModel, key) == ZERO_COUNTED
  {
    forall i | 0 <= i < |figure.byModel| ensures ModelKey(Some(figure.byModel[i].model)) != key {
      var name := figure.byModel[i].model;
      assert figure.byModel[i] in figure.byModel;
      KeyIsNoLonger(name);
      assert IsOwnKey("unknown") && (IsOwnKey(name) || CutFrom(name, unstable));
    }
    NothingOnKey(figure.byModel, key);
  }

  /** So the children's figures have nothing on it. */
  lemma ForestLeaves(own: Own, figures: seq<Figure>, nodes: seq<TreeNode>, key: string)
    requires AllFlat(figures, own, nodes) && HasAll(own, NodesIds(nodes))
    requires !IsOwnKey(key) && forall other :: other in Unstable(own, NodesIds(nodes)) ==> |other| <= |key|
    ensures SumFiguresOn(figures, key) == ZERO_COUNTED
  {
    forall i | 0 <= i < |figures| ensures figures[i] in LeftBy(key) {
      UnstableIn(own, nodes, i);
      FlatComesDown(own, figures[i], nodes[i]);
      LongestIsLeft(figures[i], Unstable(own, NodeIds(nodes[i])), key);
    }
    NothingInAny(figures, key);
  }

  /** The figures with nothing on a key. */
  ghost function LeftBy(key: string): iset<Figure> { iset figure: Figure | SumOnKey(figure.byModel, key) == ZERO_COUNTED }

  lemma FlatComesDown(own: Own, figure: Figure, node: TreeNode)
    requires figure in FlatSums(own, node)
    ensures HasAll(own, NodeIds(node)) && ComesDown(figure, Unstable(own, NodeIds(node)))
  {
  }

  lemma {:induction false} NothingInAny(figures: seq<Figure>, key: string)
    requires forall i :: 0 <= i < |figures| ==> figures[i] in LeftBy(key)
    ensures SumFiguresOn(figures, key) == ZERO_COUNTED
  {
    if figures != [] {
      NothingInAny(figures[..|figures| - 1], key);
      NothingOnTop(SumFiguresOn(figures[..|figures| - 1], key), SumOnKey(figures[|figures| - 1].byModel, key));
    }
  }

  lemma NothingOnTop(sum: Counted, last: Counted)
    requires last == ZERO_COUNTED
    ensures PlusCounted(sum, last) == sum
  {
    CountedAddsUp(sum, ZERO_COUNTED, ZERO_COUNTED);
  }

  lemma {:induction false} FiguresCount(figures: seq<Figure>, i: nat, key: string)
    requires forall k :: 0 <= k < |figures| ==> IsOwnFigure(figures[k])
    requires i < |figures| && key in Keys(figures[i].byModel)
    ensures TotalCounted(SumFiguresOn(figures, key)) > 0
  {
    var last := |figures| - 1;
    OnKeyCounts(figures[last].byModel, key);
    if i < last { FiguresCount(figures[..last], i, key); }
  }

  /** But the threads have. */
  lemma ThreadsCount(own: Own, ids: seq<string>, key: string)
    requires HasAll(own, ids) && key in Unstable(own, ids)
    ensures TotalCounted(SumFiguresOn(FiguresOf(own, ids), key)) > 0
  {
    var id :| id in ids && key in Keys(own[id].byModel) && !IsOwnKey(key);
    var i :| 0 <= i < |ids| && ids[i] == id;
    FiguresCount(FiguresOf(own, ids), i, key);
  }

  lemma SameMore(a: Counted, b: Counted, c: Counted)
    requires PlusCounted(a, b) == PlusCounted(a, c)
    ensures TotalCounted(b) == TotalCounted(c)
  {
  }

  /** On every key a node's figure and the flat sum differ by what its children's figures and the threads below do. */
  lemma NodeOn(own: Own, node: TreeNode, figures: seq<Figure>, figure: Figure, key: string)
    requires HasAll(own, [node.threadId]) && HasAll(own, NodesIds(node.children))
    requires IsSumOf(figure, [own[node.threadId]] + figures)
    ensures HasAll(own, NodeIds(node))
    ensures var own1 := SumFiguresOn([own[node.threadId]], key);
      && SumNamed(figure.byModel, key) == PlusCounted(own1, SumFiguresOn(figures, key))
      && SumFiguresOn(FiguresOf(own, NodeIds(node)), key) == PlusCounted(own1, SumFiguresOn(FiguresOf(own, NodesIds(node.children)), key))
  {
    var root, below := [node.threadId], NodesIds(node.children);
    FiguresJoin(own, root, below);
    assert FiguresOf(own, root) == [own[node.threadId]];
    KeysJoin(FiguresOf(own, root), figures, key);
    KeysJoin(FiguresOf(own, root), FiguresOf(own, below), key);
  }

  /** A key that moves below the root leaves some line of the tree's figure short. */
  lemma MovedLine(own: Own, node: TreeNode, figures: seq<Figure>, figure: Figure)
    requires HasAll(own, [node.threadId]) && HasAll(own, NodesIds(node.children)) && AllFlat(figures, own, node.children)
    requires IsSumOf(figure, [own[node.threadId]] + figures)
    requires Unstable(own, NodesIds(node.children)) != {}
    ensures HasAll(own, NodeIds(node)) && exists key :: !FlatOn(figure, own, NodeIds(node), key)
  {
    var key := Longest(Unstable(own, NodesIds(node.children)));
    ForestLeaves(own, figures, node.children, key);
    ThreadsCount(own, NodesIds(node.children), key);
    NodeOn(own, node, figures, figure, key);
    if FlatOn(figure, own, NodeIds(node), key) {
      SameMore(SumFiguresOn([own[node.threadId]], key), ZERO_COUNTED, SumFiguresOn(FiguresOf(own, NodesIds(node.children)), key));
    }
  }

  /** Without one every line of it is the threads'. */
  lemma NoMovedLine(own: Own, node: TreeNode, figures: seq<Figure>, figure: Figure)
    requires HasAll(own, [node.threadId]) && HasAll(own, NodesIds(node.children)) && AllFlat(figures, own, node.children)
    requires IsSumOf(figure, [own[node.threadId]] + figures)
    requires Unstable(own, NodesIds(node.children)) == {}
    ensures HasAll(own, NodeIds(node)) && forall key :: FlatOn(figure, own, NodeIds(node), key)
  {
    FiguresJoin(own, [node.threadId], NodesIds(node.children));
    forall key ensures FlatOn(figure, own, NodeIds(node), key) {
      ForestOn(own, figures, node.children, key);
      NodeOn(own, node, figures, figure, key);
    }
  }

  /** A name of the children's figures that is no key of its own is cut down from one of their threads' keys. */
  lemma ForestComesDown(own: Own, figures: seq<Figure>, nodes: seq<TreeNode>, i: nat, name: string)
    requires AllFlat(figures, own, nodes) && HasAll(own, NodesIds(nodes)) && i < |figures|
    requires name in Keys(figures[i].byModel) && !IsOwnKey(name)
    ensures CutFrom(name, Unstable(own, NodesIds(nodes)))
  {
    UnstableIn(own, nodes, i);
    FlatComesDown(own, figures[i], nodes[i]);
    KeyCutFrom(figures[i], Unstable(own, NodeIds(nodes[i])), name);
  }

  lemma KeyCutFrom(figure: Figure, unstable: set<string>, name: string)
    requires ComesDown(figure, unstable) && name in Keys(figure.byModel) && !IsOwnKey(name)
    ensures CutFrom(name, unstable)
  {
    var l :| l in figure.byModel && ModelKey(Some(l.model)) == name;
    assert l.model in Names(figure.byModel);
    KeyIsNoLonger(l.model);
    assert IsOwnKey("unknown") && (IsOwnKey(l.model) || CutFrom(l.model, unstable));
    var key :| key in unstable && |l.model| <= |key|;
  }

  lemma {:induction false} UnstableIn(own: Own, nodes: seq<TreeNode>, i: nat)
    requires HasAll(own, NodesIds(nodes)) && i < |nodes|
    ensures HasAll(own, NodeIds(nodes[i])) && Unstable(own, NodeIds(nodes[i])) <= Unstable(own, NodesIds(nodes))
  {
    var n := |nodes| - 1;
    BeforeHasAll(own, NodesIds(nodes[..n]), NodeIds(nodes[n]));
    UnstableJoin(own, NodesIds(nodes[..n]), NodeIds(nodes[n]));
    if i < n { UnstableIn(own, nodes[..n], i); }
  }

  lemma NodeComesDown(own: Own, node: TreeNode, figures: seq<Figure>, name: string)
    requires HasAll(own, [node.threadId]) && HasAll(own, NodesIds(node.children)) && AllFlat(figures, own, node.children)
    requires name in KeysOf([own[node.threadId]] + figures) && !IsOwnKey(name)
    ensures HasAll(own, NodeIds(node)) && CutFrom(name, Unstable(own, NodeIds(node)))
  {
    UnstableJoin(own, [node.threadId], NodesIds(node.children));
    if name in Keys(own[node.threadId].byModel) {
      OwnUnstable(own, node.threadId, name);
      assert CutFrom(name, Unstable(own, [node.threadId]));
    } else {
      var at := KeyOfOther(own[node.threadId], figures, name);
      ForestComesDown(own, figures, node.children, at, name);
    }
  }

  lemma KeyOfOther(first: Figure, figures: seq<Figure>, name: string) returns (i: nat)
    requires name in KeysOf([first] + figures) && name !in Keys(first.byModel)
    ensures i < |figures| && name in Keys(figures[i].byModel)
  {
    var at := KeyIsOfOne([first] + figures, name);
    i := at - 1;
  }

  lemma OwnUnstable(own: Own, id: string, key: string)
    requires HasAll(own, [id]) && key in Keys(own[id].byModel) && !IsOwnKey(key)
    ensures key in Unstable(own, [id])
  {
    assert id in [id];
  }

  /**
   * A node's own figure and its children's, added up, are the flat sum over
   * its subtree, line by line exactly when no key below the node moves.
   */
  lemma NodeIsFlat(own: Own, node: TreeNode, figures: seq<Figure>, figure: Figure)
    requires HasAll(own, [node.threadId]) && AllFlat(figures, own, node.children)
    requires IsSumOf(figure, [own[node.threadId]] + figures) && FigureOk(figure)
    requires Names(figure.byModel) <= KeysOf([own[node.threadId]] + figures)
    ensures HasAll(own, NodeIds(node)) && IsFlatSum(figure, own, NodeIds(node))
  {
    var below := NodesIds(node.children);
    ForestTotals(own, figures, node.children);
    NodeTotals(own, node, figures);
    forall name | name in Names(figure.byModel) && !IsOwnKey(name) ensures CutFrom(name, Unstable(own, NodeIds(node))) {
      NodeComesDown(own, node, figures, name);
    }
    assert NodeIds(node)[1..] == below;
    if Unstable(own, below) == {} {
      NoMovedLine(own, node, figures, figure);
    } else {
      MovedLine(own, node, figures, figure);
    }
  }

  lemma NodeTotals(own: Own, node: TreeNode, figures: seq<Figure>)
    requires HasAll(own, [node.threadId]) && HasAll(own, NodesIds(node.children))
    requires SumTotals(figures) == SumTotals(FiguresOf(own, NodesIds(node.children)))
    ensures HasAll(own, NodeIds(node)) && SumTotals([own[node.threadId]] + figures) == SumTotals(FiguresOf(own, NodeIds(node)))
  {
    var root, below := [node.threadId], NodesIds(node.children);
    FiguresJoin(own, root, below);
    assert FiguresOf(own, root) == [own[node.threadId]];
    TotalsJoin(FiguresOf(own, root), figures);
    TotalsJoin(FiguresOf(own, root), FiguresOf(own, below));
  }

  lemma {:induction false} NodesHaveAll(own: Own, nodes: seq<TreeNode>, i: nat)
    requires HasAll(own, NodesIds(nodes)) && i < |nodes|
    ensures HasAll(own, NodeIds(nodes[i]))
  {
    var n := |nodes| - 1;
    assert forall id :: id in NodesIds(nodes[..n]) || id in NodeIds(nodes[n]) ==> id in NodesIds(nodes);
    if i < n { NodesHaveAll(own, nodes[..n], i); }
  }

  lemma RootHas(own: Own, node: TreeNode)
    requires HasAll(own, NodeIds(node))
    ensures HasAll(own, [node.threadId]) && HasAll(own, NodesIds(node.children))
  {
    assert NodeIds(node)[0] == node.threadId;
    assert forall id :: id in NodesIds(node.children) ==> id in NodeIds(node);
  }

  lemma AllFlatAreOk(own: Own, root: string, figures: seq<Figure>, nodes: seq<TreeNode>)
    requires HasAll(own, [root]) && AllFlat(figures, own, nodes)
    ensures AllOk([own[root]] + figures)
  {
    assert [root][0] in [root];
  }

  /** A node's figure: its own and its children's, added up from the leaves. */
  method Post(node: TreeNode, own: Own) returns (figure: Figure)
    requires HasAll(own, NodeIds(node))
    ensures IsFlatSum(figure, own, NodeIds(node))
    decreases node, 1
  {
    RootHas(own, node);
    var figures := PostAll(node.children, own);
    AllFlatAreOk(own, node.threadId, figures, node.children);
    figure := SumFigures([own[node.threadId]] + figures);
    NodeIsFlat(own, node, figures, figure);
  }

  lemma FlatOneMore(figures: seq<Figure>, own: Own, nodes: seq<TreeNode>, one: Figure, node: TreeNode)
    requires AllFlat(figures, own, nodes) && IsFlatNode(one, own, node)
    ensures AllFlat(figures + [one], own, nodes + [node])
  {
  }

  method PostNext(nodes: seq<TreeNode>, i: nat, own: Own, figures: seq<Figure>) returns (more: seq<Figure>)
    requires HasAll(own, NodesIds(nodes)) && i < |nodes| && AllFlat(figures, own, nodes[..i])
    ensures AllFlat(more, own, nodes[..i + 1])
    decreases nodes, 0
  {
    NodesHaveAll(own, nodes, i);
    var one := Post(nodes[i], own);
    FlatOneMore(figures, own, nodes[..i], one, nodes[i]);
    assert nodes[..i] + [nodes[i]] == nodes[..i + 1];
    more := figures + [one];
  }

  method PostAll(nodes: seq<TreeNode>, own: Own) returns (figures: seq<Figure>)
    requires HasAll(own, NodesIds(nodes))
    ensures AllFlat(figures, own, nodes)
    decreases nodes, 1
  {
    figures := [];
    for i := 0 to |nodes|
      invariant AllFlat(figures, own, nodes[..i])
    {
      figures := PostNext(nodes, i, own, figures);
    }
    assert nodes[..|nodes|] == nodes;
  }

  /** The figure is the flat sum over the threads of a tree, each once. */
  ghost predicate IsTreeFigure(byId: map<string, EdgeRow>, own: Own, root: string, figure: Figure) {
    exists ids :: IsFlatOver(byId, own, root, ids, figure)
  }

  ghost predicate IsFlatOver(byId: map<string, EdgeRow>, own: Own, root: string, ids: seq<string>, figure: Figure) {
    && ids != [] && ids[0] == root && NoRepeats(ids) && Elements(ids) == Tree(Listing(byId), root)
    && HasAll(own, ids) && IsFlatSum(figure, own, ids)
  }

  ghost predicate OwnsTree(byId: map<string, EdgeRow>, own: Own, root: string) {
    forall id :: id in Tree(Listing(byId), root) ==> id in own && IsOwnFigure(own[id])
  }

  /** The figure of a thread's tree, each of its threads counted once. */
  method TreeFigure(index: EdgeIndex, rootId: string, own: Own) returns (figure: Figure)
    requires IndexOk(index) && OwnsTree(index.byId, own, rootId)
    ensures IsTreeFigure(index.byId, own, rootId, figure)
  {
    var tree := TreeOf(index, rootId);
    ghost var ids := NodeIds(tree);
    assert forall id :: id in ids ==> id in Elements(ids);
    figure := Post(tree, own);
    assert IsFlatOver(index.byId, own, rootId, ids, figure);
  }

  // ---- budgets ----

  function BilledOf(t: Totals): real { t.usd - t.byBilling.subscription.usd }

  /** What is billed for the threads of a tree, each once. */
  ghost predicate IsTreeBilled(byId: map<string, EdgeRow>, own: Own, root: string, usd: real) {
    exists ids :: IsBilledOver(byId, own, root, ids, usd)
  }

  ghost predicate IsBilledOver(byId: map<string, EdgeRow>, own: Own, root: string, ids: seq<string>, usd: real) {
    && NoRepeats(ids) && Elements(ids) == Tree(Listing(byId), root)
    && HasAll(own, ids) && usd == BilledOf(SumTotals(FiguresOf(own, ids)))
  }

  method TreeBilled(index: EdgeIndex, root: string, own: Own) returns (usd: real)
    requires IndexOk(index) && OwnsTree(index.byId, own, root)
    ensures IsTreeBilled(index.byId, own, root, usd)
  {
    var figure := TreeFigure(index, root, own);
    usd := BilledOf(figure.totals);
    ghost var ids :| IsFlatOver(index.byId, own, root, ids, figure);
    assert IsBilledOver(index.byId, own, root, ids, usd);
  }

  method WithAncestors(index: EdgeIndex, threadId: string) returns (ids: seq<string>)
    requires IndexOk(index)
    ensures forall root :: root in ids <==> threadId in Tree(Listing(index.byId), root)
  {
    var above := UsageTree.AncestorIds(index, threadId);
    ids := [threadId] + above;
    forall root ensures root in ids <==> threadId in Tree(Listing(index.byId), root) {
      AncestorsAreItsRoots(index.byId, root, threadId);
    }
  }

  ghost predicate AllBilled(byId: map<string, EdgeRow>, own: Own, totals: map<string, real>) {
    forall root :: root in totals ==> IsTreeBilled(byId, own, root, totals[root])
  }

  /** Budgets are checked for exactly the roots whose tree holds the thread, each by what its tree is billed. */
  method AncestorTotals(index: EdgeIndex, threadId: string, own: Own) returns (totals: map<string, real>)
    requires IndexOk(index) && forall root :: threadId in Tree(Listing(index.byId), root) ==> OwnsTree(index.byId, own, root)
    ensures forall root :: root in totals <==> threadId in Tree(Listing(index.byId), root)
    ensures AllBilled(index.byId, own, totals)
  {
    var ids := WithAncestors(index, threadId);
    totals := map[];
    for i := 0 to |ids|
      invariant forall root :: root in totals <==> root in ids[..i]
      invariant AllBilled(index.byId, own, totals)
    {
      assert ids[i] in ids;
      var usd := TreeBilled(index, ids[i], own);
      totals := totals[ids[i] := usd];
    }
    assert ids[..|ids|] == ids;
  }
}
