/**
 * Widgets as abstract ids in a parent tree, and the walk up the parent chain
 * that the auto-hide container's event filter uses to decide whether a mouse
 * press happened inside the dock container.
 */
module Widgets {
  import opened Wrappers

  type WidgetId = nat

  /**
   * `parent` maps a widget to its parent widget (a top-level widget has none).
   * `rank` witnesses that the chain is finite: every parent ranks below its child.
   */
  datatype WidgetTree = WidgetTree(parent: map<WidgetId, WidgetId>, rank: map<WidgetId, nat>) {

    predicate Valid() {
      forall w :: w in parent ==> w in rank && parent[w] in rank && rank[parent[w]] < rank[w]
    }

    /** Upper bound on the number of steps left in the walk from `w`. */
    function Height(w: WidgetId): nat
      requires Valid()
    {
      if w in parent then rank[w] + 1 else 0
    }

    /** QWidget::parentWidget */
    function ParentOf(w: WidgetId): (r: Option<WidgetId>)
      requires Valid()
      ensures r.Some? ==> Height(r.value) < Height(w)
    {
      if w in parent then Some(parent[w]) else None
    }

    /** The widgets the walk visits from `w`: `w` itself, then its parents in order. */
    function ParentChain(w: WidgetId): (r: seq<WidgetId>)
      requires Valid()
      decreases Height(w)
    {
      [w] + match ParentOf(w) case None => [] case Some(p) => ParentChain(p)
    }

    /** `a` is `w` or one of its ancestors. */
    predicate IsAncestorOrSelf(a: WidgetId, w: WidgetId)
      requires Valid()
      decreases Height(w)
    {
      a == w || (w in parent && IsAncestorOrSelf(a, parent[w]))
    }
  }

  /** The watched object is a widget inside `container` (inclusive). */
  predicate WatchedInContainer(tree: WidgetTree, watched: Option<WidgetId>, container: Option<WidgetId>)
    requires tree.Valid()
  {
    container.Some? && watched.Some? && container.value in tree.ParentChain(watched.value)
  }

  /**
   * The `while (widget)` loop of eventFilter: walk from the watched widget to
   * the top of its chain and note whether the dock container was passed.
   * `watched` is None when the watched object is not a widget; `container` is
   * None when there is no dock container.
   */
  method IsInContainer(tree: WidgetTree, watched: Option<WidgetId>, container: Option<WidgetId>)
    returns (isContainer: bool)
    requires tree.Valid()
    ensures isContainer == WatchedInContainer(tree, watched, container)
  {
    var widget := watched;
    isContainer := false;
    while widget.Some?
      invariant (isContainer || WatchedInContainer(tree, widget, container))
        == WatchedInContainer(tree, watched, container)
      decreases if widget.Some? then tree.Height(widget.value) + 1 else 0
    {
      if Some(widget.value) == container {
        isContainer := true;
      }
      widget := tree.ParentOf(widget.value);
    }
  }

  /** The chain the loop visits holds exactly the widget and its ancestors. */
  lemma {:induction false} ParentChainIsAncestry(tree: WidgetTree, a: WidgetId, w: WidgetId)
    requires tree.Valid()
    ensures a in tree.ParentChain(w) <==> tree.IsAncestorOrSelf(a, w)
    decreases tree.Height(w)
  {
    if w in tree.parent {
      ParentChainIsAncestry(tree, a, tree.parent[w]);
    }
  }

  /** Being inside is inherited along the parent chain. */
  lemma {:induction false} AncestorTransitive(tree: WidgetTree, a: WidgetId, b: WidgetId, c: WidgetId)
    requires tree.Valid()
    requires tree.IsAncestorOrSelf(a, b) && tree.IsAncestorOrSelf(b, c)
    ensures tree.IsAncestorOrSelf(a, c)
    decreases tree.Height(c)
  {
    if b != c {
      AncestorTransitive(tree, a, b, tree.parent[c]);
    }
  }

  /** A press on a descendant of a widget inside the container is inside the container. */
  lemma DescendantInContainer(tree: WidgetTree, container: WidgetId, inner: WidgetId, w: WidgetId)
    requires tree.Valid()
    requires WatchedInContainer(tree, Some(inner), Some(container))
    requires tree.IsAncestorOrSelf(inner, w)
    ensures WatchedInContainer(tree, Some(w), Some(container))
  {
    ParentChainIsAncestry(tree, container, inner);
    AncestorTransitive(tree, container, inner, w);
    ParentChainIsAncestry(tree, container, w);
  }
}
