/**
 * The toolkit-independent rules of the auto-hide container, as functions of
 * plain values: where and how large the overlay is, which component of the
 * preferred size a side uses, the size inherited from the previous dock
 * area, the resize handle's limit, and the visibility state machine.
 */
module AutoHideRules {
  import opened Wrappers
  import opened Geometry
  import opened SideBar
  import opened Widgets

  /** Qt::Orientation of the resize handle. */
  datatype Orientation = Horizontal | Vertical

  /** The dock container widget the overlay covers, and its content rectangle. */
  datatype DockContainer = DockContainer(id: WidgetId, contentRect: Rect)

  /** The minimum size the constructor gives the resize handle. */
  const HandleMinResizeSize: int := 64

  /** The overlay touches the content rectangle along the side bar's edge and its ends. */
  predicate AttachedToSideBar(area: SideBarLocation, g: Rect, content: Rect) {
    match area
    case SideBarTop => g.TopLeft() == content.TopLeft()
    case SideBarLeft => g.TopLeft() == content.TopLeft()
    case SideBarRight => g.top == content.top && g.Right() == content.Right()
    case SideBarBottom => g.left == content.left && g.Bottom() == content.Bottom()
    case SideBarNone => true
  }

  /**
   * The geometry updateSize gives the overlay: resize first, then move to a
   * corner of the content rectangle computed from the new size.
   * None: the location is missing and nothing is changed.
   */
  function OverlayGeometry(area: SideBarLocation, content: Rect, preferred: Size): (r: Option<Rect>)
    ensures r.None? <==> area == SideBarNone
    ensures r.Some? && IsHorizontalArea(area) ==>
      r.value.width == content.width && r.value.height == Min(content.height - ResizeMargin, preferred.height)
    ensures r.Some? && !IsHorizontalArea(area) ==>
      r.value.height == content.height && r.value.width == Min(preferred.width, content.width - ResizeMargin)
    ensures r.Some? ==> AttachedToSideBar(area, r.value, content)
  {
    match area
    case SideBarTop =>
      var h := Min(content.height - ResizeMargin, preferred.height);
      var p := content.TopLeft();
      Some(Rect(p.x, p.y, content.width, h))
    case SideBarLeft =>
      var w := Min(preferred.width, content.width - ResizeMargin);
      var p := content.TopLeft();
      Some(Rect(p.x, p.y, w, content.height))
    case SideBarRight =>
      var w := Min(preferred.width, content.width - ResizeMargin);
      var p := content.TopRight();
      Some(Rect(p.x - (w - 1), p.y, w, content.height))
    case SideBarBottom =>
      var h := Min(content.height - ResizeMargin, preferred.height);
      var p := content.BottomLeft();
      Some(Rect(p.x, p.y - (h - 1), content.width, h))
    case SideBarNone => None
  }

  /**
   * The geometry after updateSize: unchanged without a dock container or
   * without a side bar location, the overlay geometry otherwise.
   */
  function UpdatedGeometry(dc: Option<DockContainer>, area: SideBarLocation, preferred: Size, current: Rect): (r: Rect)
    ensures dc.None? || area == SideBarNone ==> r == current
    ensures dc.Some? && area != SideBarNone ==> AttachedToSideBar(area, r, dc.value.contentRect)
  {
    match dc
    case None => current
    case Some(c) =>
      match OverlayGeometry(area, c.contentRect, preferred)
      case None => current
      case Some(g) => g
  }

  /** The component of the preferred size a side uses, and that saveState writes as "Size". */
  function PersistedSize(area: SideBarLocation, s: Size): int {
    if IsHorizontalArea(area) then s.height else s.width
  }

  /** The component of the preferred size a side ignores. */
  function IgnoredSize(area: SideBarLocation, s: Size): int {
    if IsHorizontalArea(area) then s.width else s.height
  }

  /** The extent of an overlay across its side bar: its height for top and bottom, its width otherwise. */
  function OverlayExtent(area: SideBarLocation, g: Rect): int {
    PersistedSize(area, g.Extent())
  }

  /**
   * setSize: the preferred size after setting it to `n`. The component the side
   * persists becomes `n`; the other is untouched.
   */
  function PreferredAfterSetSize(area: SideBarLocation, s: Size, n: int): (r: Size)
    ensures PersistedSize(area, r) == n
    ensures IgnoredSize(area, r) == IgnoredSize(area, s)
  {
    if IsHorizontalArea(area) then s.(height := n) else s.(width := n)
  }

  /**
   * The preferred size after addDockWidget: the previous dock area's size
   * grown by 16 on both axes, if the widget came from a dock area and the
   * manager is not restoring state; the current preferred size otherwise.
   */
  function InheritedSize(current: Size, oldDockArea: Option<Size>, isRestoringState: bool): (r: Size)
    ensures oldDockArea.Some? && !isRestoringState ==>
      r.width == oldDockArea.value.width + 16 && r.height == oldDockArea.value.height + 16
    ensures oldDockArea.None? || isRestoringState ==> r == current
  {
    if oldDockArea.Some? && !isRestoringState then oldDockArea.value.Plus(Size(16, 16)) else current
  }

  /** updateResizeHandleSizeLimitMax: the content extent along the handle's orientation, less the margin. */
  function HandleMaxResizeSize(content: Rect, o: Orientation): int {
    (if o == Horizontal then content.width else content.height) - ResizeMargin
  }

  /**
   * The orientation a resize handle has on the edge opposite the side bar:
   * it moves vertically for a top or bottom bar and horizontally otherwise.
   */
  function ExpectedHandleOrientation(area: SideBarLocation): Orientation {
    if IsHorizontalArea(area) then Vertical else Horizontal
  }

  //----------------------------------------------------------------------------
  // Lemmas about the geometry rule

  /** Setting the persisted component to what it already is changes nothing. */
  lemma SetSizeOfPersistedSize(area: SideBarLocation, s: Size)
    ensures PreferredAfterSetSize(area, s, PersistedSize(area, s)) == s
  {
  }

  /** The overlay depends on the preferred size only through its persisted component. */
  lemma OverlayUsesPersistedSizeOnly(area: SideBarLocation, content: Rect, s: Size, t: Size)
    requires PersistedSize(area, s) == PersistedSize(area, t)
    ensures OverlayGeometry(area, content, s) == OverlayGeometry(area, content, t)
  {
  }

  /**
   * With room for the margin and a non-negative preferred size, the overlay
   * lies within the content rectangle and leaves the margin uncovered.
   */
  lemma OverlayInsideContent(area: SideBarLocation, content: Rect, preferred: Size)
    requires area != SideBarNone
    requires content.width >= ResizeMargin && content.height >= ResizeMargin
    requires preferred.width >= 0 && preferred.height >= 0
    ensures var g := OverlayGeometry(area, content, preferred).value;
      g.Inside(content) && OverlayExtent(area, g) <= OverlayExtent(area, content) - ResizeMargin
  {
  }

  /** A preferred size that fits is used exactly: setSize(n) makes an overlay of extent n. */
  lemma OverlayHonoursSetSize(area: SideBarLocation, content: Rect, s: Size, n: int)
    requires area != SideBarNone
    requires n <= OverlayExtent(area, content) - ResizeMargin
    ensures OverlayExtent(area, OverlayGeometry(area, content, PreferredAfterSetSize(area, s, n)).value) == n
  {
  }

  /** The overlay's extent is the persisted size capped by the resize handle's maximum. */
  lemma HandleLimitCapsOverlay(area: SideBarLocation, content: Rect, preferred: Size)
    requires area != SideBarNone
    ensures OverlayExtent(area, OverlayGeometry(area, content, preferred).value)
      == Min(PersistedSize(area, preferred), HandleMaxResizeSize(content, ExpectedHandleOrientation(area)))
  {
  }

  /** Running updateSize a second time changes nothing. */
  lemma UpdateSizeIdempotent(dc: Option<DockContainer>, area: SideBarLocation, preferred: Size, current: Rect)
    ensures var g := UpdatedGeometry(dc, area, preferred, current);
      UpdatedGeometry(dc, area, preferred, g) == g
  {
  }

  //----------------------------------------------------------------------------
  // The visibility state machine

  datatype Visibility = Visibility(containerVisible: bool, tabVisible: bool, filterInstalled: bool)

  /** The state right after construction: the container starts hidden. */
  const InitialVisibility: Visibility := Visibility(false, false, false)

  /** The application event filter is installed exactly while the overlay is shown. */
  predicate Consistent(v: Visibility) {
    v.containerVisible == v.filterInstalled
  }

  /** collapseView(enable) */
  function CollapsedView(v: Visibility, enable: bool): Visibility {
    if enable then v.(containerVisible := false, filterInstalled := false)
    else v.(containerVisible := true, filterInstalled := true)
  }

  /** toggleCollapseState: collapse when visible, expand when hidden. */
  function ToggledCollapseState(v: Visibility): Visibility {
    CollapsedView(v, v.containerVisible)
  }

  /** toggleView(enable) */
  function ToggledView(v: Visibility, enable: bool): Visibility {
    if enable then v.(tabVisible := true)
    else Visibility(false, false, false)
  }

  lemma InitialVisibilityConsistent()
    ensures Consistent(InitialVisibility) && !InitialVisibility.containerVisible
  {
  }

  /** Collapsing hides and removes the filter; expanding shows and installs it; the tab is untouched. */
  lemma CollapseViewEffect(v: Visibility, enable: bool)
    ensures var r := CollapsedView(v, enable);
      r.containerVisible == !enable && r.filterInstalled == !enable && r.tabVisible == v.tabVisible
  {
  }

  /** toggleCollapseState flips visibility and keeps the filter in step with it. */
  lemma ToggleCollapseStateFlips(v: Visibility)
    ensures var r := ToggledCollapseState(v);
      r.containerVisible == !v.containerVisible && Consistent(r) && r.tabVisible == v.tabVisible
  {
  }

  /** Toggling the collapse state twice restores a consistent state. */
  lemma ToggleCollapseStateTwice(v: Visibility)
    requires Consistent(v)
    ensures ToggledCollapseState(ToggledCollapseState(v)) == v
  {
  }

  /** toggleView(false) hides everything; toggleView(true) shows only the tab. */
  lemma ToggleViewEffect(v: Visibility)
    ensures ToggledView(v, false) == InitialVisibility
    ensures var r := ToggledView(v, true);
      r.tabVisible && r.containerVisible == v.containerVisible && r.filterInstalled == v.filterInstalled
  {
  }

  /** Every operation of the state machine keeps a consistent state consistent. */
  lemma ConsistencyPreserved(v: Visibility, enable: bool)
    requires Consistent(v)
    ensures Consistent(CollapsedView(v, enable))
    ensures Consistent(ToggledCollapseState(v))
    ensures Consistent(ToggledView(v, enable))
  {
  }

  //----------------------------------------------------------------------------
  // The "click outside collapses" rule of eventFilter

  /**
   * A mouse press collapses the overlay exactly when it is inside the dock
   * container's widget tree, outside the overlay and outside its side tab
   * (positions are in the overlay's and the tab's local coordinates).
   */
  predicate PressCollapses(inContainer: bool, overlay: Size, posInOverlay: Point, tab: Size, posInTab: Point) {
    inContainer && !LocalRect(overlay).Contains(posInOverlay) && !LocalRect(tab).Contains(posInTab)
  }
}
