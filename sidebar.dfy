/**
 * The side-bar locations of an auto-hide container and the total mappings
 * from a location to the resize edge, the box-layout direction, the
 * position of the resize handle in the layout and the dock area used
 * when the widget is pinned back into the main container.
 */
module SideBar {

  datatype SideBarLocation = SideBarTop | SideBarLeft | SideBarRight | SideBarBottom | SideBarNone

  /** Qt::Edge */
  datatype Edge = TopEdge | LeftEdge | RightEdge | BottomEdge

  datatype DockWidgetArea =
    | NoDockWidgetArea
    | LeftDockWidgetArea
    | RightDockWidgetArea
    | TopDockWidgetArea
    | BottomDockWidgetArea
    | CenterDockWidgetArea

  /** QBoxLayout::Direction, restricted to the two directions used here. */
  datatype BoxDirection = LeftToRight | TopToBottom

  /** The two widgets of the container's box layout. */
  datatype LayoutItem = DockAreaItem | ResizeHandleItem

  /** Reference: the screen edge a real side bar runs along. */
  function SideBarEdge(area: SideBarLocation): Edge
    requires area != SideBarNone
  {
    match area
    case SideBarTop => TopEdge
    case SideBarBottom => BottomEdge
    case SideBarLeft => LeftEdge
    case SideBarRight => RightEdge
  }

  /** Reference: the edge across the container from `e`. */
  function Opposite(e: Edge): Edge {
    match e
    case TopEdge => BottomEdge
    case BottomEdge => TopEdge
    case LeftEdge => RightEdge
    case RightEdge => LeftEdge
  }

  /** Reference: the side bar that carries the name of a dock area. */
  function SideBarOfDockArea(a: DockWidgetArea): SideBarLocation {
    match a
    case LeftDockWidgetArea => SideBarLeft
    case RightDockWidgetArea => SideBarRight
    case TopDockWidgetArea => SideBarTop
    case BottomDockWidgetArea => SideBarBottom
    case _ => SideBarNone
  }

  predicate IsHorizontalEdge(e: Edge) {
    e == TopEdge || e == BottomEdge
  }

  /**
   * isHorizontalArea: a side bar is horizontal when it runs along the top or
   * bottom edge; the missing location counts as horizontal.
   */
  function IsHorizontalArea(area: SideBarLocation): (r: bool)
    ensures area != SideBarNone ==> (r <==> IsHorizontalEdge(SideBarEdge(area)))
    ensures area == SideBarNone ==> r
  {
    match area
    case SideBarTop => true
    case SideBarBottom => true
    case SideBarLeft => false
    case SideBarRight => false
    case SideBarNone => true
  }

  /**
   * edgeFromSideTabBarArea: the edge carrying the resize handle is the one
   * opposite the side bar; the missing location falls back to the left edge.
   */
  function EdgeFromSideTabBarArea(area: SideBarLocation): (r: Edge)
    ensures area != SideBarNone ==> r == Opposite(SideBarEdge(area))
    ensures area == SideBarNone ==> r == LeftEdge
  {
    match area
    case SideBarTop => BottomEdge
    case SideBarBottom => TopEdge
    case SideBarLeft => RightEdge
    case SideBarRight => LeftEdge
    case SideBarNone => LeftEdge
  }

  /**
   * resizeHandleLayoutPosition: the layout index at which the handle is
   * inserted beside the dock area, 1 (after it) exactly when the handle's edge
   * is the bottom or the right one.
   */
  function ResizeHandleLayoutPosition(area: SideBarLocation): (r: int)
    ensures r == 0 || r == 1
    ensures r == 1 <==> EdgeFromSideTabBarArea(area) in {BottomEdge, RightEdge}
  {
    match area
    case SideBarBottom => 0
    case SideBarRight => 0
    case SideBarTop => 1
    case SideBarLeft => 1
    case SideBarNone => 0
  }

  /**
   * getDockWidgetArea: the dock area of the same name as the side bar;
   * the missing location falls back to the left area.
   */
  function GetDockWidgetArea(area: SideBarLocation): (r: DockWidgetArea)
    ensures area != SideBarNone ==> SideBarOfDockArea(r) == area
    ensures area == SideBarNone ==> r == LeftDockWidgetArea
  {
    match area
    case SideBarLeft => LeftDockWidgetArea
    case SideBarRight => RightDockWidgetArea
    case SideBarBottom => BottomDockWidgetArea
    case SideBarTop => TopDockWidgetArea
    case SideBarNone => LeftDockWidgetArea
  }

  /** The direction of the container's box layout, chosen in the constructor. */
  function LayoutDirection(area: SideBarLocation): BoxDirection {
    if IsHorizontalArea(area) then TopToBottom else LeftToRight
  }

  /** QBoxLayout::insertWidget: a negative index appends. */
  function InsertAt(s: seq<LayoutItem>, i: int, x: LayoutItem): (r: seq<LayoutItem>)
    requires i <= |s|
    ensures |r| == |s| + 1
    ensures 0 <= i ==> r[i] == x
    ensures i < 0 ==> r[|s|] == x
    ensures multiset(r) == multiset(s) + multiset{x}
  {
    if i < 0 then s + [x]
    else
      assert s == s[..i] + s[i..];
      s[..i] + [x] + s[i..]
  }

  /** The layout the constructor builds: the dock area, then the handle inserted. */
  function InitialLayout(area: SideBarLocation): (r: seq<LayoutItem>)
    ensures |r| == 2 && multiset(r) == multiset{DockAreaItem, ResizeHandleItem}
    ensures r[ResizeHandleLayoutPosition(area)] == ResizeHandleItem
  {
    InsertAt([DockAreaItem], ResizeHandleLayoutPosition(area), ResizeHandleItem)
  }

  /** The edge of the container that a two-item box layout puts the handle on. */
  function HandleVisualEdge(dir: BoxDirection, layout: seq<LayoutItem>): Edge
    requires |layout| == 2
  {
    var last := layout[1] == ResizeHandleItem;
    match dir
    case TopToBottom => if last then BottomEdge else TopEdge
    case LeftToRight => if last then RightEdge else LeftEdge
  }

  /** For every real side the layout puts the handle on the edge it resizes. */
  lemma HandlePlacementAgreesWithEdge(area: SideBarLocation)
    requires area != SideBarNone
    ensures HandleVisualEdge(LayoutDirection(area), InitialLayout(area)) == EdgeFromSideTabBarArea(area)
  {
  }

  /** The fallbacks for the missing location do not agree with each other. */
  lemma NoneHandlePlacementDisagrees()
    ensures HandleVisualEdge(LayoutDirection(SideBarNone), InitialLayout(SideBarNone))
      != EdgeFromSideTabBarArea(SideBarNone)
  {
  }

  /** A horizontal side bar is resized across a horizontal edge, and back. */
  lemma HorizontalAreaResizesVertically(area: SideBarLocation)
    requires area != SideBarNone
    ensures IsHorizontalArea(area) <==> IsHorizontalEdge(EdgeFromSideTabBarArea(area))
    ensures IsHorizontalArea(area) <==> LayoutDirection(area) == TopToBottom
  {
  }

  /** Distinct real sides get distinct resize edges. */
  lemma EdgeFromSideTabBarAreaInjective(a: SideBarLocation, b: SideBarLocation)
    requires a != SideBarNone && b != SideBarNone
    requires EdgeFromSideTabBarArea(a) == EdgeFromSideTabBarArea(b)
    ensures a == b
  {
  }

  /** Pinning back and auto-hiding again reach the same side bar, for every side area. */
  lemma GetDockWidgetAreaRoundTrip(d: DockWidgetArea)
    requires SideBarOfDockArea(d) != SideBarNone
    ensures GetDockWidgetArea(SideBarOfDockArea(d)) == d
  {
  }
}
