/**
 * The auto-hide dock container: an overlay that covers part of the dock
 * container's content rectangle next to its side bar, with a resize handle
 * on the opposite edge and a tab in the side bar that expands and collapses
 * it.
 */
module AutoHideContainer {
  import opened Wrappers
  import opened Geometry
  import opened SideBar
  import opened Widgets
  import opened AutoHideRules

  /** The kinds of event the container's application event filter reacts to. */
  datatype EventType =
    | Resize
      /** Positions of the press, already mapped into the overlay's and the side tab's coordinates. */
    | MouseButtonPress(posInOverlay: Point, posInTab: Point)
    | NonClientAreaMouseButtonPress
    | FloatingWidgetDragStart
    | OtherEvent

  class AutoHideDockContainer {
    /** The side bar the container belongs to, fixed at construction. */
    const sideTabBarArea: SideBarLocation
    /** The box layout's direction and its two items in order. */
    const layoutDirection: BoxDirection
    const layoutItems: seq<LayoutItem>
    /** The resize handle: its edge, its orientation, its limits. */
    const handleEdge: Edge
    const handleOrientation: Orientation
    const handleMinResizeSize: int
    var handleMaxResizeSize: int

    /** The preferred size of the overlay (d->Size). */
    var size: Size
    /** The overlay's geometry in its parent's coordinates. */
    var geometry: Rect
    /** The dock widget shown in the overlay. */
    var dockWidget: Option<WidgetId>
    /** The dock container the overlay covers; maintained by the surrounding framework. */
    var dockContainer: Option<DockContainer>

    var visible: bool
    var tabVisible: bool
    var filterInstalled: bool

    predicate Valid()
      reads this
    {
      && layoutDirection == LayoutDirection(sideTabBarArea)
      && layoutItems == InitialLayout(sideTabBarArea)
      && handleEdge == EdgeFromSideTabBarArea(sideTabBarArea)
      && handleMinResizeSize == HandleMinResizeSize
      && Consistent(VisibilityState())
    }

    function VisibilityState(): Visibility
      reads this
    {
      Visibility(visible, tabVisible, filterInstalled)
    }

    /**
     * The constructor: hidden, with the handle on the edge opposite the side
     * bar, the preferred size taken from the new dock area's size and then
     * from the widget's previous dock area by addDockWidget.
     */
    constructor (widget: WidgetId, area: SideBarLocation, container: Option<DockContainer>,
                 dockAreaSize: Size, oldDockAreaSize: Option<Size>, isRestoringState: bool,
                 orientation: Orientation, initialGeometry: Rect)
      ensures Valid()
      ensures sideTabBarArea == area && dockContainer == container && dockWidget == Some(widget)
      ensures handleOrientation == orientation
      ensures VisibilityState() == InitialVisibility
      ensures size == InheritedSize(dockAreaSize, oldDockAreaSize, isRestoringState)
      ensures geometry == UpdatedGeometry(container, area, size, initialGeometry)
    {
      sideTabBarArea := area;
      layoutDirection := LayoutDirection(area);
      handleEdge := EdgeFromSideTabBarArea(area);
      handleOrientation := orientation;
      handleMinResizeSize := HandleMinResizeSize;
      layoutItems := InitialLayout(area);
      visible, tabVisible, filterInstalled := false, false, false;
      dockContainer := container;
      dockWidget := None;
      size := dockAreaSize;
      geometry := initialGeometry;
      new;
      AddDockWidget(widget, oldDockAreaSize, isRestoringState);
    }

    /** QWidget::resize: a new size, the same top-left corner. */
    method ResizeWidget(w: int, h: int)
      modifies this`geometry
      ensures geometry == old(geometry).(width := w, height := h)
    {
      geometry := geometry.(width := w, height := h);
    }

    /** QWidget::move: a new top-left corner, the same size. */
    method MoveWidget(p: Point)
      modifies this`geometry
      ensures geometry == old(geometry).(left := p.x, top := p.y)
    {
      geometry := geometry.(left := p.x, top := p.y);
    }

    /** updateSize: lay the overlay over the content rectangle next to the side bar. */
    method UpdateSize()
      modifies this`geometry
      ensures geometry == UpdatedGeometry(dockContainer, sideTabBarArea, size, old(geometry))
    {
      if dockContainer.None? {
        return;
      }
      var rect := dockContainer.value.contentRect;
      match sideTabBarArea {
        case SideBarTop =>
          ResizeWidget(rect.width, Min(rect.height - ResizeMargin, size.height));
          MoveWidget(rect.TopLeft());
        case SideBarLeft =>
          ResizeWidget(Min(size.width, rect.width - ResizeMargin), rect.height);
          MoveWidget(rect.TopLeft());
        case SideBarRight =>
          ResizeWidget(Min(size.width, rect.width - ResizeMargin), rect.height);
          var p := rect.TopRight();
          p := p.(x := p.x - (geometry.width - 1));
          MoveWidget(p);
        case SideBarBottom =>
          ResizeWidget(rect.width, Min(rect.height - ResizeMargin, size.height));
          var p := rect.BottomLeft();
          p := p.(y := p.y - (geometry.height - 1));
          MoveWidget(p);
        case SideBarNone =>
      }
    }

    /** updateResizeHandleSizeLimitMax; the dock container is dereferenced unchecked. */
    method UpdateResizeHandleSizeLimitMax()
      requires dockContainer.Some?
      modifies this`handleMaxResizeSize
      ensures handleMaxResizeSize == HandleMaxResizeSize(dockContainer.value.contentRect, handleOrientation)
    {
      var rect := dockContainer.value.contentRect;
      var maxResizeHandleSize := if handleOrientation == Horizontal then rect.width else rect.height;
      handleMaxResizeSize := maxResizeHandleSize - ResizeMargin;
    }

    /** addDockWidget, size part: possibly inherit the previous dock area's size, then updateSize. */
    method AddDockWidget(widget: WidgetId, oldDockAreaSize: Option<Size>, isRestoringState: bool)
      modifies this`dockWidget, this`size, this`geometry
      ensures dockWidget == Some(widget)
      ensures size == InheritedSize(old(size), oldDockAreaSize, isRestoringState)
      ensures geometry == UpdatedGeometry(dockContainer, sideTabBarArea, size, old(geometry))
    {
      dockWidget := Some(widget);
      if oldDockAreaSize.Some? && !isRestoringState {
        size := oldDockAreaSize.value.Plus(Size(16, 16));
      }
      UpdateSize();
    }

    /** saveState: the "Closed" and "Size" attributes it writes. */
    method SaveState(dockWidgetClosed: bool) returns (closed: int, sizeAttribute: int)
      requires dockWidget.Some?
      ensures closed == (if dockWidgetClosed then 1 else 0)
      ensures sizeAttribute == PersistedSize(sideTabBarArea, size)
    {
      closed := if dockWidgetClosed then 1 else 0;
      sizeAttribute := if IsHorizontalArea(sideTabBarArea) then size.height else size.width;
    }

    /** setSize: store the component the side uses, then updateSize. */
    method SetSize(n: int)
      modifies this`size, this`geometry
      ensures size == PreferredAfterSetSize(sideTabBarArea, old(size), n)
      ensures PersistedSize(sideTabBarArea, size) == n
      ensures IgnoredSize(sideTabBarArea, size) == IgnoredSize(sideTabBarArea, old(size))
      ensures geometry == UpdatedGeometry(dockContainer, sideTabBarArea, size, old(geometry))
    {
      if IsHorizontalArea(sideTabBarArea) {
        size := size.(height := n);
      } else {
        size := size.(width := n);
      }
      UpdateSize();
    }

    /** toggleView: show only the side tab, or hide tab and overlay and remove the filter. */
    method ToggleView(enable: bool)
      requires Valid()
      modifies this`visible, this`tabVisible, this`filterInstalled
      ensures Valid()
      ensures VisibilityState() == ToggledView(old(VisibilityState()), enable)
    {
      if enable {
        tabVisible := true;
      } else {
        tabVisible := false;
        visible := false;
        filterInstalled := false;
      }
    }

    /**
     * collapseView: collapsing hides the overlay and removes the application
     * event filter; expanding lays it out, updates the handle limit, shows it
     * and installs the filter.
     */
    method CollapseView(enable: bool)
      requires Valid()
      requires !enable ==> dockContainer.Some? && dockWidget.Some?
      modifies this`visible, this`filterInstalled, this`geometry, this`handleMaxResizeSize
      ensures Valid()
      ensures VisibilityState() == CollapsedView(old(VisibilityState()), enable)
      ensures enable ==> geometry == old(geometry) && handleMaxResizeSize == old(handleMaxResizeSize)
      ensures !enable ==>
        && geometry == UpdatedGeometry(dockContainer, sideTabBarArea, size, old(geometry))
        && handleMaxResizeSize == HandleMaxResizeSize(dockContainer.value.contentRect, handleOrientation)
    {
      if enable {
        visible := false;
        filterInstalled := false;
      } else {
        UpdateSize();
        UpdateResizeHandleSizeLimitMax();
        visible := true;
        filterInstalled := true;
      }
    }

    /** toggleCollapseState: collapseView(isVisible()). */
    method ToggleCollapseState()
      requires Valid()
      requires !visible ==> dockContainer.Some? && dockWidget.Some?
      modifies this`visible, this`filterInstalled, this`geometry, this`handleMaxResizeSize
      ensures Valid()
      ensures VisibilityState() == ToggledCollapseState(old(VisibilityState()))
      ensures visible == !old(visible)
      ensures old(visible) ==> geometry == old(geometry) && handleMaxResizeSize == old(handleMaxResizeSize)
      ensures !old(visible) ==>
        && geometry == UpdatedGeometry(dockContainer, sideTabBarArea, size, old(geometry))
        && handleMaxResizeSize == HandleMaxResizeSize(dockContainer.value.contentRect, handleOrientation)
    {
      CollapseView(visible);
    }

    /**
     * eventFilter: re-layout on a resize unless the handle is being dragged;
     * collapse on a press in the dock container outside the overlay and its
     * tab, on a press in a floating widget's frame, and when a floating
     * widget starts being dragged.
     */
    method EventFilter(watched: Option<WidgetId>, event: EventType, tree: WidgetTree,
                       handleResizing: bool, watchedIsFloatingWidget: bool, sideTabSize: Size)
      requires Valid() && tree.Valid()
      modifies this`visible, this`filterInstalled, this`geometry, this`handleMaxResizeSize
      ensures Valid()
      ensures handleMaxResizeSize == old(handleMaxResizeSize)
      ensures event.Resize? ==>
        && VisibilityState() == old(VisibilityState())
        && geometry == if handleResizing then old(geometry)
                       else UpdatedGeometry(dockContainer, sideTabBarArea, size, old(geometry))
      ensures event.MouseButtonPress? ==>
        && geometry == old(geometry)
        && VisibilityState() == if PressCollapses(WatchedInContainer(tree, watched, ContainerId()), geometry.Extent(),
                                             event.posInOverlay, sideTabSize, event.posInTab)
                           then CollapsedView(old(VisibilityState()), true) else old(VisibilityState())
      ensures event.NonClientAreaMouseButtonPress? ==>
        && geometry == old(geometry)
        && VisibilityState() == if watchedIsFloatingWidget then CollapsedView(old(VisibilityState()), true) else old(VisibilityState())
      ensures event.FloatingWidgetDragStart? ==>
        geometry == old(geometry) && VisibilityState() == CollapsedView(old(VisibilityState()), true)
      ensures event.OtherEvent? ==> geometry == old(geometry) && VisibilityState() == old(VisibilityState())
    {
      match event {
        case Resize =>
          if !handleResizing {
            UpdateSize();
          }
        case MouseButtonPress(posInOverlay, posInTab) =>
          var isContainer := IsInContainer(tree, watched, ContainerId());
          if !isContainer {
            return;
          }
          if LocalRect(geometry.Extent()).Contains(posInOverlay) {
            return;
          }
          if LocalRect(sideTabSize).Contains(posInTab) {
            return;
          }
          CollapseView(true);
        case NonClientAreaMouseButtonPress =>
          if watchedIsFloatingWidget {
            CollapseView(true);
          }
        case FloatingWidgetDragStart =>
          CollapseView(true);
        case OtherEvent =>
      }
    }

    /** The widget id of the dock container, if there is one. */
    function ContainerId(): Option<WidgetId>
      reads this
    {
      match dockContainer
      case None => None
      case Some(c) => Some(c.id)
    }

    /** resizeEvent: while the handle is dragged, the new size becomes the preferred size. */
    method ResizeEvent(handleResizing: bool)
      requires Valid()
      requires handleResizing ==> dockContainer.Some?
      modifies this`size, this`handleMaxResizeSize
      ensures Valid()
      ensures handleResizing ==>
        && size == geometry.Extent()
        && handleMaxResizeSize == HandleMaxResizeSize(dockContainer.value.contentRect, handleOrientation)
      ensures !handleResizing ==> size == old(size) && handleMaxResizeSize == old(handleMaxResizeSize)
    {
      if handleResizing {
        size := geometry.Extent();
        UpdateResizeHandleSizeLimitMax();
      }
    }
  }
}
