# Auto-hide dock container: a verified model

This project models the toolkit-independent logic of `CAutoHideDockContainer`
from the Qt Advanced Docking System. An auto-hide container is an overlay that
slides out over the dock container's content area. It sits next to one of the
four side bars, has a resize handle on the opposite edge, and has a tab in the
side bar that expands and collapses it.

The model has six modules:

- `SideBar`: the side-bar locations and the total switch functions over them
  (`isHorizontalArea`, `edgeFromSideTabBarArea`, `resizeHandleLayoutPosition`,
  `getDockWidgetArea`). It also covers the layout step of the constructor that
  puts the handle before or after the dock area. Each function is stated
  against an independent reference: the edge a bar runs along, the opposite
  edge, and the side bar named after a dock area. Lemmas prove that the
  functions agree with each other. For example, for every real side the
  handle's layout slot puts it on the edge it resizes.
- `Geometry`: integer sizes, points and rectangles. It uses Qt's inclusive
  `right()`/`bottom()` convention and the 30-pixel `ResizeMargin`.
- `Widgets`: widgets are abstract ids in a finite parent tree. It models the
  event filter's walk up the parent chain as a loop, proved against the
  chain it visits and against the recursive ancestor relation.
- `AutoHideRules`: the rules as pure functions.
  - The overlay geometry computed by `updateSize`.
  - The preferred-size component that `setSize` changes and `saveState` writes.
  - The size `addDockWidget` inherits from the previous dock area.
  - The resize handle's maximum.
  - The visibility state machine: container visible, tab visible, event filter installed.
  Lemmas cover: the setSize/saveState round trip, containment in the content
  rectangle, the handle limit capping the overlay, idempotence of `updateSize`,
  and that the event filter is installed exactly while the overlay is shown.
- `AutoHideContainer`: the class `AutoHideDockContainer`. Its fields are the
  private data (side bar location, preferred size, dock widget), its own
  geometry and visibility, the resize handle's state and the dock container it
  covers. Each method is tied to the functions above. Its `Valid()` invariant
  includes "filter installed iff visible", and every method keeps it.
- `Wrappers`: an `Option` type for pointers that may be null.

State owned by other objects is passed to the methods as parameters:

- whether the resize handle is being dragged;
- the widget tree;
- whether the watched object is a floating widget;
- the side tab's size;
- the previous dock area's size;
- whether the dock manager is restoring state.

The missing location `SideBarNone` falls back to "horizontal", the left edge and
layout slot 0. For this location, the handle ends up on the top edge while
`edgeFromSideTabBarArea` says left (`NoneHandlePlacementDisagrees`). No real
auto-hide container has this location, so this is noted here rather than
reported as a defect.

## Model

| member | source | states |
|---|---|---|
| `SideBar.IsHorizontalArea` | src/AutoHideDockContainer.cpp:55-68 | true exactly when the side bar runs along the top or bottom edge; true for the missing location |
| `SideBar.EdgeFromSideTabBarArea` | src/AutoHideDockContainer.cpp:72-85 | the handle edge is the edge opposite the side bar's edge; left for the missing location |
| `SideBar.ResizeHandleLayoutPosition` | src/AutoHideDockContainer.cpp:89-104 | the slot is 0 or 1, and 1 (after the dock area) exactly when the handle edge is bottom or right |
| `SideBar.GetDockWidgetArea` | src/AutoHideDockContainer.cpp:129-142 | each real side maps to the dock area of the same name; the missing location maps to the left area |
| `SideBar.InsertAt` | src/AutoHideDockContainer.cpp:233 | inserting puts the item at the index (or at the end for a negative index) and keeps all other items |
| `SideBar.InitialLayout` | src/AutoHideDockContainer.cpp:232-233 | the layout holds the dock area and the handle once each, with the handle at its layout slot |
| `SideBar.HandlePlacementAgreesWithEdge` | src/AutoHideDockContainer.cpp:216-233 | for every real side, the layout direction plus the handle's slot put the handle on the edge `edgeFromSideTabBarArea` names |
| `SideBar.NoneHandlePlacementDisagrees` | src/AutoHideDockContainer.cpp:63-64 | for the missing location, the layout fallback and the edge fallback disagree |
| `SideBar.HorizontalAreaResizesVertically` | src/AutoHideDockContainer.cpp:216-220 | a side is horizontal exactly when its handle edge is horizontal and exactly when its layout runs top to bottom |
| `SideBar.EdgeFromSideTabBarAreaInjective` | src/AutoHideDockContainer.cpp:72-85 | different real sides get different handle edges |
| `SideBar.GetDockWidgetAreaRoundTrip` | src/AutoHideDockContainer.cpp:129-142 | a side dock area, turned into its side bar and back by `getDockWidgetArea`, is the same area |
| `Widgets.IsInContainer` | src/AutoHideDockContainer.cpp:488-497 | the loop over the parent chain returns true exactly when the dock container is the watched widget or one of its ancestors; false for a non-widget or a missing container |
| `Widgets.ParentChainIsAncestry` | src/AutoHideDockContainer.cpp:490-497 | the chain the loop visits holds exactly the widget and its ancestors |
| `Widgets.AncestorTransitive` | src/AutoHideDockContainer.cpp:490-497 | the ancestor-or-self relation is transitive |
| `Widgets.DescendantInContainer` | src/AutoHideDockContainer.cpp:490-501 | a press on any descendant of a widget inside the dock container also counts as inside it |
| `AutoHideRules.OverlayGeometry` | src/AutoHideDockContainer.cpp:248-280 | top/bottom: full content width, height min(content height − 30, preferred height); left/right: full height, width min(preferred width, content width − 30); the overlay touches the content rectangle on the side bar's edge (right edge at the right edge for Right, bottom at the bottom for Bottom, top-left corner otherwise); nothing for the missing location |
| `AutoHideRules.UpdatedGeometry` | src/AutoHideDockContainer.cpp:238-281 | geometry unchanged without a dock container or a location, otherwise attached to the side bar |
| `AutoHideRules.PreferredAfterSetSize` | src/AutoHideDockContainer.cpp:456-466 | after setSize(n), the persisted component is n and the other component is unchanged |
| `AutoHideRules.InheritedSize` | src/AutoHideDockContainer.cpp:334-343 | with a previous dock area and no state restore, the size is that area's size + 16 on each axis; otherwise unchanged |
| `AutoHideRules.SetSizeOfPersistedSize` | src/AutoHideDockContainer.cpp:398 | setting the size to the value saveState would write leaves the preferred size unchanged |
| `AutoHideRules.OverlayUsesPersistedSizeOnly` | src/AutoHideDockContainer.cpp:250-276 | the overlay depends only on the component of the preferred size that saveState persists |
| `AutoHideRules.OverlayInsideContent` | src/AutoHideDockContainer.cpp:250-276 | when the content has room for the margin and the preferred size is non-negative, the overlay lies inside the content rectangle and leaves at least 30 pixels uncovered |
| `AutoHideRules.OverlayHonoursSetSize` | src/AutoHideDockContainer.cpp:456-467 | after setSize(n) with n no larger than the content extent − 30, the overlay's extent is exactly n |
| `AutoHideRules.HandleLimitCapsOverlay` | src/AutoHideDockContainer.cpp:147-153 | for a handle oriented across the side bar, the overlay's extent is the persisted size capped by the handle's maximum |
| `AutoHideRules.UpdateSizeIdempotent` | src/AutoHideDockContainer.cpp:238-281 | running updateSize a second time changes nothing |
| `AutoHideRules.InitialVisibilityConsistent` | src/AutoHideDockContainer.cpp:206 | the container starts hidden, with no event filter |
| `AutoHideRules.CollapseViewEffect` | src/AutoHideDockContainer.cpp:426-441 | collapseView(true) hides and removes the filter; collapseView(false) shows and installs it; the tab is untouched |
| `AutoHideRules.ToggleCollapseStateFlips` | src/AutoHideDockContainer.cpp:449-452 | toggleCollapseState flips visibility and leaves the filter in step with it |
| `AutoHideRules.ToggleCollapseStateTwice` | src/AutoHideDockContainer.cpp:426-452 | from a consistent state, toggling twice restores the state |
| `AutoHideRules.ToggleViewEffect` | src/AutoHideDockContainer.cpp:404-421 | toggleView(false) hides tab and container and removes the filter; toggleView(true) shows only the tab |
| `AutoHideRules.ConsistencyPreserved` | src/AutoHideDockContainer.cpp:404-452 | every transition keeps the filter installed exactly while the container is visible |
| `AutoHideContainer.AutoHideDockContainer.constructor` | src/AutoHideDockContainer.cpp:202-234 | the container starts hidden, its handle is on the edge opposite the side bar, its layout is the handle's slot beside the dock area, its preferred size is inherited as in addDockWidget and its geometry is laid out |
| `AutoHideContainer.AutoHideDockContainer.UpdateSize` | src/AutoHideDockContainer.cpp:238-281 | the new geometry is the overlay geometry for the content rectangle (unchanged without a container or location); nothing else changes |
| `AutoHideContainer.AutoHideDockContainer.UpdateResizeHandleSizeLimitMax` | src/AutoHideDockContainer.cpp:147-153 | the handle maximum becomes the content width (horizontal handle) or height, less 30 |
| `AutoHideContainer.AutoHideDockContainer.AddDockWidget` | src/AutoHideDockContainer.cpp:324-346 | the widget is stored, the preferred size is inherited only from an existing old area outside a state restore, then it is laid out |
| `AutoHideContainer.AutoHideDockContainer.SaveState` | src/AutoHideDockContainer.cpp:393-400 | "Closed" is 1 or 0; "Size" is the height for horizontal sides and the width otherwise |
| `AutoHideContainer.AutoHideDockContainer.SetSize` | src/AutoHideDockContainer.cpp:456-468 | only the component the side uses changes, the value saveState then writes is n, and the overlay is laid out again |
| `AutoHideContainer.AutoHideDockContainer.ToggleView` | src/AutoHideDockContainer.cpp:404-422 | the visibility follows `ToggledView`; the invariant is kept |
| `AutoHideContainer.AutoHideDockContainer.CollapseView` | src/AutoHideDockContainer.cpp:426-445 | collapsing only hides and removes the filter; expanding lays out, updates the handle limit, shows and installs the filter |
| `AutoHideContainer.AutoHideDockContainer.ToggleCollapseState` | src/AutoHideDockContainer.cpp:449-452 | visibility is flipped according to `ToggledCollapseState`; from a visible state geometry and handle limit are kept, from a hidden state the overlay is laid out again and the handle limit is reset |
| `AutoHideContainer.AutoHideDockContainer.EventFilter` | src/AutoHideDockContainer.cpp:472-548 | a resize re-lays out unless the handle is resizing; a press collapses only inside the dock container's tree and outside both the overlay and the tab; a frame press on a floating widget and a drag start collapse; the handle limit never changes |
| `AutoHideContainer.AutoHideDockContainer.ResizeEvent` | src/AutoHideDockContainer.cpp:552-560 | only while the handle is resizing does the current size become the preferred size and the handle limit get updated |

## Left out

- Widget construction, object names, the components factory, `connect` and insertion into the `QBoxLayout` are not modelled. Only the resulting layout order and direction are.
- `saveState` writes through `QXmlStreamWriter`. Only the values of "Closed" and "Size" are modelled; the "Name" attribute and the writer are not.
- `cleanupAndDelete`, `deleteLater`, the destructor and `QPointer` lifetimes are memory management and are not modelled. The side tab is taken to be alive, so the `if (d->SideTab)` checks in `toggleView` always pass.
- `moveContentsToParent` re-docks through foreign classes. Only its area mapping (`GetDockWidgetArea`) is modelled.
- `addDockWidget` moves the widget between dock areas with `removeDockWidget`/`addDockWidget` and updates the tab. These are foreign calls; only the size and the stored widget are modelled.
- How `dockContainer()` is found (through the dock area or a parent search) is not modelled. The class holds its result as the field `dockContainer`, and the results of `dockWidget()` and `sideBarLocation()` as the fields `dockWidget` and `sideTabBarArea`.
- `autoHideTab()` and `dockAreaWidget()` are plain accessors. The side tab and the dock area they return are not modelled as objects. The tab appears only as its visibility flag and as the size passed to `EventFilter`.
- `sideBar()` looks up the side bar in the dock container (`dockContainer()->sideTabBar(...)`). It is not modelled.
- A null `dockContainer()` or `DockWidget` would crash the source where it is dereferenced without a check: in `updateResizeHandleSizeLimitMax`, in `saveState` and when `collapseView(false)` focuses the widget. The model instead requires them to be non-null at those calls: `UpdateResizeHandleSizeLimitMax`, `SaveState`, `CollapseView(false)`, `ToggleCollapseState` from a hidden state, and `ResizeEvent` while resizing.
- Event forwarding in `event` and `leaveEvent` to the dock container is not modelled. Neither are focusing the dock widget, `raise`, `updateStyle` and `ADS_PRINT`. These are foreign calls and UI side effects.
- `mapFromGlobal` and `QCursor::pos` are not modelled. A mouse press carries its position already mapped into the overlay's and the tab's local coordinates.
- `eventFilter` returns the base class's result, which is not modelled. The event loop and the order in which events are dispatched are not modelled either.
- `isVisible()` is modelled as the container's own visibility flag. Qt also checks the parent widgets' visibility; that part is not modelled.
- `QWidget::resize` limits the requested size by the widget's minimum and maximum size. The model's widget takes the requested size exactly.
- `QRect::contains` normalising a rectangle of negative size is not modelled. A rectangle of negative size contains no point here.
- `resizeEvent` calls the base class's `resizeEvent`, which is not modelled. The geometry change made by the resize handle happens in ResizeHandle.cpp, which is not part of this model.
- ResizeHandle.cpp is not part of this model. The handle's orientation is a constructor input. `HandleLimitCapsOverlay` assumes the orientation that runs across the side bar. The handle's initial maximum is left at the field's default value. The opaque-resize configuration flag is not modelled.
- `HandleLimitCapsOverlay` is a fact about the pure functions only. The class takes the handle's orientation as given and does not tie it to the side bar, so no fact about the class connects its handle limit to its overlay.
- Box layouts are taken to run in the left-to-right reading direction. Qt mirrors `LeftToRight` layouts for right-to-left widgets, which `HandleVisualEdge` and `HandlePlacementAgreesWithEdge` do not model.
- Integers are unbounded. C++ `int` overflow in `Size + 16` or in the coordinate arithmetic cannot occur for screen-sized values, and is not modelled.
