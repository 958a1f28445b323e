# Window chrome of the kiui UI toolkit, modelled in Dafny

This project models the window chrome of kiui's retained-mode UI toolkit (`src/Ui/Scheme/mkWindow.cpp`). The chrome is the logic that lets a window be dragged by its header, resized by its sizer, docked into and undocked from a docking section, closed, and raised in the z-order. The model is a pure record of window state, with one transition function per entry point.

- `window_types.dfy` (module `WindowTypes`) holds the data model:
  - the `Window` record: flags, dock host, style, the visibility of the header, sizer and close button, the header label, the sizer's edge flag, and the close-callback bookkeeping;
  - its layer `Frame`: position, absolute position, size, opacity and move-to-top requests;
  - the constructor `Create`.
- `window.dfy` (module `WindowOps`) holds the `Window::` entry points: bind, the toggles, the title bar, naming and content, dock/docked/undock/undocked, close, and the clicks.
- `header.dfy` (module `Header`) holds the header's drag start, drag and drag end, and whole header gestures.
- `sizer.dfy` (module `Sizer`) holds the sizer's edge classification, clamped resize, and whole resize gestures.
- `consistency.dfy` (module `Consistency`) runs sequences of calls and proves two invariants over them:
  - the bookkeeping invariant: the header label shows the window's name, and the close callback fires exactly once on close;
  - the chrome invariant: a window is docked exactly when it wears the docked style, and its sizer is shown exactly when it is sizable and floating.

  It also pins down the places where the source breaks the chrome invariant. A `Layout` event in these runs stands for the external layout pass, which recomputes the absolute on-screen position after the window moves.

Coordinates are exact `real`s. A move-to-top request is counted in `Frame.raises`. The sibling order kept by the layer stack is not part of the window.

Three points where the code's behaviour differs from what one would expect of a window, and which the model follows:
- The natural invariant "docked ⇔ docked style ⇔ sizer hidden" breaks in four places:
  - a window constructed with a dock host keeps its sizer visible (`CreateDockedIsInconsistent`);
  - `toggleResizable` that makes a docked window sizable shows its sizer while it is docked (`ToggleResizableWhileDockedBreaksChrome`); turning resizing off on a docked window keeps the invariant (`ToggleResizableOffWhileDockedKeepsChrome`);
  - the public `docked()` called on its own reskins a floating window as docked (`DockedWhileFloatingBreaksChrome`);
  - the public `undocked()` called on its own reskins a docked window as floating (`UndockedWhileDockedBreaksChrome`).

  The invariant is therefore proved only for runs that avoid the last three calls in those modes and that start from a floating window (`FloatingWindowStaysConsistent`).
- `toggleClosable` does not flip a flag. It flips the close button's visibility and dereferences the button, which exists only on a closable window. That is why it requires `closable`.
- `dock()` on a docked window overwrites the host without releasing the old one. `WindowOps.Dock` does the same (`RedockOverwrites`). A header gesture never triggers this, because its drag start always undocks first (`GestureOutcome`). `undock()` on a floating window dereferences a null host. That is why `WindowOps.Undock` requires a host.

## Model

| member | source | states |
|---|---|---|
| WindowTypes.Create | src/Ui/Scheme/mkWindow.cpp:121-137 | A new window is movable and sizable, keeps the given dock host, and wears the docked style iff it has a host. Its header and sizer are both visible, even when docked. The close button is visible iff the window is closable. The label shows the title. No close callback has fired. |
| WindowOps.Bind | src/Ui/Scheme/mkWindow.cpp:142-152 | Binding a floating window places its centre on the centre of the root surface. A docked window is left unchanged. Only the position changes. |
| WindowOps.BindIdempotent | src/Ui/Scheme/mkWindow.cpp:142-152 | Binding twice to the same root gives the same result as binding once. |
| WindowOps.ToggleClosable | src/Ui/Scheme/mkWindow.cpp:154-157 | Requires a closable window, because the button exists only then. Flips the close button's visibility and nothing else. |
| WindowOps.ToggleClosableInvolution | src/Ui/Scheme/mkWindow.cpp:154-157 | Toggling the close button twice restores the window. |
| WindowOps.ToggleMovable | src/Ui/Scheme/mkWindow.cpp:159-162 | Only the movable flag changes, and it flips. |
| WindowOps.ToggleMovableInvolution | src/Ui/Scheme/mkWindow.cpp:159-162 | Toggling movability twice restores the window. |
| WindowOps.ToggleResizable | src/Ui/Scheme/mkWindow.cpp:164-168 | The sizable flag flips. The sizer is then shown exactly when the window is sizable, docked or not. Nothing else changes. |
| WindowOps.ToggleResizableInvolution | src/Ui/Scheme/mkWindow.cpp:164-168 | Toggling resizability twice restores a window whose sizer visibility already matches its flag. |
| WindowOps.ShowTitlebar | src/Ui/Scheme/mkWindow.cpp:170-173 | The header becomes visible and nothing else changes. |
| WindowOps.HideTitlebar | src/Ui/Scheme/mkWindow.cpp:175-178 | The header becomes hidden and nothing else changes. |
| WindowOps.TitlebarHideShow | src/Ui/Scheme/mkWindow.cpp:170-178 | Hiding and then showing a visible header restores the window. |
| WindowOps.ShowTitlebarIdempotent | src/Ui/Scheme/mkWindow.cpp:170-173 | Showing the header twice equals showing it once. |
| WindowOps.HideTitlebarIdempotent | src/Ui/Scheme/mkWindow.cpp:175-178 | Hiding the header twice equals hiding it once. |
| WindowOps.Name | src/Ui/Scheme/mkWindow.cpp:180-183 | The window's name is the attached content's name when there is content, and the construction title otherwise. |
| WindowOps.Vappend | src/Ui/Scheme/mkWindow.cpp:225-230 | After content is attached, the window's name is the content's name. The header label shows that name. The construction title is kept. Nothing else changes. |
| WindowOps.Docked | src/Ui/Scheme/mkWindow.cpp:193-198 | Gives the window the docked style. Hides the sizer on a sizable window and leaves it as it was otherwise. Nothing else changes. |
| WindowOps.Dock | src/Ui/Scheme/mkWindow.cpp:185-191 | The window is docked at the target and wears the docked style. A sizable window's sizer is hidden, and otherwise the sizer keeps its visibility. The frame and flags are untouched. |
| WindowOps.RedockOverwrites | src/Ui/Scheme/mkWindow.cpp:185-191 | Docking a docked window somewhere else leaves no trace of the first host. |
| WindowOps.Undocked | src/Ui/Scheme/mkWindow.cpp:208-216 | Gives the window the floating style and shows the sizer when sizable. Moves the position to the absolute position, so the window does not jump. Adds one move-to-top request. Nothing else changes. |
| WindowOps.Undock | src/Ui/Scheme/mkWindow.cpp:200-206 | Requires a dock host, since the host is dereferenced. Afterwards the window floats in the floating style. The sizer is shown when sizable and otherwise unchanged. The position equals the former absolute position. One move-to-top request is added. |
| WindowOps.DockUndockRoundTrip | src/Ui/Scheme/mkWindow.cpp:185-216 | Take a floating window whose position equals its absolute position and whose sizer matches its flag. Docking it and then undocking it restores it, apart from one extra move-to-top request. |
| WindowOps.Close | src/Ui/Scheme/mkWindow.cpp:218-223 | Requires a window that is not yet destroyed. The callback count goes up by one iff a callback is registered, and the window is destroyed. |
| WindowOps.LeftClick | src/Ui/Scheme/mkWindow.cpp:232-238 | Adds one move-to-top request iff the window is floating. Nothing else changes. |
| WindowOps.RightClick | src/Ui/Scheme/mkWindow.cpp:240-246 | Adds one move-to-top request iff the window is floating. Nothing else changes. |
| Header.DragStart | src/Ui/Scheme/mkWindow.cpp:36-45 | Afterwards the window floats, is transparent and has been raised. For a floating window that is the only change. A docked window is first undocked: it ends at its absolute position in the floating style, with two move-to-top requests. |
| Header.DragStartFrame | src/Ui/Scheme/mkWindow.cpp:36-45 | On a docked window, drag start is exactly an undock followed by the lift (transparent, on top). Only the host, the style, the sizer and the frame change. |
| Header.DragStartFields | src/Ui/Scheme/mkWindow.cpp:36-45 | Drag start keeps the name, the flags and the close bookkeeping. It clears the host. A window it undocks gets the floating style and, when sizable, its sizer back. A floating window keeps its style and its sizer as they were. |
| Header.Drag | src/Ui/Scheme/mkWindow.cpp:47-54 | A movable window is translated by exactly (dx, dy) and nothing else changes. An immovable window is unchanged. |
| Header.DragsTranslate | src/Ui/Scheme/mkWindow.cpp:47-54 | A sequence of header drags translates a movable window by the sum of the deltas. It leaves an immovable window unchanged. |
| Header.RepeatedDragMovesByMultiple | src/Ui/Scheme/mkWindow.cpp:47-54 | n drags of (5, 0) move a movable window right by 5n, and its vertical position is kept. |
| Header.DragEnd | src/Ui/Scheme/mkWindow.cpp:56-73 | The window always ends opaque. It docks at the found target iff it is dockable and a target was found. Then it takes the docked style, a sizable window's sizer is hidden, and a non-sizable window's sizer keeps its visibility. Otherwise only the opacity changes. |
| Header.DragEndFrame | src/Ui/Scheme/mkWindow.cpp:56-73 | Drag end changes nothing but the dock host, the style, the sizer's visibility and the frame. When it docks, it equals the window's own `dock` followed by restoring the opacity. |
| Header.DragEndFields | src/Ui/Scheme/mkWindow.cpp:56-73 | Drag end keeps the name, the flags and the close bookkeeping. When it docks, the style becomes the docked one and a sizable window's sizer is hidden. Otherwise the style and the sizer are kept. |
| Header.GestureOutcome | src/Ui/Scheme/mkWindow.cpp:36-73 | A full header gesture ends opaque. It ends docked at the target iff the window is dockable and a target was found, and floating otherwise. The dock is entered from the floating state. Without a dock, a movable window is moved from its start, or from its absolute position if it was docked, by the sum of the deltas. |
| Header.LogWindowScenario | src/Ui/Scheme/mkWindow.cpp:36-73 | A new floating, closable, dockable window lifted, dragged three times by (5, 0) and dropped over nothing: it stays floating and opaque, moves by (15, 0) and is raised once. |
| Sizer.DragStart | src/Ui/Scheme/mkWindow.cpp:81-90 | The gesture works on the left edge iff the press is at most half the width from the absolute left edge. The window is raised once. Nothing else changes. |
| Sizer.MidpointIsLeft | src/Ui/Scheme/mkWindow.cpp:85-88 | A press exactly at the horizontal midpoint counts as a left-edge resize. |
| Sizer.Drag | src/Ui/Scheme/mkWindow.cpp:92-105 | Width ≥ 10 and height ≥ 25 whatever the deltas. A left-edge step moves x by dx and sets the width to max(10, w − dx). A right-edge step keeps x and sets the width to max(10, w + dx). The height becomes max(25, h + dy). Only x, the width and the height change. |
| Sizer.DragKeepsOppositeEdge | src/Ui/Scheme/mkWindow.cpp:95-103 | When the floor does not bite, a left-edge step keeps the right edge fixed. A right-edge step keeps the left edge. The top edge never moves. |
| Sizer.Drags | src/Ui/Scheme/mkWindow.cpp:92-105 | After any non-empty sequence of resize steps, width ≥ 10 and height ≥ 25. A right-edge gesture never moves x. Only x, the width and the height change. |
| Sizer.GestureRespectsFloors | src/Ui/Scheme/mkWindow.cpp:81-105 | Every resize gesture with at least one step ends at least 10 wide and 25 high, with the window raised once. |
| Sizer.LeftEdgeScenario | src/Ui/Scheme/mkWindow.cpp:81-105 | A 100 × 50 frame pressed at local x = 20 resizes from the left. A step of (−10, 5) makes it 110 × 55 and moves it 10 to the left. |
| Consistency.CreateKeepsBookkeeping | src/Ui/Scheme/mkWindow.cpp:26-34 | A new window's header label shows its name, a visible close button implies a closable window, and no callback has fired. |
| Consistency.StepKeepsFlags | src/Ui/Scheme/mkWindow.cpp:121-130 | No entry point changes the callback registration or the closable and dockable flags, which are fixed at construction. |
| Consistency.StepKeepsBookkeeping | src/Ui/Scheme/mkWindow.cpp:218-230 | Every enabled call keeps the bookkeeping invariant: label shows name, visible close button implies closable, and the callback count is 1 iff the window is closed and has a callback. |
| Consistency.RunKeepsBookkeeping | src/Ui/Scheme/mkWindow.cpp:218-230 | Every run of enabled calls keeps the bookkeeping invariant. |
| Consistency.CloseFiresCallbackOnce | src/Ui/Scheme/mkWindow.cpp:218-223 | After any run from construction, the close callback has fired exactly once if the window is closed and has a callback, and never otherwise. This holds whatever content was attached. The header label shows the window's name. |
| Consistency.StepKeepsChrome | src/Ui/Scheme/mkWindow.cpp:185-216 | Every enabled call and layout pass keeps the chrome invariant (docked iff docked style, and sizer shown iff sizable and floating). The exceptions are toggleResizable that makes a docked window sizable, docked() on a floating one and undocked() on a docked one. |
| Consistency.RunKeepsChrome | src/Ui/Scheme/mkWindow.cpp:185-216 | A run of such calls from a consistent window is enabled throughout and ends consistent. |
| Consistency.FloatingWindowStaysConsistent | src/Ui/Scheme/mkWindow.cpp:121-216 | A window created floating stays consistent along every run of enabled calls that avoids toggleResizable making a docked window sizable, docked() on a floating window and undocked() on a docked one. |
| Consistency.DockAndUndockKeepChrome | src/Ui/Scheme/mkWindow.cpp:185-216 | Dock and undock each keep the chrome invariant, whichever mode the window starts in. |
| Consistency.CreateDockedIsInconsistent | src/Ui/Scheme/mkWindow.cpp:121-137 | A window created with a dock host is docked but still shows its sizer, so the chrome invariant fails from the start. |
| Consistency.ToggleResizableWhileDockedBreaksChrome | src/Ui/Scheme/mkWindow.cpp:164-168 | Making a docked, non-sizable window sizable shows its sizer while it is docked, which breaks the chrome invariant. |
| Consistency.ToggleResizableOffWhileDockedKeepsChrome | src/Ui/Scheme/mkWindow.cpp:164-168 | Turning resizing off on a consistent docked window is allowed in chrome-safe runs: the window stops being sizable, its sizer stays hidden, and the chrome invariant still holds. |
| Consistency.DockedWhileFloatingBreaksChrome | src/Ui/Scheme/mkWindow.cpp:193-198 | The style half of docking, called on its own on a floating window, gives it the docked style with no host, which breaks the chrome invariant. |
| Consistency.UndockedWhileDockedBreaksChrome | src/Ui/Scheme/mkWindow.cpp:208-216 | The style half of undocking, called on its own on a docked window, gives it the floating style while it keeps its host, which breaks the chrome invariant. |
| Consistency.LayoutFollowsHeaderDrag | src/Ui/Scheme/mkWindow.cpp:47-90 | A floating window at x = ax = 0, 100 wide, is dragged 200 right by its header and laid out again. A sizer press at screen x = 230 then lies 30 from its new left edge and resizes from the left. |

## Left out

- Rendering, layers, frames and style-class strings (`reset`, `styleCls`) are not modelled. The style is a two-value enumeration.
- Hit-testing (`pinpoint`), the walk up the parent chain to a docking section, and `docktarget` are not modelled. Their combined result is the `target` parameter of `Header.DragEnd`. A `docktarget` that returns no target after a section was found is not modelled.
- The docking section's side of `dock`/`undock` (accepting and releasing the window) is not modelled. The model records only which host the window names.
- How the layout computes the absolute position (ax, ay) is not modelled. None of the window's entry points changes it. Runs update it through the `Layout` event, which takes the new position as a parameter.
- The z-order among sibling layers is not modelled. A move-to-top request is counted in `Frame.raises`, and how other windows' raises lower this one is external.
- `destroy()`, object lifetime, `unique_ptr` ownership in `vappend`, and the body of the close callback are not modelled. Closing is recorded as a flag plus a count of callback invocations.
- The `std::cerr` logging in `dock` and `undock` is not modelled.
- IEEE `float` rounding is not modelled. Coordinates are exact reals.
- The internals of labels, buttons and the close button, and the header's tooltip text, are not modelled. The `WindowBody` and `CloseButton` constructors are not modelled either.
- `WindowSizer::leftDragEnd` is not modelled as a function, because it changes no state.
- The handlers' `true` return values are not modelled. They only tell the dispatcher the event was consumed.
- The content widget's own name may change after it is attached. The model treats it as fixed at attach time.
