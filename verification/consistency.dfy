/** Windows driven by sequences of entry-point calls, and the invariants
    those sequences keep: the header label shows the window's name, the
    close callback fires at most once, and (with a few exceptions) the dock
    host, the style and the sizer's visibility agree. */
module Consistency {
  import opened WindowTypes
  import WindowOps
  import Header
  import Sizer

  /** One call into the window itself. */
  datatype WindowCall =
    | Bind(rootW: real, rootH: real)
    | ToggleClosable
    | ToggleMovable
    | ToggleResizable
    | ShowTitlebar
    | HideTitlebar
    | Vappend(name: string)
    | Docked
    | Dock(target: DockId)
    | Undocked
    | Undock
    | Close
    | LeftClick
    | RightClick

  /** One gesture callback delivered to the header. */
  datatype HeaderCall =
    | HeaderDragStart
    | HeaderDrag(hdx: real, hdy: real)
    | HeaderDragEnd(found: Option<DockId>)

  /** One gesture callback delivered to the sizer. */
  datatype SizerCall =
    | SizerDragStart(xPos: real)
    | SizerDrag(sdx: real, sdy: real)

  /** One call into the window, its header or its sizer, or a layout pass
      that recomputes the window's absolute on-screen position. */
  datatype Event =
    | OnWindow(call: WindowCall)
    | OnHeader(hcall: HeaderCall)
    | OnSizer(scall: SizerCall)
    | OnLayout(ax: real, ay: real)

  /** The external layout pass: it places the layer on screen at (ax, ay)
      and changes nothing the window itself keeps. */
  function Layout(w: Window, ax: real, ay: real): (r: Window)
    ensures r.frame.ax == ax && r.frame.ay == ay
    ensures r == w.(frame := w.frame.(ax := r.frame.ax, ay := r.frame.ay))
  {
    w.(frame := w.frame.(ax := ax, ay := ay))
  }

  /** The calls the source can make without dereferencing something that is
      not there: nothing reaches a destroyed window, the close button exists
      only on a closable window, and only a docked window has a host to
      leave. */
  predicate Enabled(w: Window, e: Event)
  {
    && !w.closed
    && (e == OnWindow(ToggleClosable) ==> w.closable)
    && (e == OnWindow(Undock) ==> w.dock.Some?)
  }

  /** The effect of one enabled call on the window. */
  function WindowStep(w: Window, c: WindowCall): (r: Window)
    requires Enabled(w, OnWindow(c))
  {
    match c
    case Bind(rw, rh) => WindowOps.Bind(w, rw, rh)
    case ToggleClosable => WindowOps.ToggleClosable(w)
    case ToggleMovable => WindowOps.ToggleMovable(w)
    case ToggleResizable => WindowOps.ToggleResizable(w)
    case ShowTitlebar => WindowOps.ShowTitlebar(w)
    case HideTitlebar => WindowOps.HideTitlebar(w)
    case Vappend(n) => WindowOps.Vappend(w, n)
    case Docked => WindowOps.Docked(w)
    case Dock(t) => WindowOps.Dock(w, t)
    case Undocked => WindowOps.Undocked(w)
    case Undock => WindowOps.Undock(w)
    case Close => WindowOps.Close(w)
    case LeftClick => WindowOps.LeftClick(w)
    case RightClick => WindowOps.RightClick(w)
  }

  /** The effect of one header callback. */
  function HeaderStep(w: Window, h: HeaderCall): (r: Window)
  {
    match h
    case HeaderDragStart => Header.DragStart(w)
    case HeaderDrag(dx, dy) => Header.Drag(w, dx, dy)
    case HeaderDragEnd(t) => Header.DragEnd(w, t)
  }

  /** The effect of one sizer callback. */
  function SizerStep(w: Window, s: SizerCall): (r: Window)
  {
    match s
    case SizerDragStart(x) => Sizer.DragStart(w, x)
    case SizerDrag(dx, dy) => Sizer.Drag(w, dx, dy)
  }

  /** The effect of one enabled call. */
  function Step(w: Window, e: Event): (r: Window)
    requires Enabled(w, e)
  {
    match e
    case OnWindow(c) => WindowStep(w, c)
    case OnHeader(h) => HeaderStep(w, h)
    case OnSizer(s) => SizerStep(w, s)
    case OnLayout(ax, ay) => Layout(w, ax, ay)
  }

  /** Runs the calls in order; None when one of them is not enabled. */
  function Run(w: Window, es: seq<Event>): (r: Option<Window>)
    decreases |es|
  {
    if |es| == 0 then Some(w)
    else if Enabled(w, es[0]) then Run(Step(w, es[0]), es[1..])
    else None
  }

  // ---------------------------------------------------------------------
  // Bookkeeping: the title label and the close callback.

  /** The header label shows the window's name, a visible close button
      belongs to a closable window, and the close callback has fired once
      exactly when the window is closed and has one. */
  predicate Bookkeeping(w: Window)
  {
    && w.titleLabel == WindowOps.Name(w)
    && (w.closeVisible ==> w.closable)
    && w.closeFired == (if w.closed && w.hasOnClose then 1 else 0)
  }

  lemma CreateKeepsBookkeeping(title: string, closable: bool, dockable: bool, hasOnClose: bool,
                               dock: Option<DockId>, frame: Frame)
    ensures Bookkeeping(Create(title, closable, dockable, hasOnClose, dock, frame))
  {
  }

  /** No call changes the close-callback registration or the closable and
      dockable flags, which are fixed at construction. */
  lemma StepKeepsFlags(w: Window, e: Event)
    requires Enabled(w, e)
    ensures Step(w, e).hasOnClose == w.hasOnClose
    ensures Step(w, e).closable == w.closable
    ensures Step(w, e).dockable == w.dockable
  {
    match e
    case OnWindow(c) => WindowStepKeepsFlags(w, c);
    case OnHeader(h) => HeaderStepKeepsFlags(w, h);
    case OnSizer(s) => SizerStepKeepsFlags(w, s);
    case OnLayout(_, _) =>
  }

  lemma HeaderStepKeepsFlags(w: Window, h: HeaderCall)
    ensures HeaderStep(w, h).hasOnClose == w.hasOnClose
    ensures HeaderStep(w, h).closable == w.closable
    ensures HeaderStep(w, h).dockable == w.dockable
  {
    match h
    case HeaderDragStart => Header.DragStartFields(w);
    case HeaderDrag(_, _) =>
    case HeaderDragEnd(t) => Header.DragEndFields(w, t);
  }

  lemma SizerStepKeepsFlags(w: Window, s: SizerCall)
    ensures SizerStep(w, s).hasOnClose == w.hasOnClose
    ensures SizerStep(w, s).closable == w.closable
    ensures SizerStep(w, s).dockable == w.dockable
  {
    match s
    case SizerDragStart(_) =>
    case SizerDrag(_, _) =>
  }

  lemma WindowStepKeepsFlags(w: Window, c: WindowCall)
    requires Enabled(w, OnWindow(c))
    ensures WindowStep(w, c).hasOnClose == w.hasOnClose
    ensures WindowStep(w, c).closable == w.closable
    ensures WindowStep(w, c).dockable == w.dockable
  {
    // One proof obligation per call keeps each of them small.
    match c
    case Bind(_, _) =>
    case ToggleClosable =>
    case ToggleMovable =>
    case ToggleResizable =>
    case ShowTitlebar =>
    case HideTitlebar =>
    case Vappend(_) =>
    case Docked =>
    case Dock(_) =>
    case Undocked =>
    case Undock =>
    case Close =>
    case LeftClick =>
    case RightClick =>
  }

  lemma StepKeepsBookkeeping(w: Window, e: Event)
    requires Bookkeeping(w) && Enabled(w, e)
    ensures Bookkeeping(Step(w, e))
  {
    match e
    case OnWindow(c) => WindowStepKeepsBookkeeping(w, c);
    case OnHeader(h) => HeaderStepKeepsBookkeeping(w, h);
    case OnSizer(s) => SizerStepKeepsBookkeeping(w, s);
    case OnLayout(_, _) =>
  }

  lemma HeaderStepKeepsBookkeeping(w: Window, h: HeaderCall)
    requires Bookkeeping(w)
    ensures Bookkeeping(HeaderStep(w, h))
  {
    match h
    case HeaderDragStart => Header.DragStartFields(w);
    case HeaderDrag(_, _) =>
    case HeaderDragEnd(t) => Header.DragEndFields(w, t);
  }

  lemma SizerStepKeepsBookkeeping(w: Window, s: SizerCall)
    requires Bookkeeping(w)
    ensures Bookkeeping(SizerStep(w, s))
  {
    match s
    case SizerDragStart(_) =>
    case SizerDrag(_, _) =>
  }

  lemma WindowStepKeepsBookkeeping(w: Window, c: WindowCall)
    requires Bookkeeping(w) && Enabled(w, OnWindow(c))
    ensures Bookkeeping(WindowStep(w, c))
  {
    // One proof obligation per call keeps each of them small.
    match c
    case Bind(_, _) =>
    case ToggleClosable =>
    case ToggleMovable =>
    case ToggleResizable =>
    case ShowTitlebar =>
    case HideTitlebar =>
    case Vappend(_) =>
    case Docked =>
    case Dock(_) =>
    case Undocked =>
    case Undock =>
    case Close =>
    case LeftClick =>
    case RightClick =>
  }

  lemma {:induction false} RunKeepsBookkeeping(w: Window, es: seq<Event>)
    requires Bookkeeping(w)
    ensures Run(w, es).Some? ==> Bookkeeping(Run(w, es).value)
    decreases |es|
  {
    if |es| > 0 && Enabled(w, es[0]) {
      StepKeepsBookkeeping(w, es[0]);
      RunKeepsBookkeeping(Step(w, es[0]), es[1..]);
    }
  }

  /** Whatever content is attached along the way, a window's close callback
      has fired exactly once after it is closed, never before, and its
      header label always shows its name. */
  lemma CloseFiresCallbackOnce(title: string, closable: bool, dockable: bool, hasOnClose: bool,
                               dock: Option<DockId>, frame: Frame, es: seq<Event>)
    requires Run(Create(title, closable, dockable, hasOnClose, dock, frame), es).Some?
    ensures var r := Run(Create(title, closable, dockable, hasOnClose, dock, frame), es).value;
            && r.closeFired == (if r.closed && hasOnClose then 1 else 0)
            && r.titleLabel == WindowOps.Name(r)
  {
    var w := Create(title, closable, dockable, hasOnClose, dock, frame);
    CreateKeepsBookkeeping(title, closable, dockable, hasOnClose, dock, frame);
    RunKeepsBookkeeping(w, es);
    RunKeepsFlags(w, es);
  }

  /** The close-callback registration and the closable and dockable flags
      are fixed at construction. */
  lemma {:induction false} RunKeepsFlags(w: Window, es: seq<Event>)
    ensures Run(w, es).Some? ==>
      && Run(w, es).value.hasOnClose == w.hasOnClose
      && Run(w, es).value.closable == w.closable
      && Run(w, es).value.dockable == w.dockable
    decreases |es|
  {
    if |es| > 0 && Enabled(w, es[0]) {
      StepKeepsFlags(w, es[0]);
      RunKeepsFlags(Step(w, es[0]), es[1..]);
    }
  }

  // ---------------------------------------------------------------------
  // Chrome consistency: dock host, style and sizer agree.

  /** A window is docked exactly when it wears the docked style, and its
      sizer is shown exactly when it is sizable and floating. */
  predicate ChromeConsistent(w: Window)
  {
    && (w.dock.Some? <==> w.style == DockWindowStyle)
    && (w.footerVisible <==> w.sizable && w.dock.None?)
  }

  /** The calls that can break consistency: making a docked window sizable
      shows its sizer while it stays docked, and the style halves of docking and
      undocking, called on their own, reskin the window without changing its
      host. */
  predicate ChromeSafe(w: Window, e: Event)
  {
    && !(e == OnWindow(ToggleResizable) && w.dock.Some? && !w.sizable)
    && !(e == OnWindow(Docked) && w.dock.None?)
    && !(e == OnWindow(Undocked) && w.dock.Some?)
  }

  /** Every call of the run is enabled and chrome-safe where it happens. */
  predicate AllChromeSafe(w: Window, es: seq<Event>)
    decreases |es|
  {
    |es| == 0 ||
    (Enabled(w, es[0]) && ChromeSafe(w, es[0]) && AllChromeSafe(Step(w, es[0]), es[1..]))
  }

  lemma StepKeepsChrome(w: Window, e: Event)
    requires ChromeConsistent(w) && Enabled(w, e) && ChromeSafe(w, e)
    ensures ChromeConsistent(Step(w, e))
  {
    match e
    case OnWindow(c) => WindowStepKeepsChrome(w, c);
    case OnHeader(h) => HeaderStepKeepsChrome(w, h);
    case OnSizer(s) => SizerStepKeepsChrome(w, s);
    case OnLayout(_, _) =>
  }

  lemma HeaderStepKeepsChrome(w: Window, h: HeaderCall)
    requires ChromeConsistent(w)
    ensures ChromeConsistent(HeaderStep(w, h))
  {
    match h
    case HeaderDragStart => Header.DragStartFields(w);
    case HeaderDrag(_, _) =>
    case HeaderDragEnd(t) => Header.DragEndFields(w, t);
  }

  lemma SizerStepKeepsChrome(w: Window, s: SizerCall)
    requires ChromeConsistent(w)
    ensures ChromeConsistent(SizerStep(w, s))
  {
    match s
    case SizerDragStart(_) =>
    case SizerDrag(_, _) =>
  }

  lemma WindowStepKeepsChrome(w: Window, c: WindowCall)
    requires ChromeConsistent(w) && Enabled(w, OnWindow(c)) && ChromeSafe(w, OnWindow(c))
    ensures ChromeConsistent(WindowStep(w, c))
  {
    // One proof obligation per call keeps each of them small.
    match c
    case Bind(_, _) =>
    case ToggleClosable =>
    case ToggleMovable =>
    case ToggleResizable =>
    case ShowTitlebar =>
    case HideTitlebar =>
    case Vappend(_) =>
    case Docked =>
    case Dock(_) =>
    case Undocked =>
    case Undock =>
    case Close =>
    case LeftClick =>
    case RightClick =>
  }

  /** Runs of enabled, chrome-safe calls keep the dock host, the style and
      the sizer in agreement. */
  lemma {:induction false} RunKeepsChrome(w: Window, es: seq<Event>)
    requires ChromeConsistent(w) && AllChromeSafe(w, es)
    ensures Run(w, es).Some?
    ensures ChromeConsistent(Run(w, es).value)
    decreases |es|
  {
    if |es| > 0 {
      StepKeepsChrome(w, es[0]);
      RunKeepsChrome(Step(w, es[0]), es[1..]);
    }
  }

  /** A window created floating stays consistent along any chrome-safe run. */
  lemma FloatingWindowStaysConsistent(title: string, closable: bool, dockable: bool,
                                      hasOnClose: bool, frame: Frame, es: seq<Event>)
    requires AllChromeSafe(Create(title, closable, dockable, hasOnClose, None, frame), es)
    ensures Run(Create(title, closable, dockable, hasOnClose, None, frame), es).Some?
    ensures ChromeConsistent(Run(Create(title, closable, dockable, hasOnClose, None, frame), es).value)
  {
    RunKeepsChrome(Create(title, closable, dockable, hasOnClose, None, frame), es);
  }

  /** A window created with a dock host is docked but still shows its sizer. */
  lemma CreateDockedIsInconsistent(title: string, closable: bool, dockable: bool,
                                   hasOnClose: bool, t: DockId, frame: Frame)
    ensures var w := Create(title, closable, dockable, hasOnClose, Some(t), frame);
            w.dock.Some? && w.footerVisible && !ChromeConsistent(w)
  {
  }

  /** Making a docked, non-sizable window sizable shows the sizer while it
      is docked. */
  lemma ToggleResizableWhileDockedBreaksChrome(w: Window)
    requires ChromeConsistent(w) && w.dock.Some? && !w.sizable
    ensures !ChromeConsistent(WindowOps.ToggleResizable(w))
  {
  }

  /** Turning resizing off on a docked window hides its sizer, which a
      consistent docked window already keeps hidden, so the chrome stays
      consistent. */
  lemma ToggleResizableOffWhileDockedKeepsChrome(w: Window)
    requires ChromeConsistent(w) && w.dock.Some? && w.sizable
    ensures ChromeSafe(w, OnWindow(ToggleResizable))
    ensures !WindowOps.ToggleResizable(w).sizable
    ensures ChromeConsistent(WindowOps.ToggleResizable(w))
  {
  }

  /** Docking and undocking move a consistent window between the two modes
      without breaking consistency, whatever mode it starts in. */
  lemma DockAndUndockKeepChrome(w: Window, t: DockId)
    requires ChromeConsistent(w)
    ensures ChromeConsistent(WindowOps.Dock(w, t))
    ensures w.dock.Some? ==> ChromeConsistent(WindowOps.Undock(w))
  {
  }

  /** The docked style applied on its own to a floating window puts it in
      the docked style with no host. */
  lemma DockedWhileFloatingBreaksChrome(w: Window)
    requires ChromeConsistent(w) && w.dock.None?
    ensures !ChromeConsistent(WindowOps.Docked(w))
  {
  }

  /** The floating style applied on its own to a docked window puts it in
      the floating style while it still has a host. */
  lemma UndockedWhileDockedBreaksChrome(w: Window)
    requires ChromeConsistent(w) && w.dock.Some?
    ensures !ChromeConsistent(WindowOps.Undocked(w))
  {
  }

  /** The layout pass is what keeps the absolute position in step with
      moves. A floating window at x = ax = 0, 100 wide, is dragged 200 to
      the right by its header and laid out again; a sizer press at screen
      x = 230 then lies 30 from its left edge and resizes from the left. */
  lemma LayoutFollowsHeaderDrag(w: Window)
    requires w.dock.None? && w.movable && !w.closed
    requires w.frame.x == 0.0 && w.frame.ax == 0.0 && w.frame.w == 100.0
    ensures var es := [OnHeader(HeaderDragStart), OnHeader(HeaderDrag(200.0, 0.0)),
                       OnHeader(HeaderDragEnd(None)), OnLayout(200.0, w.frame.ay),
                       OnSizer(SizerDragStart(230.0))];
            Run(w, es).Some? && Run(w, es).value.resizeLeft
            && Run(w, es).value.frame.x == 200.0
  {
    var w1 := Header.DragStart(w);
    var w2 := Header.Drag(w1, 200.0, 0.0);
    var w3 := Header.DragEnd(w2, None);
    var w4 := Layout(w3, 200.0, w.frame.ay);
    var w5 := Sizer.DragStart(w4, 230.0);
    assert w5.resizeLeft;
    var es := [OnHeader(HeaderDragStart), OnHeader(HeaderDrag(200.0, 0.0)),
               OnHeader(HeaderDragEnd(None)), OnLayout(200.0, w.frame.ay),
               OnSizer(SizerDragStart(230.0))];
    assert Run(w, es) == Run(w1, es[1..]);
    assert Run(w1, es[1..]) == Run(w2, es[2..]);
    assert Run(w2, es[2..]) == Run(w3, es[3..]);
    assert Run(w3, es[3..]) == Run(w4, es[4..]);
    assert Run(w4, es[4..]) == Run(w5, es[5..]);
  }
}
