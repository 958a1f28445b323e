/** Data model of a toolkit window: the window record, its layer frame and
    the small enumerations the chrome switches between. */
module WindowTypes {

  /** Some/None, used for the optional dock host and the optional content. */
  datatype Option<+T> = None | Some(value: T)

  /** Identity of a docking section. The section itself (its layout and its
      own bookkeeping of hosted windows) lives outside this model. */
  datatype DockId = DockId(id: nat)

  /** The two style classes a window is skinned with. */
  datatype Style = WindowStyle | DockWindowStyle

  /** A layer is either fully transparent (lifted by a header drag) or opaque. */
  datatype Opacity = Void | Opaque

  /** The window's layer frame.
      (x, y) is the position relative to the parent, (ax, ay) the absolute
      on-screen position computed by the external layout, (w, h) the size.
      `raises` counts the move-to-top requests the layer has received: the
      relative z-order among sibling layers is kept by the layer stack, so a
      request to come to the top is what the window itself can observe. */
  datatype Frame = Frame(
    x: real, y: real,
    ax: real, ay: real,
    w: real, h: real,
    opacity: Opacity,
    raises: nat)

  /** The state of one window together with its header, body and sizer.
      - `title` is the name given at construction, `content` the name of the
        attached content widget, if any, and `titleLabel` the text of the
        header's title label.
      - `closeVisible` is the visibility of the header's close button; the
        button exists only when `closable`.
      - `resizeLeft` is the sizer's gesture flag: whether the current resize
        drag works on the left edge.
      - `hasOnClose` says whether a close callback was registered,
        `closeFired` how many times it has been invoked, and `closed`
        whether the window has destroyed itself. */
  datatype Window = Window(
    title: string,
    content: Option<string>,
    titleLabel: string,
    closable: bool,
    dockable: bool,
    movable: bool,
    sizable: bool,
    dock: Option<DockId>,
    style: Style,
    headerVisible: bool,
    footerVisible: bool,
    closeVisible: bool,
    frame: Frame,
    resizeLeft: bool,
    hasOnClose: bool,
    closeFired: nat,
    closed: bool)

  /** The window constructor. The style depends on the initial dock host,
      but the sizer is NOT hidden for a window created docked: the
      constructor records the host without running the docked transition.
      `frame` is the geometry the new layer starts with. */
  function Create(title: string, closable: bool, dockable: bool, hasOnClose: bool,
                  dock: Option<DockId>, frame: Frame): (r: Window)
    ensures r.dock == dock
    ensures r.style == DockWindowStyle <==> dock.Some?
    ensures r.movable && r.sizable
    ensures r.closable == closable && r.dockable == dockable
    ensures r.headerVisible && r.footerVisible
    ensures r.closeVisible <==> closable
    ensures r.content.None? && r.titleLabel == title
    ensures r.hasOnClose == hasOnClose && r.closeFired == 0 && !r.closed
    ensures r.frame == frame && !r.resizeLeft
  {
    Window(
      title := title,
      content := None,
      titleLabel := title,
      closable := closable,
      dockable := dockable,
      movable := true,
      sizable := true,
      dock := dock,
      style := if dock.Some? then DockWindowStyle else WindowStyle,
      headerVisible := true,
      footerVisible := true,
      closeVisible := closable,
      frame := frame,
      resizeLeft := false,
      hasOnClose := hasOnClose,
      closeFired := 0,
      closed := false)
  }

  /** A move-to-top request on the frame. */
  function Raise(f: Frame): (r: Frame)
  {
    f.(raises := f.raises + 1)
  }

  /** The larger of two reals. */
  function Max(a: real, b: real): (r: real)
    ensures r >= a && r >= b
    ensures r == a || r == b
  {
    if a >= b then a else b
  }
}
