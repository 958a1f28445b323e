/** The entry points of a window: binding to a parent, the flag toggles,
    naming, docking and undocking, closing and clicks. */
module WindowOps {
  import opened WindowTypes

  /** Attaching the window to its parent: a floating window is centred on
      the root surface of size (rootW, rootH); a docked one is left where
      its host puts it. */
  function Bind(w: Window, rootW: real, rootH: real): (r: Window)
    ensures w.dock.None? ==> r.frame.x + r.frame.w / 2.0 == rootW / 2.0
    ensures w.dock.None? ==> r.frame.y + r.frame.h / 2.0 == rootH / 2.0
    ensures r == w.(frame := w.frame.(x := r.frame.x, y := r.frame.y))
    ensures w.dock.Some? ==> r == w
  {
    if w.dock.None? then
      w.(frame := w.frame.(x := rootW / 2.0 - w.frame.w / 2.0,
                           y := rootH / 2.0 - w.frame.h / 2.0))
    else
      w
  }

  /** Shows the close button when it is hidden and hides it when shown.
      The button exists only on a closable window. */
  function ToggleClosable(w: Window): (r: Window)
    requires w.closable
    ensures r.closeVisible != w.closeVisible
    ensures r == w.(closeVisible := r.closeVisible)
  {
    w.(closeVisible := !w.closeVisible)
  }

  /** Flips whether the header may move the window. */
  function ToggleMovable(w: Window): (r: Window)
    ensures r.movable != w.movable
    ensures r == w.(movable := r.movable)
  {
    w.(movable := !w.movable)
  }

  /** Flips whether the window may be resized, and shows the sizer exactly
      when it now may be; this happens whether or not the window is docked. */
  function ToggleResizable(w: Window): (r: Window)
    ensures r.sizable != w.sizable
    ensures r.footerVisible == r.sizable
    ensures r == w.(sizable := r.sizable, footerVisible := r.footerVisible)
  {
    w.(sizable := !w.sizable, footerVisible := !w.sizable)
  }

  /** Shows the header. */
  function ShowTitlebar(w: Window): (r: Window)
    ensures r.headerVisible
    ensures r == w.(headerVisible := r.headerVisible)
  {
    w.(headerVisible := true)
  }

  /** Hides the header. */
  function HideTitlebar(w: Window): (r: Window)
    ensures !r.headerVisible
    ensures r == w.(headerVisible := r.headerVisible)
  {
    w.(headerVisible := false)
  }

  /** The window's name: the content's name once content is attached,
      otherwise the title given at construction. */
  function Name(w: Window): (r: string)
    ensures w.content.Some? ==> r == w.content.value
    ensures w.content.None? ==> r == w.title
  {
    match w.content
    case Some(n) => n
    case None => w.title
  }

  /** Attaching a content widget named `n`: the header's title label shows
      the new name and the window's name becomes the content's name. */
  function Vappend(w: Window, n: string): (r: Window)
    ensures Name(r) == n && r.titleLabel == n
    ensures r.title == w.title
    ensures r == w.(content := r.content, titleLabel := r.titleLabel)
  {
    w.(content := Some(n), titleLabel := n)
  }

  /** The style half of docking: docked skin, and the sizer is hidden when
      the window is sizable (a non-sizable window keeps its footer as it is). */
  function Docked(w: Window): (r: Window)
    ensures r.style == DockWindowStyle
    ensures r.footerVisible == (w.footerVisible && !w.sizable)
    ensures r == w.(style := r.style, footerVisible := r.footerVisible)
  {
    w.(style := DockWindowStyle,
       footerVisible := if w.sizable then false else w.footerVisible)
  }

  /** Docking into section `t`. The previous host, if any, is overwritten
      without being released; accepting the window is the host's business. */
  function Dock(w: Window, t: DockId): (r: Window)
    ensures r.dock == Some(t) && r.style == DockWindowStyle
    ensures w.sizable ==> !r.footerVisible
    ensures !w.sizable ==> r.footerVisible == w.footerVisible
    ensures r.frame == w.frame
    ensures r == w.(dock := r.dock, style := r.style, footerVisible := r.footerVisible)
  {
    Docked(w).(dock := Some(t))
  }

  /** The style half of undocking: floating skin, the sizer is shown again
      when sizable, the position is re-anchored to the absolute on-screen
      position so the window does not jump, and the layer comes to the top. */
  function Undocked(w: Window): (r: Window)
    ensures r.style == WindowStyle
    ensures r.footerVisible == (w.footerVisible || w.sizable)
    ensures r.frame.x == w.frame.ax && r.frame.y == w.frame.ay
    ensures r.frame.raises == w.frame.raises + 1
    ensures r.frame == w.frame.(x := r.frame.x, y := r.frame.y, raises := r.frame.raises)
    ensures r == w.(style := r.style, footerVisible := r.footerVisible, frame := r.frame)
  {
    w.(style := WindowStyle,
       footerVisible := if w.sizable then true else w.footerVisible,
       frame := Raise(w.frame.(x := w.frame.ax, y := w.frame.ay)))
  }

  /** Leaving the dock host. The host is dereferenced unconditionally, so
      the window must be docked. */
  function Undock(w: Window): (r: Window)
    requires w.dock.Some?
    ensures r.dock.None? && r.style == WindowStyle
    ensures w.sizable ==> r.footerVisible
    ensures !w.sizable ==> r.footerVisible == w.footerVisible
    ensures r.frame.x == w.frame.ax && r.frame.y == w.frame.ay
    ensures r.frame.raises == w.frame.raises + 1
    ensures r.frame == w.frame.(x := r.frame.x, y := r.frame.y, raises := r.frame.raises)
    ensures r == w.(dock := None, style := r.style, footerVisible := r.footerVisible, frame := r.frame)
  {
    Undocked(w.(dock := None))
  }

  /** Closing: the close callback, when registered, is invoked once, then
      the window destroys itself. A destroyed window cannot be closed again. */
  function Close(w: Window): (r: Window)
    requires !w.closed
    ensures r.closed
    ensures r.closeFired == w.closeFired + (if w.hasOnClose then 1 else 0)
    ensures r == w.(closed := true, closeFired := r.closeFired)
  {
    w.(closeFired := if w.hasOnClose then w.closeFired + 1 else w.closeFired,
       closed := true)
  }

  /** Left click: a floating window comes to the top; a docked window
      keeps its place among its siblings. */
  function LeftClick(w: Window): (r: Window)
    ensures r.frame.raises == w.frame.raises + (if w.dock.None? then 1 else 0)
    ensures r == w.(frame := w.frame.(raises := r.frame.raises))
  {
    if w.dock.None? then w.(frame := Raise(w.frame)) else w
  }

  /** Right click on the window: the same raise as a left click. */
  function RightClick(w: Window): (r: Window)
    ensures r.frame.raises == w.frame.raises + (if w.dock.None? then 1 else 0)
    ensures r == w.(frame := w.frame.(raises := r.frame.raises))
  {
    if w.dock.None? then w.(frame := Raise(w.frame)) else w
  }

  // ---------------------------------------------------------------------
  // Properties relating several entry points.

  /** Docking a floating window whose position already matches its
      absolute position, then undocking it, restores the window except for
      one extra move-to-top request. */
  lemma DockUndockRoundTrip(w: Window, t: DockId)
    requires w.dock.None? && w.style == WindowStyle
    requires w.frame.x == w.frame.ax && w.frame.y == w.frame.ay
    requires w.footerVisible == w.sizable
    ensures Undock(Dock(w, t)) == w.(frame := Raise(w.frame))
  {
  }

  /** Docking twice in a row leaves no trace of the first host. */
  lemma RedockOverwrites(w: Window, s: DockId, t: DockId)
    ensures Dock(Dock(w, s), t) == Dock(w, t)
  {
  }

  /** Toggling movability twice restores the window. */
  lemma ToggleMovableInvolution(w: Window)
    ensures ToggleMovable(ToggleMovable(w)) == w
  {
  }

  /** Toggling the close button twice restores the window. */
  lemma ToggleClosableInvolution(w: Window)
    requires w.closable
    ensures ToggleClosable(ToggleClosable(w)) == w
  {
  }

  /** Toggling resizability twice restores the window once the sizer's
      visibility already agrees with the flag. */
  lemma ToggleResizableInvolution(w: Window)
    requires w.footerVisible == w.sizable
    ensures ToggleResizable(ToggleResizable(w)) == w
  {
  }

  /** Hiding and then showing the header restores a window whose header
      was shown. */
  lemma TitlebarHideShow(w: Window)
    requires w.headerVisible
    ensures ShowTitlebar(HideTitlebar(w)) == w
  {
  }

  /** Showing the header twice is the same as showing it once. */
  lemma ShowTitlebarIdempotent(w: Window)
    ensures ShowTitlebar(ShowTitlebar(w)) == ShowTitlebar(w)
  {
  }

  /** Hiding the header twice is the same as hiding it once. */
  lemma HideTitlebarIdempotent(w: Window)
    ensures HideTitlebar(HideTitlebar(w)) == HideTitlebar(w)
  {
  }

  /** Binding a floating window centres it regardless of where it was. */
  lemma BindIdempotent(w: Window, rootW: real, rootH: real)
    ensures Bind(Bind(w, rootW, rootH), rootW, rootH) == Bind(w, rootW, rootH)
  {
  }
}
