/** The window header as a drag source: lifting the window (and detaching
    it from its dock), moving it, and dropping it onto a dock target. */
module Header {
  import opened WindowTypes
  import opened WindowOps

  /** The lift that ends a header drag start: transparent and on top. */
  function Lift(w: Window): (r: Window)
  {
    w.(frame := Raise(w.frame).(opacity := Void))
  }

  /** Start of a header drag: a docked window is undocked first, then the
      layer is made transparent and brought to the top. */
  function DragStart(w: Window): (r: Window)
    ensures r.dock.None? && r.frame.opacity == Void
    ensures w.dock.None? ==> r == w.(frame := w.frame.(opacity := Void, raises := w.frame.raises + 1))
    ensures w.dock.Some? ==> r.style == WindowStyle && r.frame.raises == w.frame.raises + 2
    ensures w.dock.Some? ==> r.frame.x == w.frame.ax && r.frame.y == w.frame.ay
    ensures w.dock.Some? && w.sizable ==> r.footerVisible
  {
    var u := if w.dock.Some? then Undock(w) else w;
    u.(frame := Raise(u.frame).(opacity := Void))
  }

  /** Apart from the dock host, the style, the sizer's visibility and the
      frame, a header drag start changes nothing; when docked it is exactly
      an undock followed by the lift. */
  lemma DragStartFrame(w: Window)
    ensures var r := DragStart(w);
            r == w.(dock := None, style := r.style, footerVisible := r.footerVisible, frame := r.frame)
    ensures w.dock.Some? ==> DragStart(w) == Lift(Undock(w))
  {
  }

  /** Field by field: a header drag start leaves the name, the flags and the
      close bookkeeping alone and clears the host. A window it undocks gets
      the floating style and, when sizable, its sizer back; a floating window
      keeps its style and its sizer as they were. */
  lemma DragStartFields(w: Window)
    ensures var r := DragStart(w);
            && r.title == w.title && r.content == w.content && r.titleLabel == w.titleLabel
            && r.closable == w.closable && r.dockable == w.dockable
            && r.movable == w.movable && r.sizable == w.sizable
            && r.closeVisible == w.closeVisible && r.hasOnClose == w.hasOnClose
            && r.closeFired == w.closeFired && r.closed == w.closed
            && r.dock.None? && r.style == (if w.dock.Some? then WindowStyle else w.style)
            && r.footerVisible == (w.footerVisible || (w.dock.Some? && w.sizable))
  {
    if w.dock.Some? {
      var u := Undock(w);
      assert DragStart(w) == u.(frame := Raise(u.frame).(opacity := Void));
    }
  }

  /** One header drag step by (dx, dy): a movable window is translated by
      exactly the delta; an immovable one does not change. */
  function Drag(w: Window, dx: real, dy: real): (r: Window)
    ensures w.movable ==> r.frame.x == w.frame.x + dx && r.frame.y == w.frame.y + dy
    ensures r == w.(frame := w.frame.(x := r.frame.x, y := r.frame.y))
    ensures !w.movable ==> r == w
  {
    if w.movable then
      w.(frame := w.frame.(x := w.frame.x + dx, y := w.frame.y + dy))
    else
      w
  }

  /** End of a header drag. `target` is the dock target found under the
      release point (the hit widget's nearest docking-section ancestor,
      asked for its target at that point), or None when there is none.
      A dockable window docks there; the layer is made opaque in any case. */
  function DragEnd(w: Window, target: Option<DockId>): (r: Window)
    ensures r.frame.opacity == Opaque
    ensures r.dock == (if w.dockable && target.Some? then target else w.dock)
    ensures w.dockable && target.Some? ==> r.style == DockWindowStyle
    ensures w.dockable && target.Some? && w.sizable ==> !r.footerVisible
    ensures w.dockable && target.Some? && !w.sizable ==> r.footerVisible == w.footerVisible
    ensures !(w.dockable && target.Some?) ==> r == w.(frame := w.frame.(opacity := Opaque))
    ensures r.frame == w.frame.(opacity := Opaque)
  {
    var d := if w.dockable && target.Some? then Dock(w, target.value) else w;
    d.(frame := d.frame.(opacity := Opaque))
  }

  /** Apart from the dock host, the style, the sizer's visibility and the
      opacity, a header drag end changes nothing; when it docks, it is
      exactly the window's own dock followed by restoring the opacity. */
  lemma DragEndFrame(w: Window, target: Option<DockId>)
    ensures var r := DragEnd(w, target);
            r == w.(dock := r.dock, style := r.style, footerVisible := r.footerVisible, frame := r.frame)
    ensures w.dockable && target.Some? ==>
      DragEnd(w, target) == Dock(w, target.value).(frame := w.frame.(opacity := Opaque))
  {
  }

  /** Field by field: a header drag end leaves the name, the flags and the
      close bookkeeping alone; when it docks, the style becomes the docked
      one and a sizable window's sizer is hidden. */
  lemma DragEndFields(w: Window, target: Option<DockId>)
    ensures var r := DragEnd(w, target);
            var docks := w.dockable && target.Some?;
            && r.title == w.title && r.content == w.content && r.titleLabel == w.titleLabel
            && r.closable == w.closable && r.dockable == w.dockable
            && r.movable == w.movable && r.sizable == w.sizable
            && r.closeVisible == w.closeVisible && r.hasOnClose == w.hasOnClose
            && r.closeFired == w.closeFired && r.closed == w.closed
            && r.style == (if docks then DockWindowStyle else w.style)
            && r.footerVisible == (if docks && w.sizable then false else w.footerVisible)
  {
    if w.dockable && target.Some? {
      var d := Dock(w, target.value);
      assert DragEnd(w, target) == d.(frame := d.frame.(opacity := Opaque));
    }
  }

  // ---------------------------------------------------------------------
  // Gestures: sequences of drag steps.

  /** Sum of the horizontal components of a list of deltas. */
  function SumX(ds: seq<(real, real)>): (r: real)
  {
    if |ds| == 0 then 0.0 else ds[0].0 + SumX(ds[1..])
  }

  /** Sum of the vertical components of a list of deltas. */
  function SumY(ds: seq<(real, real)>): (r: real)
  {
    if |ds| == 0 then 0.0 else ds[0].1 + SumY(ds[1..])
  }

  /** The drag steps of one gesture, in delivery order. */
  function Drags(w: Window, ds: seq<(real, real)>): (r: Window)
    decreases |ds|
  {
    if |ds| == 0 then w else Drags(Drag(w, ds[0].0, ds[0].1), ds[1..])
  }

  /** A sequence of drags translates a movable window by the sum of the
      deltas and leaves an immovable window alone. */
  lemma {:induction false} DragsTranslate(w: Window, ds: seq<(real, real)>)
    ensures w.movable ==>
      Drags(w, ds) == w.(frame := w.frame.(x := w.frame.x + SumX(ds), y := w.frame.y + SumY(ds)))
    ensures !w.movable ==> Drags(w, ds) == w
    decreases |ds|
  {
    if |ds| > 0 {
      var v := Drag(w, ds[0].0, ds[0].1);
      DragsTranslate(v, ds[1..]);
    }
  }

  /** `n` copies of the delta `d`. */
  function Repeat(d: (real, real), n: nat): (ds: seq<(real, real)>)
    ensures |ds| == n
  {
    if n == 0 then [] else [d] + Repeat(d, n - 1)
  }

  /** The deltas of `n` equal steps add up to `n` times the step. */
  lemma {:induction false} SumXRepeat(d: (real, real), n: nat)
    ensures SumX(Repeat(d, n)) == n as real * d.0
    ensures SumY(Repeat(d, n)) == n as real * d.1
  {
    if n > 0 {
      SumXRepeat(d, n - 1);
      assert Repeat(d, n)[1..] == Repeat(d, n - 1);
    }
  }

  /** `n` drags of (5, 0) move a movable window right by 5n and nothing else. */
  lemma RepeatedDragMovesByMultiple(w: Window, n: nat)
    requires w.movable
    ensures Drags(w, Repeat((5.0, 0.0), n)).frame.x == w.frame.x + 5.0 * n as real
    ensures Drags(w, Repeat((5.0, 0.0), n)).frame.y == w.frame.y
    ensures Drags(w, Repeat((5.0, 0.0), n)) == w.(frame := w.frame.(x := w.frame.x + 5.0 * n as real))
  {
    DragsTranslate(w, Repeat((5.0, 0.0), n));
    SumXRepeat((5.0, 0.0), n);
  }

  /** A whole header gesture: drag start, the drag steps, drag end. */
  function Gesture(w: Window, ds: seq<(real, real)>, target: Option<DockId>): (r: Window)
  {
    DragEnd(Drags(DragStart(w), ds), target)
  }

  /** Whatever the starting state, a header gesture ends opaque, docked at
      the target exactly when the window is dockable and a target was found
      and floating otherwise; the dock it enters was entered from the
      floating state, so no host is overwritten. Without a dock, a movable
      window ends where it started (its absolute position if it was docked)
      moved by the sum of the deltas. */
  lemma {:induction false} GestureOutcome(w: Window, ds: seq<(real, real)>, target: Option<DockId>)
    ensures Gesture(w, ds, target).frame.opacity == Opaque
    ensures Gesture(w, ds, target).dock == (if w.dockable && target.Some? then target else None)
    ensures Drags(DragStart(w), ds).dock.None?
    ensures w.movable && !(w.dockable && target.Some?) ==>
      Gesture(w, ds, target).frame.x ==
        (if w.dock.Some? then w.frame.ax else w.frame.x) + SumX(ds)
    ensures w.movable && !(w.dockable && target.Some?) ==>
      Gesture(w, ds, target).frame.y ==
        (if w.dock.Some? then w.frame.ay else w.frame.y) + SumY(ds)
  {
    DragsTranslate(DragStart(w), ds);
  }

  /** The floating-window scenario: a closable, dockable window "Log" is
      lifted, dragged three times by (5, 0) and dropped where no docking
      section is: it stays floating, is opaque again, has moved by (15, 0)
      and was brought to the top once. */
  lemma LogWindowScenario(f: Frame)
    ensures var w := Create("Log", true, true, false, None, f);
            var r := Gesture(w, Repeat((5.0, 0.0), 3), None);
            && r.dock.None? && r.frame.opacity == Opaque
            && r.frame.x == f.x + 15.0 && r.frame.y == f.y
            && r.frame.raises == f.raises + 1
  {
    var w := Create("Log", true, true, false, None, f);
    DragsTranslate(DragStart(w), Repeat((5.0, 0.0), 3));
    SumXRepeat((5.0, 0.0), 3);
  }
}
