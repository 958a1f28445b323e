/** The window sizer: a resize handle that classifies each gesture as a
    left-edge or right-edge resize and clamps the size to hard floors. */
module Sizer {
  import opened WindowTypes

  /** The narrowest a resize leaves a window. */
  const MinWidth: real := 10.0
  /** The lowest a resize leaves a window. */
  const MinHeight: real := 25.0

  /** Start of a resize gesture at horizontal screen position `xPos`: the
      layer comes to the top, and the gesture works on the left edge exactly
      when the press lies in the left half of the frame, the midpoint
      included. */
  function DragStart(w: Window, xPos: real): (r: Window)
    ensures r.resizeLeft <==> xPos - w.frame.ax <= w.frame.w / 2.0
    ensures r.frame.raises == w.frame.raises + 1
    ensures r == w.(resizeLeft := r.resizeLeft, frame := w.frame.(raises := r.frame.raises))
  {
    w.(resizeLeft := !(xPos - w.frame.ax > w.frame.w * 0.5),
       frame := Raise(w.frame))
  }

  /** One resize step by (dx, dy). A left-edge resize moves the left edge
      by dx, trading position for width; a right-edge resize keeps the
      position. Either way the height follows dy. Width and height are
      clamped below by the floors. */
  function Drag(w: Window, dx: real, dy: real): (r: Window)
    ensures r.frame.w >= MinWidth && r.frame.h >= MinHeight
    ensures w.resizeLeft ==> r.frame.x == w.frame.x + dx && r.frame.w == Max(MinWidth, w.frame.w - dx)
    ensures !w.resizeLeft ==> r.frame.x == w.frame.x && r.frame.w == Max(MinWidth, w.frame.w + dx)
    ensures r.frame.h == Max(MinHeight, w.frame.h + dy)
    ensures r == w.(frame := w.frame.(x := r.frame.x, w := r.frame.w, h := r.frame.h))
  {
    if w.resizeLeft then
      w.(frame := w.frame.(x := w.frame.x + dx,
                           w := Max(MinWidth, w.frame.w - dx),
                           h := Max(MinHeight, w.frame.h + dy)))
    else
      w.(frame := w.frame.(w := Max(MinWidth, w.frame.w + dx),
                           h := Max(MinHeight, w.frame.h + dy)))
  }

  /** Unless the floor bites, a left-edge resize keeps the right edge where
      it was and a right-edge resize keeps the left edge; the top edge never
      moves. */
  lemma DragKeepsOppositeEdge(w: Window, dx: real, dy: real)
    ensures w.resizeLeft && w.frame.w - dx >= MinWidth ==>
      Drag(w, dx, dy).frame.x + Drag(w, dx, dy).frame.w == w.frame.x + w.frame.w
    ensures !w.resizeLeft ==> Drag(w, dx, dy).frame.x == w.frame.x
    ensures Drag(w, dx, dy).frame.y == w.frame.y
  {
  }

  /** The resize steps of one gesture, in delivery order. After at least
      one step the floors hold whatever the deltas were; the gesture's edge
      classification, the vertical position and everything outside the
      frame's position and size are left alone. */
  function Drags(w: Window, ds: seq<(real, real)>): (r: Window)
    ensures |ds| > 0 ==> r.frame.w >= MinWidth && r.frame.h >= MinHeight
    ensures !w.resizeLeft ==> r.frame.x == w.frame.x
    ensures r == w.(frame := w.frame.(x := r.frame.x, w := r.frame.w, h := r.frame.h))
    decreases |ds|
  {
    if |ds| == 0 then w else Drags(Drag(w, ds[0].0, ds[0].1), ds[1..])
  }

  /** A resize gesture: drag start at `xPos`, then the drag steps. */
  function Gesture(w: Window, xPos: real, ds: seq<(real, real)>): (r: Window)
  {
    Drags(DragStart(w, xPos), ds)
  }

  /** Every resize gesture with at least one step leaves the frame at least
      MinWidth wide and MinHeight high, and the window on top. */
  lemma GestureRespectsFloors(w: Window, xPos: real, ds: seq<(real, real)>)
    requires |ds| > 0
    ensures Gesture(w, xPos, ds).frame.w >= MinWidth
    ensures Gesture(w, xPos, ds).frame.h >= MinHeight
    ensures Gesture(w, xPos, ds).frame.raises == w.frame.raises + 1
  {
  }

  /** A press exactly at the horizontal midpoint counts as the left half. */
  lemma MidpointIsLeft(w: Window)
    ensures DragStart(w, w.frame.ax + w.frame.w / 2.0).resizeLeft
  {
  }

  /** The resize scenario: a 100 x 50 frame pressed at local x = 20 resizes
      from the left edge, and a step of (-10, 5) makes it 110 x 55 with the
      position moved 10 to the left. */
  lemma LeftEdgeScenario(w: Window)
    requires w.frame.w == 100.0 && w.frame.h == 50.0
    ensures DragStart(w, w.frame.ax + 20.0).resizeLeft
    ensures var r := Drag(DragStart(w, w.frame.ax + 20.0), -10.0, 5.0);
            r.frame.w == 110.0 && r.frame.h == 55.0 && r.frame.x == w.frame.x - 10.0
  {
  }
}
