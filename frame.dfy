/** A frame as the sequence of SDL canvas calls the renderer issues. */
module Frame {
  import opened Geometry
  import opened Style

  /** One canvas call. `FillRect` carries the draw colour set just before it;
      `Text` is the copy of a rendered text texture (with the colour it was
      rendered in); `Image` is the `copy_ex` of the cached image texture. */
  datatype DrawOp =
    | Clear(color: Color)
    | FillRect(x: int, y: int, w: int, h: int, color: Color)
    | Text(x: int, y: int, w: int, h: int, color: Color)
    | Image(texture: nat, dst: Rect, angle: int, flipH: bool, flipV: bool)
    | Present

  /** What a layer drew, and whether it finished (`Ok`) or returned an error
      part way through, leaving the calls it had already issued. */
  datatype Drawn = Drawn(ok: bool, ops: seq<DrawOp>)

  /** Overlays (status bar and help box) only fill rectangles and copy text. */
  predicate IsOverlayOp(op: DrawOp)
  {
    op.FillRect? || op.Text?
  }

  predicate AllOverlay(ops: seq<DrawOp>)
  {
    forall i | 0 <= i < |ops| :: IsOverlayOp(ops[i])
  }
}
