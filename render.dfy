/** The compositor: `Program`'s render methods. Each method changes the
    screen's cache fields and the view the way `set_image_texture` does, and
    appends the canvas calls it issues to `frame`; each is specified by the
    pure functions of `ImageCache` and `Layers`. */
module Render {
  import opened Wrappers
  import opened Geometry
  import opened Style
  import opened Frame
  import opened Layers
  import opened ImageCache

  /** `make_dst`: the destination rectangle for a texture in the viewport
      under the view's scale and pan. It is not part of this model. */
  type DstMaker = (Texture, Viewport, real, real, real) -> Rect

  /** The image side of a frame: what the image service returns for the
      current path, the fit scale computed after a load, and `make_dst`. */
  datatype ImageServices = ImageServices(load: LoadResult, fit: real, makeDst: DstMaker)

  /** `render_image` after the cache step: one rotated, mirrored copy of the
      cached texture, or nothing when no texture was ever loaded. */
  function ImageOps(s: CacheState, vp: Viewport, makeDst: DstMaker): (ops: seq<DrawOp>)
    ensures |ops| == (if s.texture.Some? then 1 else 0)
    ensures forall i | 0 <= i < |ops| ::
      ops[i].Image? && ops[i].texture == s.texture.value.id
      && ops[i].angle == RotationDegrees(s.view.rot)
      && ops[i].flipH == s.view.flipH && ops[i].flipV == s.view.flipV
      && ops[i].dst == makeDst(s.texture.value, vp, s.view.scale, s.view.panX, s.view.panY)
  {
    match s.texture
    case None => []
    case Some(t) =>
      [Image(t.id, makeDst(t, vp, s.view.scale, s.view.panX, s.view.panY), RotationDegrees(s.view.rot),
             s.view.flipH, s.view.flipV)]
  }

  /** The present that ends a frame, issued only when no overlay failed. */
  function Finish(d: Drawn): seq<DrawOp>
  {
    d.ops + (if d.ok then [Present] else [])
  }

  /** `render_screen`: a frame is cleared to dark grey; with a current image
      the image layer follows, drawn from `drawn`, the cache state after the
      cache step; then what the overlays drew (`overlay`, see `OverlayOps`);
      and it is presented unless an overlay failed. Without a current image
      (`drawn` is None) the cache is not consulted at all (`render_blank`). */
  function FrameOps(drawn: Option<CacheState>, makeDst: DstMaker, vp: Viewport, overlay: Drawn): (d: Drawn)
  {
    var image := if drawn.None? then [] else ImageOps(drawn.value, vp, makeDst);
    Drawn(overlay.ok, [Clear(DarkGrey)] + image + Finish(overlay))
  }

  /** Where each layer lands in a frame: the clear first, then the image
      copies, then the overlay calls, then the present when the overlays
      succeeded. */
  lemma LayerPositions(image: seq<DrawOp>, overlay: Drawn)
    requires forall i | 0 <= i < |image| :: image[i].Image?
    requires AllOverlay(overlay.ops)
    ensures var ops := [Clear(DarkGrey)] + image + Finish(overlay);
      |ops| == 1 + |image| + |overlay.ops| + (if overlay.ok then 1 else 0)
      && ops[0] == Clear(DarkGrey)
      && (forall i | 1 <= i <= |image| :: ops[i].Image?)
      && (forall i | 1 + |image| <= i < 1 + |image| + |overlay.ops| :: IsOverlayOp(ops[i]))
      && (overlay.ok ==> ops[|ops| - 1] == Present)
  {
    var ops := [Clear(DarkGrey)] + image + Finish(overlay);
    assert forall k | 0 <= k < |image| :: ops[1 + k] == image[k];
    assert forall k | 0 <= k < |overlay.ops| :: ops[1 + |image| + k] == overlay.ops[k];
  }

  /** Every frame starts with one clear; a present ends it exactly when the
      overlays succeeded; between them there are only image copies, fills and
      text copies. This holds for any overlay that only fills and copies text,
      which `OverlayOps` guarantees. */
  lemma FrameIsBracketed(drawn: Option<CacheState>, makeDst: DstMaker, vp: Viewport, overlay: Drawn)
    requires AllOverlay(overlay.ops)
    ensures var d := FrameOps(drawn, makeDst, vp, overlay);
      |d.ops| >= 1 && d.ops[0] == Clear(DarkGrey)
      && (d.ok <==> d.ops[|d.ops| - 1] == Present)
      && forall i | 0 < i < |d.ops| - 1 :: d.ops[i].Image? || IsOverlayOp(d.ops[i])
  {
    var image := if drawn.None? then [] else ImageOps(drawn.value, vp, makeDst);
    LayerPositions(image, overlay);
  }

  /** The image lies below every overlay: each image copy comes before every
      fill and text copy of the frame, and a frame without a current image has
      no image copy at all. */
  lemma ImageBelowOverlays(drawn: Option<CacheState>, makeDst: DstMaker, vp: Viewport, overlay: Drawn)
    requires AllOverlay(overlay.ops)
    ensures var d := FrameOps(drawn, makeDst, vp, overlay);
      (forall i, j | 0 <= i < |d.ops| && 0 <= j < |d.ops| && d.ops[i].Image? && IsOverlayOp(d.ops[j]) :: i < j)
      && (drawn.None? ==> forall i | 0 <= i < |d.ops| :: !d.ops[i].Image?)
  {
    var image := if drawn.None? then [] else ImageOps(drawn.value, vp, makeDst);
    LayerPositions(image, overlay);
  }

  /** A frame whose load fails (or whose texture is otherwise stale and
      cannot be reloaded) still draws the previously cached texture, with the
      scale, pan and rotation it had, but unmirrored. */
  lemma DegradedFrameKeepsLastImage(s: CacheState, index: nat, force: bool, path: Option<Path>, img: ImageServices,
                                    vp: Viewport, overlay: Drawn, last: Texture)
    requires s.texture == Some(last) && !CacheHit(s, index, force)
    requires path.Some? && img.load == LoadFailed
    ensures var next := TextureStep(s, index, force, path, img.load, img.fit).state;
      var d := FrameOps(Some(next), img.makeDst, vp, overlay);
      |d.ops| >= 2
      && d.ops[1] == Image(last.id, img.makeDst(last, vp, s.view.scale, s.view.panX, s.view.panY),
                           RotationDegrees(s.view.rot), false, false)
  {
    var next := TextureStep(s, index, force, path, img.load, img.fit).state;
    assert next == s.(view := s.view.(flipH := false, flipV := false));
    var d := FrameOps(Some(next), img.makeDst, vp, overlay);
    assert d.ops[1] == ImageOps(next, vp, img.makeDst)[0];
  }

  /** The viewer's render state: the screen's cache fields, the view, the
      overlay toggles and mode, the viewport, and the canvas calls issued so
      far. `loads` records every path handed to the image service. */
  class Program {
    var lastIndex: nat
    var lastTexture: Option<Texture>
    var dirty: bool
    var scale: real
    var panX: real
    var panY: real
    var rot: RotAngle
    var flipH: bool
    var flipV: bool
    var mode: Mode
    var renderInfobar: bool
    var renderHelp: HelpRender
    var viewport: Viewport
    var frame: seq<DrawOp>
    ghost var loads: seq<Path>

    /** The cache fields and the view as one value. */
    function Cache(): CacheState
      reads this`lastIndex, this`lastTexture, this`dirty, this`scale, this`panX, this`panY,
            this`rot, this`flipH, this`flipV
    {
      CacheState(lastIndex, lastTexture, dirty, View(scale, panX, panY, rot, flipH, flipV))
    }

    /** The overlay toggles and the mode. */
    function Ui(): Overlay
      reads this`mode, this`renderInfobar, this`renderHelp
    {
      Overlay(mode, renderInfobar, renderHelp)
    }

    /** A screen with nothing loaded yet and an empty frame log. */
    constructor (vp: Viewport, m: Mode, showBar: bool, help: HelpRender)
      ensures Cache() == CacheState(0, None, false, FitView(1.0))
      ensures Ui() == Overlay(m, showBar, help) && viewport == vp
      ensures frame == [] && loads == []
    {
      lastIndex, lastTexture, dirty := 0, None, false;
      scale, panX, panY, rot, flipH, flipV := 1.0, 0.0, 0.0, Up, false, false;
      mode, renderInfobar, renderHelp, viewport := m, showBar, help, vp;
      frame, loads := [], [];
    }

    /** `set_image_texture` for the image at `index`. */
    method SetImageTexture(index: nat, path: Option<Path>, load: LoadResult, fit: real, force: bool)
      modifies this`lastIndex, this`lastTexture, this`dirty, this`scale, this`panX, this`panY,
               this`rot, this`flipH, this`flipV, this`loads
      ensures var step := TextureStep(old(Cache()), index, force, path, load, fit);
        Cache() == step.state
        && loads == old(loads) + (if step.loaded then [path.value] else [])
    {
      if index == lastIndex && lastTexture.Some? && !dirty && !force {
        return;
      }
      // a cache miss resets the mirroring before anything else
      flipH := false;
      flipV := false;
      if path.None? {
        return;
      }
      loads := loads + [path.value];
      match load {
        case LoadFailed =>
          return;
        case Loaded(t) =>
          lastIndex := index;
          lastTexture := Some(t);
          dirty := false;
          scale := fit;
          panX := 0.0;
          panY := 0.0;
          rot := Up;
      }
    }

    /** `render_image`: the cache step, then one copy of the cached texture. */
    method RenderImage(index: nat, path: Option<Path>, img: ImageServices, force: bool)
      modifies this`lastIndex, this`lastTexture, this`dirty, this`scale, this`panX, this`panY,
               this`rot, this`flipH, this`flipV, this`loads, this`frame
      ensures var step := TextureStep(old(Cache()), index, force, path, img.load, img.fit);
        Cache() == step.state
        && loads == old(loads) + (if step.loaded then [path.value] else [])
        && frame == old(frame) + ImageOps(step.state, viewport, img.makeDst)
    {
      SetImageTexture(index, path, img.load, img.fit, force);
      match lastTexture {
        case None =>
          return;
        case Some(t) =>
          var dst := img.makeDst(t, viewport, scale, panX, panY);
          var angle := RotationDegrees(rot);
          frame := frame + [Image(t.id, dst, angle, flipH, flipV)];
      }
    }

    /** `render_bar`: three fills, each starting where the previous ended. */
    method RenderBar(height: nat, modeWidth: nat, infoWidth: nat)
      requires height <= viewport.height
      modifies this`frame
      ensures frame == old(frame) + BarOps(ModeColors(mode), viewport, height, modeWidth, infoWidth)
    {
      var colors := ModeColors(mode);
      var width := viewport.width;
      var y := viewport.height - height;
      var x := 0;
      var w := modeWidth + HalfPad * 3;
      frame := frame + [FillRect(x, y, w, height, colors.primary)];
      x := x + w;
      w := infoWidth + Padding * 2;
      frame := frame + [FillRect(x, y, w, height, colors.secondary)];
      x := x + w;
      w := width;
      frame := frame + [FillRect(x, y, w, height, colors.tertiary)];
    }

    /** `render_infobar`, given what the text service returns for the
      information text and the mode label. */
    method RenderInfobar(info: TextResult, modeText: TextResult) returns (ok: bool)
      requires BarFits(info, modeText, viewport)
      modifies this`frame
      ensures var d := InfobarOps(mode, viewport, info, modeText);
        ok == d.ok && frame == old(frame) + d.ops
    {
      var textColor := ModeTextColor(mode);
      if info.RasterFailed? || modeText.RasterFailed? {
        return false;
      }
      RenderBar(modeText.height, modeText.width, info.width);
      var y := viewport.height - modeText.height;
      frame := frame + [Text(Padding, y, modeText.width, modeText.height, textColor)];
      frame := frame + [Text(modeText.width + Padding * 2, y, info.width, info.height, textColor)];
      ok := true;
    }

    /** `render_help_box`. */
    method RenderHelpBox(height: nat, width: nat)
      modifies this`frame
      ensures frame == old(frame) + [HelpBox(viewport, height, width)]
    {
      var y := Center(viewport.height, height);
      var x := Center(viewport.width, width);
      frame := frame + [FillRect(x, y, width, height, HelpBackground)];
    }

    /** `render_help`, given the first line rendered to measure the box and
      each line as the loop renders it. */
    method RenderHelp(probe: TextResult, lines: nat -> LineResult) returns (ok: bool)
      modifies this`frame
      ensures var d := HelpOps(renderHelp, viewport, probe, lines);
        ok == d.ok && frame == old(frame) + d.ops
    {
      if renderHelp.NoHelp? {
        return true;
      }
      var n := HelpLineCount(renderHelp);
      var total := HelpHeight(n);
      var y := Center(viewport.height, total);
      if probe.RasterFailed? {
        return false;
      }
      RenderHelpBox(total, probe.width);
      ok := RenderHelpLines(lines, n, y);
      HelpOpsBody(renderHelp, viewport, probe, lines);
    }

    /** The line loop of `render_help`: the first `n` lines, from `y0` down. */
    method RenderHelpLines(lines: nat -> LineResult, n: nat, y0: int) returns (ok: bool)
      modifies this`frame
      ensures var d := HelpLines(lines, n, viewport.width, y0);
        ok == d.ok && frame == old(frame) + d.ops
    {
      var vw := viewport.width;
      var i := 0;
      var y := y0;
      while i < n
        invariant 0 <= i <= n
        invariant HelpLines(lines, i, vw, y0).ok
        invariant frame == old(frame) + HelpLines(lines, i, vw, y0).ops
        invariant y == HelpLines(lines, i, vw, y0).y
      {
        match lines(i) {
          case LineFailed =>
            HelpLinesStopAtFailure(lines, i + 1, n, vw, y0);
            return false;
          case LineDrawn(w, h, copied) =>
            var x := Center(vw, w);
            frame := frame + [Text(x, y, w, h, DarkText)];
            if copied {
              y := y + LineHeight + LinePadding;
            }
        }
        i := i + 1;
      }
      ok := true;
    }

    /** The tail shared by `render_screen` and `render_blank`: the status bar
      when it is shown, the help layer, then the present. An overlay that
      returns an error ends the render before the frame is presented. */
    method RenderOverlays(t: TextServices) returns (ok: bool)
      requires renderInfobar ==> BarFits(t.info, t.modeText, viewport)
      modifies this`frame
      ensures var d := OverlayOps(Ui(), viewport, t);
        ok == d.ok && frame == old(frame) + Finish(d)
    {
      if renderInfobar {
        ok := RenderInfobar(t.info, t.modeText);
        if !ok {
          return;
        }
      }
      ok := RenderHelp(t.helpProbe, t.helpLines);
      if !ok {
        return;
      }
      frame := frame + [Present];
    }

    /** `render_blank`: the frame drawn when there is no current image. */
    method RenderBlank(t: TextServices) returns (ok: bool)
      requires renderInfobar ==> BarFits(t.info, t.modeText, viewport)
      modifies this`frame
      ensures var d := OverlayOps(Ui(), viewport, t);
        ok == d.ok && frame == old(frame) + [Clear(DarkGrey)] + Finish(d)
    {
      frame := frame + [Clear(DarkGrey)];
      ok := RenderOverlays(t);
    }

    /** `render_screen` for the image at `index` (path `path`, None when there
      is no current image). */
    method RenderScreen(force: bool, index: nat, path: Option<Path>, img: ImageServices, t: TextServices)
      returns (ok: bool)
      requires renderInfobar ==> BarFits(t.info, t.modeText, viewport)
      modifies this`lastIndex, this`lastTexture, this`dirty, this`scale, this`panX, this`panY,
               this`rot, this`flipH, this`flipV, this`loads, this`frame
      ensures path.None? ==> Cache() == old(Cache()) && loads == old(loads)
      ensures path.Some? ==>
        var step := TextureStep(old(Cache()), index, force, path, img.load, img.fit);
        Cache() == step.state && loads == old(loads) + (if step.loaded then [path.value] else [])
      ensures var d := FrameOps(if path.None? then None else Some(Cache()), img.makeDst, viewport,
                                OverlayOps(Ui(), viewport, t));
        ok == d.ok && frame == old(frame) + d.ops
    {
      if path.None? {
        ok := RenderBlank(t);
        FrameAppend(old(frame), [], Finish(OverlayOps(Ui(), viewport, t)));
        return;
      }
      frame := frame + [Clear(DarkGrey)];
      RenderImage(index, path, img, force);
      ghost var image := ImageOps(Cache(), viewport, img.makeDst);
      ok := RenderOverlays(t);
      FrameAppend(old(frame), image, Finish(OverlayOps(Ui(), viewport, t)));
    }
  }

  /** The calls of a frame appended one layer at a time are the frame. */
  lemma FrameAppend(before: seq<DrawOp>, image: seq<DrawOp>, rest: seq<DrawOp>)
    ensures before + [Clear(DarkGrey)] + image + rest == before + ([Clear(DarkGrey)] + image + rest)
  {
  }

}
