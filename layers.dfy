/** The overlay layers: the three-segment status bar with its two texts, and
    the help box with its stacked lines. Each layer is a function from the
    viewport, the mode and what the text service returned to the canvas calls
    it issues. */
module Layers {
  import opened Geometry
  import opened Style
  import opened Frame

  const Padding := 30
  const HalfPad := 15
  const LineHeight := 22
  const LinePadding := 5

  /** The drawable area of the canvas, in device pixels. */
  datatype Viewport = Viewport(width: nat, height: nat)

  /** What the text service gave back for one string: the size of the rendered
      texture, or a failure to render the text or to turn it into a texture. */
  datatype TextResult = Rastered(width: nat, height: nat) | RasterFailed

  /** One line of the help table: rendered (with the outcome of copying it to
      the canvas, which only gets logged when it fails) or failed to render. */
  datatype LineResult = LineDrawn(width: nat, height: nat, copied: bool) | LineFailed

  /** Which help table, if any, is shown. */
  datatype HelpRender = NoHelp | NormalHelp | CommandHelp

  /** The text service's answers for one frame: the information text and the
      mode label of the status bar, the first help line rendered to measure the
      box, and each help line as the loop renders it. */
  datatype TextServices = TextServices(
    info: TextResult,
    modeText: TextResult,
    helpProbe: TextResult,
    helpLines: nat -> LineResult)

  /** The overlay toggles and the mode, read but never changed while rendering. */
  datatype Overlay = Overlay(mode: Mode, showBar: bool, help: HelpRender)

  /** `viewport.height - height` is an unsigned subtraction: the bar is only
      drawn when both texts rendered, and then the mode label must fit the viewport. */
  predicate BarFits(info: TextResult, modeText: TextResult, vp: Viewport)
  {
    info.Rastered? && modeText.Rastered? ==> modeText.height <= vp.height
  }

  /** `x` lies in the horizontal span `[sx, sx + sw)` together with its width. */
  predicate SpanWithin(x: int, w: int, sx: int, sw: int)
  {
    sx <= x && x + w <= sx + sw
  }

  // ---------------------------------------------------------------- status bar

  /** `render_bar`: three fills of the bar's height, bottom-anchored, laid side
      by side with no gap: the label segment (label width plus three half
      paddings), the information segment (information width plus two
      paddings), and a filler whose width is the whole viewport width. */
  function BarOps(pal: Colors, vp: Viewport, height: nat, modeWidth: nat, infoWidth: nat): (ops: seq<DrawOp>)
    requires height <= vp.height
    ensures |ops| == 3
    ensures forall k | 0 <= k < 3 :: ops[k].FillRect? && ops[k].h == height && ops[k].y + ops[k].h == vp.height
    ensures ops[0].x == 0
    ensures ops[1].x == ops[0].x + ops[0].w && ops[2].x == ops[1].x + ops[1].w
    ensures ops[0].w == modeWidth + 3 * HalfPad
    ensures ops[1].w == infoWidth + 2 * Padding
    ensures ops[2].w == vp.width
    ensures ops[0].color == pal.primary && ops[1].color == pal.secondary && ops[2].color == pal.tertiary
  {
    var y := vp.height - height;
    var w0 := modeWidth + HalfPad * 3;
    var w1 := infoWidth + Padding * 2;
    [FillRect(0, y, w0, height, pal.primary),
     FillRect(w0, y, w1, height, pal.secondary),
     FillRect(w0 + w1, y, vp.width, height, pal.tertiary)]
  }

  /** `render_infobar`: both texts are rendered first; if either fails the
      error is returned before anything is drawn. Otherwise the bar is drawn,
      then the label at `Padding` and the information text `2 * Padding` right
      of the modeText, both on the bar's top edge and in the mode's text colour,
      each inside its own coloured segment. */
  function InfobarOps(mode: Mode, vp: Viewport, info: TextResult, modeText: TextResult): (d: Drawn)
    requires BarFits(info, modeText, vp)
    ensures d.ok <==> info.Rastered? && modeText.Rastered?
    ensures !d.ok ==> d.ops == []
    ensures AllOverlay(d.ops)
    ensures d.ok ==> (|d.ops| == 5
      && d.ops[..3] == BarOps(ModeColors(mode), vp, modeText.height, modeText.width, info.width)
      && d.ops[3].Text? && d.ops[4].Text?
      && d.ops[3].x == Padding && d.ops[4].x == modeText.width + 2 * Padding
      && d.ops[3].y == d.ops[4].y == d.ops[0].y
      && d.ops[3].h == d.ops[0].h && d.ops[4].h == info.height
      && d.ops[3].w == modeText.width && d.ops[4].w == info.width
      && d.ops[3].color == d.ops[4].color == ModeTextColor(mode)
      && SpanWithin(d.ops[3].x, d.ops[3].w, d.ops[0].x, d.ops[0].w)
      && SpanWithin(d.ops[4].x, d.ops[4].w, d.ops[1].x, d.ops[1].w))
  {
    var textColor := ModeTextColor(mode);
    match (info, modeText)
    case (Rastered(iw, ih), Rastered(lw, lh)) =>
      var y := vp.height - lh;
      Drawn(true, BarOps(ModeColors(mode), vp, lh, lw, iw)
                  + [Text(Padding, y, lw, lh, textColor),
                     Text(lw + Padding * 2, y, iw, ih, textColor)])
    case _ => Drawn(false, [])
  }

  // ---------------------------------------------------------------- help box

  /** The number of lines of each help table (the text of the lines is not
      part of this model). */
  function HelpLineCount(help: HelpRender): nat
  {
    match help
    case NoHelp => 0
    case NormalHelp => 24
    case CommandHelp => 18
  }

  /** `total_height`: `n` lines of `LineHeight` with `LinePadding` between
      consecutive lines, but none after the last. */
  function HelpHeight(n: nat): (t: int)
    ensures n >= 1 ==> t + LinePadding == n * (LineHeight + LinePadding)
  {
    LineHeight * n + LinePadding * (n - 1)
  }

  /** `render_help_box`: a fill of the help colour, centred in the viewport:
      on each axis the two margins differ by at most one pixel (a box larger
      than the viewport overhangs both sides by the same amount, to a pixel). */
  function HelpBox(vp: Viewport, height: nat, width: nat): (op: DrawOp)
    ensures op.FillRect? && op.w == width && op.h == height && op.color == HelpBackground
    ensures SpanWithin(op.x, op.w, 0, vp.width) <== width <= vp.width
    ensures width <= vp.width ==> 0 <= op.x && op.x + op.x <= vp.width - width <= op.x + op.x + 1
    ensures height <= vp.height ==> 0 <= op.y && op.y + op.y <= vp.height - height <= op.y + op.y + 1
    ensures width > vp.width ==> op.x <= 0 && op.x + op.x - 1 <= vp.width - width <= op.x + op.x
    ensures height > vp.height ==> op.y <= 0 && op.y + op.y - 1 <= vp.height - height <= op.y + op.y
  {
    FillRect(Center(vp.width, width), Center(vp.height, height), width, height, HelpBackground)
  }

  /** The state of the help loop after some lines: whether every line so far
      rendered, the copies issued, and the `y` of the next line. */
  datatype LinesDrawn = LinesDrawn(ok: bool, ops: seq<DrawOp>, y: int)

  /** The loop of `render_help` over its first `n` lines, starting at `y0`.
      A line that fails to render ends the loop with an error. Each rendered
      line is copied, centred horizontally, at the current `y`; `y` moves
      down by `LineHeight + LinePadding` only when the copy succeeded. */
  function HelpLines(lines: nat -> LineResult, n: nat, vw: nat, y0: int): LinesDrawn
  {
    if n == 0 then LinesDrawn(true, [], y0)
    else
      var prev := HelpLines(lines, n - 1, vw, y0);
      if !prev.ok then prev
      else
        match lines(n - 1)
        case LineFailed => prev.(ok := false)
        case LineDrawn(w, h, copied) =>
          LinesDrawn(true, prev.ops + [Text(Center(vw, w), prev.y, w, h, DarkText)],
                     if copied then prev.y + LineHeight + LinePadding else prev.y)
  }

  /** How many of the first `k` help lines rendered and were copied. */
  function CopiedBefore(lines: nat -> LineResult, k: nat): (c: nat)
    ensures c <= k
  {
    if k == 0 then 0
    else CopiedBefore(lines, k - 1) + (if lines(k - 1).LineDrawn? && lines(k - 1).copied then 1 else 0)
  }

  /** The loop only copies text, in the dark text colour, at most once per line. */
  lemma {:induction false} HelpLinesAreText(lines: nat -> LineResult, n: nat, vw: nat, y0: int)
    ensures var d := HelpLines(lines, n, vw, y0);
      |d.ops| <= n && forall i | 0 <= i < |d.ops| :: d.ops[i].Text? && d.ops[i].color == DarkText
  {
    if n > 0 {
      HelpLinesAreText(lines, n - 1, vw, y0);
    }
  }

  /** After a loop that finishes, the next `y` has moved down once for every
      successful copy. */
  lemma {:induction false} HelpLinesNextY(lines: nat -> LineResult, n: nat, vw: nat, y0: int)
    requires HelpLines(lines, n, vw, y0).ok
    ensures HelpLines(lines, n, vw, y0).y == y0 + (LineHeight + LinePadding) * CopiedBefore(lines, n)
  {
    if n > 0 {
      HelpLinesNextY(lines, n - 1, vw, y0);
    }
  }

  /** Line `k` of a loop that finishes rendered, and its copy sits, centred,
      `LineHeight + LinePadding` below `y0` for each earlier successful copy. */
  lemma {:induction false} HelpLineAt(lines: nat -> LineResult, n: nat, vw: nat, y0: int, k: nat)
    requires HelpLines(lines, n, vw, y0).ok && k < n
    ensures lines(k).LineDrawn?
    ensures var d := HelpLines(lines, n, vw, y0);
      k < |d.ops|
      && d.ops[k] == Text(Center(vw, lines(k).width), y0 + (LineHeight + LinePadding) * CopiedBefore(lines, k),
                          lines(k).width, lines(k).height, DarkText)
  {
    var prev := HelpLines(lines, n - 1, vw, y0);
    assert prev.ok;
    HelpLinesCount(lines, n - 1, vw, y0);
    if k < n - 1 {
      HelpLineAt(lines, n - 1, vw, y0, k);
    } else {
      HelpLinesNextY(lines, n - 1, vw, y0);
    }
  }

  /** When the loop finishes, every line rendered and was copied once, in order;
      line `k` sits `LineHeight + LinePadding` below `y0` for each earlier line
      whose copy succeeded, and the next `y` counts all of them. */
  lemma HelpLinesStack(lines: nat -> LineResult, n: nat, vw: nat, y0: int)
    requires HelpLines(lines, n, vw, y0).ok
    ensures var d := HelpLines(lines, n, vw, y0);
      |d.ops| == n
      && d.y == y0 + (LineHeight + LinePadding) * CopiedBefore(lines, n)
      && forall k | 0 <= k < n ::
           lines(k).LineDrawn?
           && d.ops[k] == Text(Center(vw, lines(k).width), y0 + (LineHeight + LinePadding) * CopiedBefore(lines, k),
                               lines(k).width, lines(k).height, DarkText)
  {
    HelpLinesCount(lines, n, vw, y0);
    HelpLinesNextY(lines, n, vw, y0);
    forall k | 0 <= k < n
      ensures lines(k).LineDrawn?
      ensures HelpLines(lines, n, vw, y0).ops[k]
        == Text(Center(vw, lines(k).width), y0 + (LineHeight + LinePadding) * CopiedBefore(lines, k),
                lines(k).width, lines(k).height, DarkText)
    {
      HelpLineAt(lines, n, vw, y0, k);
    }
  }

  /** The loop finishes exactly when every one of its lines renders. */
  lemma {:induction false} HelpLinesOk(lines: nat -> LineResult, n: nat, vw: nat, y0: int)
    ensures HelpLines(lines, n, vw, y0).ok <==> forall k :: 0 <= k < n ==> lines(k).LineDrawn?
  {
    if n > 0 {
      HelpLinesOk(lines, n - 1, vw, y0);
    }
  }

  /** When line `f` is the first that fails to render, the loop returns an
      error after issuing one copy for each line before it. */
  lemma HelpLinesFailure(lines: nat -> LineResult, n: nat, vw: nat, y0: int, f: nat)
    requires f < n && lines(f).LineFailed?
    requires forall k :: 0 <= k < f ==> lines(k).LineDrawn?
    ensures !HelpLines(lines, n, vw, y0).ok
    ensures |HelpLines(lines, n, vw, y0).ops| == f
  {
    var before := HelpLines(lines, f, vw, y0);
    HelpLinesOk(lines, f, vw, y0);
    HelpLinesCount(lines, f, vw, y0);
    assert HelpLines(lines, f + 1, vw, y0) == before.(ok := false);
    HelpLinesStopAtFailure(lines, f + 1, n, vw, y0);
  }

  /** A loop that finishes has issued one copy per line. */
  lemma {:induction false} HelpLinesCount(lines: nat -> LineResult, n: nat, vw: nat, y0: int)
    requires HelpLines(lines, n, vw, y0).ok
    ensures |HelpLines(lines, n, vw, y0).ops| == n
  {
    if n > 0 {
      HelpLinesCount(lines, n - 1, vw, y0);
    }
  }

  /** Once a line has failed, the loop has returned: later lines add nothing. */
  lemma {:induction false} HelpLinesStopAtFailure(lines: nat -> LineResult, i: nat, n: nat, vw: nat, y0: int)
    requires i <= n
    requires !HelpLines(lines, i, vw, y0).ok
    ensures HelpLines(lines, n, vw, y0) == HelpLines(lines, i, vw, y0)
  {
    if i < n {
      HelpLinesStopAtFailure(lines, i, n - 1, vw, y0);
    }
  }

  /** `render_help`: no table draws nothing. Otherwise the first line is
      rendered to measure the box (a failure returns before anything is drawn);
      the box, as wide as that first line and `HelpHeight` tall, is drawn
      centred, then the lines follow from the box's top edge. */
  function HelpOps(help: HelpRender, vp: Viewport, probe: TextResult, lines: nat -> LineResult): (d: Drawn)
    ensures help.NoHelp? ==> d == Drawn(true, [])
    ensures !help.NoHelp? && probe.RasterFailed? ==> d == Drawn(false, [])
    ensures AllOverlay(d.ops)
    ensures !help.NoHelp? && probe.Rastered? ==>
      1 <= |d.ops| <= HelpLineCount(help) + 1
      && d.ops[0] == HelpBox(vp, HelpHeight(HelpLineCount(help)), probe.width)
  {
    match help
    case NoHelp => Drawn(true, [])
    case _ =>
      var n := HelpLineCount(help);
      var total := HelpHeight(n);
      var y := Center(vp.height, total);
      match probe
      case RasterFailed => Drawn(false, [])
      case Rastered(w, _) =>
        var body := HelpLines(lines, n, vp.width, y);
        HelpLinesAreText(lines, n, vp.width, y);
        Drawn(body.ok, [HelpBox(vp, total, w)] + body.ops)
  }

  /** Past the probe, `render_help` is the box followed by the loop's copies,
      the loop starting at the box's top edge. */
  lemma HelpOpsBody(help: HelpRender, vp: Viewport, probe: TextResult, lines: nat -> LineResult)
    requires !help.NoHelp? && probe.Rastered?
    ensures var n := HelpLineCount(help);
      var body := HelpLines(lines, n, vp.width, Center(vp.height, HelpHeight(n)));
      HelpOps(help, vp, probe, lines) == Drawn(body.ok, [HelpBox(vp, HelpHeight(n), probe.width)] + body.ops)
  {
  }

  /** When every line renders and copies, line `k` sits `k` line steps below
      `y0`. */
  lemma {:induction false} HelpLinesAllCopied(lines: nat -> LineResult, n: nat, vw: nat, y0: int)
    requires forall k :: 0 <= k < n ==> lines(k).LineDrawn? && lines(k).copied
    ensures var b := HelpLines(lines, n, vw, y0);
      b.ok && |b.ops| == n && b.y == y0 + n * (LineHeight + LinePadding)
      && forall k | 0 <= k < n :: b.ops[k].Text? && b.ops[k].y == y0 + k * (LineHeight + LinePadding)
  {
    if n > 0 {
      HelpLinesAllCopied(lines, n - 1, vw, y0);
    }
  }

  /** When every line renders and its copy succeeds, the lines fill the box:
      the first starts on the box's top edge, each next one a line step lower,
      and the `LineHeight` slot of the last ends on the box's bottom edge (the
      rendered texture's own height is whatever the text service measured). */
  lemma HelpLinesFillBox(help: HelpRender, vp: Viewport, probe: TextResult, lines: nat -> LineResult)
    requires !help.NoHelp? && probe.Rastered?
    requires forall k :: 0 <= k < HelpLineCount(help) ==> lines(k).LineDrawn? && lines(k).copied
    ensures var d := HelpOps(help, vp, probe, lines);
      var n := HelpLineCount(help);
      d.ok && |d.ops| == n + 1
      && d.ops[0].w == probe.width
      && (forall k | 1 <= k <= n :: d.ops[k].y == d.ops[0].y + (k - 1) * (LineHeight + LinePadding))
      && d.ops[n].y + LineHeight == d.ops[0].y + d.ops[0].h
  {
    var n := HelpLineCount(help);
    var y0 := Center(vp.height, HelpHeight(n));
    var body := HelpLines(lines, n, vp.width, y0);
    HelpOpsBody(help, vp, probe, lines);
    HelpLinesAllCopied(lines, n, vp.width, y0);
    var d := HelpOps(help, vp, probe, lines);
    forall k | 1 <= k <= n
      ensures d.ops[k].y == y0 + (k - 1) * (LineHeight + LinePadding)
    {
      assert d.ops[k] == body.ops[k - 1];
    }
  }

  // ---------------------------------------------------------------- overlays

  /** The overlays of one frame: the status bar when it is shown, then the help
      layer. An error in the status bar returns before the help is attempted. */
  function OverlayOps(o: Overlay, vp: Viewport, t: TextServices): (d: Drawn)
    requires o.showBar ==> BarFits(t.info, t.modeText, vp)
  {
    if o.showBar then
      var bar := InfobarOps(o.mode, vp, t.info, t.modeText);
      if !bar.ok then bar
      else
        var help := HelpOps(o.help, vp, t.helpProbe, t.helpLines);
        Drawn(help.ok, bar.ops + help.ops)
    else HelpOps(o.help, vp, t.helpProbe, t.helpLines)
  }

  /** The overlays only fill rectangles and copy text; with neither shown
      they draw nothing; they succeed exactly when the shown status bar's two
      texts render and the help layer succeeds. */
  lemma OverlayShape(o: Overlay, vp: Viewport, t: TextServices)
    requires o.showBar ==> BarFits(t.info, t.modeText, vp)
    ensures var d := OverlayOps(o, vp, t);
      AllOverlay(d.ops)
      && (!o.showBar && o.help.NoHelp? ==> d == Drawn(true, []))
      && (d.ok <==> (o.showBar ==> t.info.Rastered? && t.modeText.Rastered?)
                    && HelpOps(o.help, vp, t.helpProbe, t.helpLines).ok)
  {
  }

  /** The order of the overlay tail: without the status bar the overlays are
      the help layer alone; a status-bar text that fails to render ends the
      overlays with an error before anything is drawn and before the help
      layer is tried; otherwise the five status-bar calls come first and the
      help layer's calls follow, and the overlays succeed as the help layer
      does. */
  lemma OverlayOrder(o: Overlay, vp: Viewport, t: TextServices)
    requires o.showBar ==> BarFits(t.info, t.modeText, vp)
    ensures var d := OverlayOps(o, vp, t);
      var help := HelpOps(o.help, vp, t.helpProbe, t.helpLines);
      (!o.showBar ==> d == help)
      && (o.showBar && !(t.info.Rastered? && t.modeText.Rastered?) ==> d == Drawn(false, []))
      && (o.showBar && t.info.Rastered? && t.modeText.Rastered? ==>
            d.ok == help.ok && |d.ops| == 5 + |help.ops|
            && d.ops[..5] == InfobarOps(o.mode, vp, t.info, t.modeText).ops
            && d.ops[5..] == help.ops)
  {
  }
}
