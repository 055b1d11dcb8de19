# riv: render cache and frame compositor, in Dafny

This project models the render path of `riv`, an SDL image viewer
(`src/program/render.rs`). One call of `render_screen` does three things:

* It decides whether the texture of the current image can be reused or must be
  loaded again. On a new load it resets the view (scale, pan, rotation,
  mirroring).
* It draws the image layer: the cached texture, rotated by the view's angle and
  mirrored by its flip flags.
* It draws the overlays on top: a three-segment status bar with two texts, then
  the centred help box with its stacked lines. Finally it presents the frame.

SDL is modelled as a log. `Program.frame` is the sequence of canvas calls
issued: `Clear`, `FillRect`, `Text` (copy of a rendered text texture), `Image`
(the `copy_ex` of the image) and `Present`. Collaborators the render code only
calls are inputs:

* the image service's result for the current path (`LoadResult`);
* the fit scale;
* `make_dst` (a function argument);
* the text service's result for each string (`TextResult`, `LineResult`).

Modules:

* `Geometry`: rectangles, rotation angle, centring, `default_actual_size`.
* `Style`: colours, modes, `mode_colors`, `mode_text_color`.
* `Frame`: canvas calls.
* `Layers`: status bar, infobar, help box and help loop, as pure functions.
* `ImageCache`: the `set_image_texture` step, and runs of it over many frames.
* `Render`: the class `Program`. Its methods update the cache fields, the view
  and the frame log step by step, as the source does. Each method is specified
  by the functions above.

## Model

| member | source | states |
|---|---|---|
| `Geometry.RotationDegrees` | src/program/render.rs:58-63 | the angle is a quarter turn in [0, 360), and it is 0 exactly for Up |
| `Geometry.RotationFollowsQuarterTurns` | src/program/render.rs:58-63 | one clockwise turn adds 90 degrees modulo 360; the four orientations get four distinct angles |
| `Geometry.DefaultActualSize` | src/program/render.rs:123-127 | scaled size is chosen exactly when the source does not fit in the destination, and stays chosen for any larger source |
| `Geometry.Center` | src/program/render.rs:279-280 | the centring offset (f32 halving, then a cast that truncates toward zero) leaves margins that differ by at most one pixel; it is non-positive when the inner span is larger |
| `Style.ModeColors` | src/program/render.rs:301-329 | every mode gets one of four palettes with a grey filler; the secondary colour is blue iff Normal/MultiNormal/Exit, red iff Error, green iff Success, yellow iff Command |
| `Style.ModeTextColor` | src/program/render.rs:331-338 | the text is light iff the mode is Error, and dark otherwise |
| `Style.StyleIgnoresPayload` | src/program/render.rs:301-338 | two modes of the same variant get the same palette and text colour, whatever text they carry |
| `Style.TextContrast` | src/program/render.rs:344-390 | the text colour differs from both coloured segments in every mode, and equals the grey filler exactly outside Error mode |
| `Layers.BarOps` | src/program/render.rs:251-275 | three bottom-anchored fills of the bar height, contiguous from x = 0: widths label+45, info+60, then the full viewport width; primary, secondary, tertiary colours |
| `Layers.InfobarOps` | src/program/render.rs:129-193 | fails with nothing drawn iff a text fails to render; otherwise bar, then the label at x = 30 and the information at label+60, on the bar's top edge, each with its rendered width and height, in the mode's text colour, each inside its coloured segment |
| `Layers.HelpHeight` | src/program/render.rs:201-201 | n lines plus the padding between them: height + 5 = 27 n |
| `Layers.HelpBox` | src/program/render.rs:277-288 | a fill of the help colour with the given size, centred on both axes: the two margins differ by at most one pixel and are non-negative when the box fits, and a larger box overhangs both sides equally to a pixel |
| `Layers.HelpLineCount` | src/program/render.rs:392-442 | the lengths of the two help tables (24 and 18 lines), none for no help. It has no contract of its own; `HelpOps` and `HelpLinesFillBox` use it as the loop bound and box height |
| `Layers.HelpLines` | src/program/render.rs:222-246 | the line loop as a value: per line, render (an error ends the loop), copy centred at y, step y only when the copy succeeded. It has no contract of its own; `HelpLinesStack`, `HelpLineAt`, `HelpLinesOk`, `HelpLinesFailure` and `HelpLinesStopAtFailure` specify it, and `RenderHelpLines` is proved equal to it |
| `Layers.HelpLinesAreText` | src/program/render.rs:222-246 | the help loop issues only dark text copies, at most one per line |
| `Layers.HelpLinesCount` | src/program/render.rs:222-246 | a finished help loop issued exactly one copy per line |
| `Layers.HelpLinesNextY` | src/program/render.rs:238-246 | after the loop, y has advanced 27 per successful copy |
| `Layers.HelpLineAt` | src/program/render.rs:222-246 | line k is rendered and copied, centred, at y0 + 27 * (successful copies before it) |
| `Layers.HelpLinesStack` | src/program/render.rs:222-247 | a finished loop copies every line once, in order, each 27 below the previous successful copy |
| `Layers.HelpLinesOk` | src/program/render.rs:222-234 | the loop finishes iff every line renders |
| `Layers.HelpLinesFailure` | src/program/render.rs:222-234 | when line f is the first that fails, the loop errs after exactly f copies |
| `Layers.HelpLinesStopAtFailure` | src/program/render.rs:224-234 | after a failed line the loop has returned: later lines add nothing |
| `Layers.HelpOps` | src/program/render.rs:195-249 | no table: no calls; probe failure: error with no calls; otherwise a box first (first line's width, HelpHeight tall), at most one copy per line, only fills and text |
| `Layers.HelpLinesAllCopied` | src/program/render.rs:222-246 | when every line renders and copies, the loop finishes with one copy per line, line k at y0 + 27 k |
| `Layers.HelpLinesFillBox` | src/program/render.rs:201-246 | when every line renders and copies, the lines start 27 apart from the box's top, and the 22-pixel `LineHeight` slot of the last ends on its bottom edge; the box width is the first line's |
| `Layers.OverlayOps` | src/program/render.rs:30-33 | the overlay tail: the status bar when shown, whose error ends the frame, then the help layer. It has no contract of its own; `OverlayOrder` and `OverlayShape` specify it and `RenderOverlays` is proved equal to it |
| `Layers.OverlayOrder` | src/program/render.rs:30-33 | without the status bar the overlays are the help layer alone; a status-bar text failure is an error with nothing drawn and no help layer; otherwise the five status-bar calls come first, the help layer's calls follow, and the overlays succeed exactly when the help layer does |
| `Layers.OverlayShape` | src/program/render.rs:30-33 | the overlays only fill and copy text; with neither shown they draw nothing; they succeed iff the shown bar's texts render and the help layer succeeds |
| `ImageCache.CacheHit` | src/program/render.rs:80-84 | the hit test: same index, a texture cached, not dirty, not forced. It has no contract of its own; `TextureStep`, `LoadedImageIsCached`, `FailedForcedReloadKeepsHit` and `HitIsStable` state what a hit means |
| `ImageCache.TextureStep` | src/program/render.rs:79-120 | a hit changes nothing and loads nothing; a miss clears the flips and loads iff there is a path; a successful load sets index, texture, clean flag and the fitted view; otherwise texture, index, dirty, scale, pan and rotation are kept |
| `ImageCache.LoadedImageIsCached` | src/program/render.rs:80-118 | right after a successful load, the same index without force is a hit and a no-op |
| `ImageCache.ForceAlwaysLoads` | src/program/render.rs:80-98 | a forced render with a path always calls the image service |
| `ImageCache.FailedForcedReloadKeepsHit` | src/program/render.rs:80-106 | a failed forced reload of the cached image still loads once, leaves a hit behind, and the next unforced frame loads nothing |
| `ImageCache.Replay` | src/program/render.rs:79-120 | frames of `set_image_texture` for one image without force, one load result per frame: at most one load per frame; `HitIsStable`, `LoadsAtMostOnce` and `FailedLoadsRetry` state what a run does |
| `ImageCache.HitIsStable` | src/program/render.rs:80-86 | any number of frames of a cached image load nothing and change nothing |
| `ImageCache.LoadsAtMostOnce` | src/program/render.rs:80-118 | while the image service succeeds, frames of the same image load it at most once |
| `ImageCache.FailedLoadsRetry` | src/program/render.rs:88-106 | after a miss, every frame whose load fails calls the image service again, and texture, index and dirty flag keep their old values |
| `Render.ImageOps` | src/program/render.rs:40-76 | one copy of the cached texture, at `make_dst` of the texture, the viewport and the view's scale and pan, with the view's angle and flips; nothing when no texture is cached |
| `Render.FrameOps` | src/program/render.rs:23-38 | a frame as a value: clear, the image layer when there is a current image, the overlays, and a present iff they succeeded. It has no contract of its own; `LayerPositions`, `FrameIsBracketed`, `ImageBelowOverlays` and `DegradedFrameKeepsLastImage` specify it, and `RenderScreen` is proved equal to it |
| `Render.LayerPositions` | src/program/render.rs:23-38 | in a frame the clear comes first, then the image copies, then the overlay calls, then the present when the overlays succeeded |
| `Render.FrameIsBracketed` | src/program/render.rs:23-38 | for any overlay that only fills and copies text (as `OverlayShape` shows every overlay does), a frame starts with one dark-grey clear, ends with a present iff it succeeded, and holds only image copies, fills and text between them |
| `Render.ImageBelowOverlays` | src/program/render.rs:23-38 | for any such overlay, every image copy precedes every overlay call; a frame without a current image copies no image |
| `Render.DegradedFrameKeepsLastImage` | src/program/render.rs:40-120 | when the load fails, the frame still draws the previous texture with its scale, pan and rotation, unmirrored |
| `Render.Program.SetImageTexture` | src/program/render.rs:79-120 | the new cache and view are `TextureStep` of the old, and the path is logged as loaded exactly when the image service was called |
| `Render.Program.RenderImage` | src/program/render.rs:40-76 | the cache step, then `ImageOps` of the new state appended to the frame |
| `Render.Program.RenderBar` | src/program/render.rs:251-275 | appends `BarOps` for the mode's palette |
| `Render.Program.RenderInfobar` | src/program/render.rs:129-193 | appends `InfobarOps` and returns whether it succeeded |
| `Render.Program.RenderHelpBox` | src/program/render.rs:277-288 | appends the centred help box |
| `Render.Program.RenderHelp` | src/program/render.rs:195-249 | appends `HelpOps` and returns whether the help layer succeeded |
| `Render.Program.RenderHelpLines` | src/program/render.rs:222-247 | the loop appends `HelpLines`; its invariant keeps the frame and y equal to the help loop's state after the lines so far, and a failing line returns at once |
| `Render.Program.RenderOverlays` | src/program/render.rs:30-37 | appends the overlays, then a present iff they succeeded |
| `Render.Program.RenderBlank` | src/program/render.rs:290-298 | appends a dark-grey clear, then the overlays, then a present iff they succeeded; the cache is not touched |
| `Render.Program.RenderScreen` | src/program/render.rs:23-38 | no current image: the cache and the loader log are unchanged, and the frame is the blank frame; otherwise the cache takes the `TextureStep`, and the frame is `FrameOps` of the new state; mode, toggles and viewport are unchanged |

## Where the code departs from the expected behaviour

Each point names what a reader of the viewer would expect and what the code
does instead. The model follows the code in each case:

* One would expect the status bar's filler segment to fill the width left
  after the first two segments. It is as wide as the whole viewport
  (render.rs:269), so it runs past the right edge.
* One would expect the help box to be as wide as the widest line. It is as wide
  as the first line of the table (render.rs:204-217). Every line of each table has the same number of
  characters and the font is monospaced, so the two agree for the shipped
  tables.
* One would expect the mirroring to be reset together with the rest of the view
  when a new image loads. The flip flags are cleared on every cache miss
  (render.rs:89-90), even a miss with no path or one whose load fails, which
  leave the rest of the view as it was.
* One might expect a failed image to be remembered as tried. `last_index`
  changes only on a successful load (render.rs:100), and a failed load keeps
  the texture and the dirty flag (render.rs:103-106). So a failed load of a
  new or dirty image is retried on every following frame. A failed forced
  reload of the image already cached is not retried: the next frame is a hit.
* One would expect every frame to be presented and the two overlays to be
  independent. A text that fails to render in an overlay returns the error
  from `render_screen` before `present` (render.rs:31, 33). Such a frame is
  never presented, and a status-bar failure also skips the help layer.
* One would expect a forced render always to reload. It does so only when
  there is a path (render.rs:92-96).
* One would expect `default_actual_size` to compare widths and heights. It
  compares the `x` and `y` fields of the two rectangles (render.rs:126), so
  the caller must put the dimensions there.

## Left out

- The SDL canvas, the texture creator and the fonts. A canvas call is
  recorded in the frame log, whether or not SDL then fails it. Copy failures
  only change what happens next in the help loop, so only there is the result
  an input (`LineResult.copied`).
- `set_draw_color` and `set_blend_mode`. A fill records the colour set just
  before it; the blend mode is not modelled.
- Error strings. `Err(String)` becomes `ok == false`.
- `eprintln!` logging.
- Image decoding. The image service's answer is an input.
- `make_dst` and `calculate_scale_for_fit`. They are not part of this model:
  `make_dst` is a function argument, and the fit scale is an input value.
- `f32` arithmetic. Scale and pan are reals. `Center` is exact for dimensions
  below 2^24; f32 rounding above that is not modelled.
- `i32`/`u32` overflow. Widths and coordinates are unbounded integers; the
  wrap-around of `as i32` casts and additions on widths of 2^31 or more is not
  modelled.
- `Rect::new` clamping of sizes.
- `infobar::Text::update`, the text formatter. It is not part of this model;
  only the sizes of the rendered texts matter here.
- The literal contents of the two help tables. Only their line counts (24 and
  18) are modelled.
- The first help line is rendered twice, once to measure the box and once in
  the loop. The two results are independent inputs (`helpProbe`,
  `helpLines(0)`).
- The navigation list. `current_image()` and `current_image_path()` are one
  `Option<Path>` argument, and the index is a separate argument.
- What sets `dirty`. Nothing in the render path sets it; it is a field the
  model keeps.
- The initial state of the screen. It is set up outside render.rs; the
  constructor of `Program` is a convenience for clients.
- `Render.Program.RenderOverlays` models the tail that `render_screen`
  (render.rs:30-36) and `render_blank` (render.rs:292-296) both spell out.
- `ImageCache.Replay` uses one path and one fit scale for every frame.
- The texture's pixel format from `query()`. Only its size is modelled.
