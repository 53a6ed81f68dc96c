# strela-rs frame pipeline, modelled in Dafny

strela-rs runs a render worker on its own thread and shows its output in an
egui window. The worker owns a `PathTracerRenderContext`. Each
`run_iteration` reads the camera slot, clones the context's pixel buffer,
paints a diagonal test pattern into the clone and sends it down a frame
channel. The window's paint callback (`RenderViewCallback::prepare`) polls
that channel once per tick. When a frame arrives, the callback writes it into
a staging buffer and copies it into the result texture. The W key writes a
perspective matrix into the camera slot.

This project models that pipeline as a sequential state machine:

- `Channels` gives the observable contracts of the two foreign channels. The
  crossbeam unbounded channel is a FIFO queue (`Unbounded`). The
  single_value_channel is an always-filled slot where the last write wins
  (`SingleValue`).
- `Render` models `src/render.rs`: `Color`, the render context, and the
  nested-loop fill of a cloned array, proved equal to a reference test
  pattern.
- `App` models `src/main.rs`: the staging-buffer arithmetic, the
  write-buffer and texture-copy steps of `prepare`, `create_tree`, the W-key
  update, and the wiring done in `main`. Class `App` holds the whole
  pipeline. Its steps (producer loop body, consumer tick, editor update) are
  atomic methods. Its invariant says that the frames shown so far, followed by
  the frames still queued, are exactly the frames sent. So nothing is
  dropped or reordered, and the texture always holds the last frame shown.

Colours are `Color(r, g, b, a)` over `real`, since only the constants 0.0 and
1.0 occur. Matrices are opaque values (`Identity`, `Translation`,
`Perspective`) that record only their constructor arguments. Image buffers
are `seq<Color>` with one slot per 16-byte `Vec4`. Widths and heights are a
`u32` newtype, so every `u32` product in the source is checked not to
overflow.

How the pipeline behaves, as the code has it:

- The frame channel is `crossbeam_channel::unbounded()` (src/main.rs:462-463).
  Every send is queued and no send is dropped.
- Each tick takes the oldest queued frame, not the newest. While the producer
  runs faster than the display, the queue keeps growing.
- The producer reads no shared settings. Each frame depends only on the
  context's width and height.
- A failed `write()` on the render-context lock skips that iteration
  (src/main.rs:473), and the loop keeps running. `ProducerLoopBody` models
  this skip.
- The texture copy in `prepare` uses a hard-coded row pitch of 256 texels
  (src/main.rs:50). With the staging buffer sized at exactly width*height
  texels and more than one row, the copy is valid only when the texture is
  256 wide, which is the width `main` passes (`HardCodedPitchFitsOnlyWidth256`).

## Model

| member | source | states |
|---|---|---|
| Channels.Unbounded.constructor | src/main.rs:462-463 | the frame channel starts empty |
| Channels.Unbounded.Send | src/render.rs:65 | a send on the unbounded channel appends the frame at the back; nothing is dropped |
| Channels.Unbounded.TryRecv | src/main.rs:38 | try_recv on an empty channel gives None and leaves it empty; otherwise it gives the oldest frame and removes exactly that frame |
| Channels.SingleValue.StartingWith | src/main.rs:460-461 | the camera slot starts holding the value it was created with |
| Channels.SingleValue.Latest | src/render.rs:52 | latest() returns the slot's current value and changes nothing, so repeated reads agree |
| Channels.SingleValue.Update | src/main.rs:391 | an update overwrites the slot, so the last write wins |
| Render.TestPattern | src/render.rs:56-64 | the reference pattern the loops produce has exactly width*height pixels |
| Render.PixelIndexInBounds | src/render.rs:56-62 | every index i*width+j with i < height and j < width lies below width*height |
| Render.RowInBounds | src/render.rs:56-57 | each row i < height ends by width*height, so the row's slice of the buffer exists |
| Render.PixelIndexInjective | src/render.rs:62 | distinct (i, j) pairs with j < width map to distinct buffer indices |
| Render.TestPatternAt | src/render.rs:58-62 | pixel (i, j) of the pattern is black (0,0,0,1) if i == j and white (1,1,1,1) otherwise |
| Render.RenderFrame | src/render.rs:55-64 | the clone of the stored buffer, painted by the nested loops, equals the reference pattern for the context's dimensions, whatever the stored buffer held |
| Render.Overwrite | src/render.rs:57-63 | overwriting a run of slots starting at `at` keeps the slots before it and the slots after it |
| Render.OverwriteExtend | src/render.rs:62 | writing the slot right after an overwritten run extends that run by one slot |
| Render.PaintRow | src/render.rs:57-63 | the buffer after the inner loop is the buffer before it with exactly row i replaced by the pattern's row i; the rows before and after keep their values |
| Render.RenderContext.constructor | src/render.rs:32-48 | new stores result_width = width and result_height = height, allocates exactly width*height default pixels, and starts the view at the (0,0,-1) translation; width*height must fit in u32 |
| Render.RenderContext.RunIteration | src/render.rs:51-66 | one iteration sends exactly one frame, the pattern for the context's dimensions, and leaves the context (buffer, dimensions, view) and the camera slot unchanged; the camera value affects no pixel |
| App.StagingBufferSize | src/main.rs:115-116 | the staging buffer size (width*height)*16 is exactly the byte length of the frame the producer sends for those dimensions |
| App.RowPitchMatchesContextWidth | src/main.rs:50 | the hard-coded bytes_per_row 256*16 is one row of the 256-wide texture, and the staging buffer holds 256 such rows |
| App.WriteBuffer | src/main.rs:40-44 | writing a frame at offset 0 puts its pixels at the start of the staging buffer and leaves the other slots unchanged |
| App.CopyBufferToTexture | src/main.rs:45-56 | the buffer-to-texture copy with a given row pitch yields width*height texels |
| App.TightCopyIsIdentity | src/main.rs:45-56 | when the row pitch equals the texture width, the copy takes the buffer's first width*height slots unchanged |
| App.TriangleResources.constructor | src/main.rs:115-134 | the staging buffer and the texture are created zero-filled, with the texture's dimensions recorded |
| App.NewRenderView | src/main.rs:102-134 | RenderView::new gives nothing without a wgpu render state; otherwise its staging buffer has StagingBufferSize bytes and its texture has the given width and height |
| App.RenderViewCallback.constructor | src/main.rs:325-330 | the paint callback holds the render pane's receiver |
| App.RenderViewCallback.Prepare | src/main.rs:28-61 | one tick polls once: a dequeued frame is written to the staging buffer at offset 0 and the texture becomes the copy of that buffer; on an empty channel the staging buffer, texture and queue are untouched; either way no command buffer is returned |
| App.Tiles.constructor | src/main.rs:504 | `Tiles::default()` starts with no tiles |
| App.Tiles.Insert | src/main.rs:512-517 | every insertion gets an id not used before, and the map gains exactly that entry |
| App.Tiles.InsertPane | src/main.rs:512-514 | `insert_pane` adds exactly one pane tile under a fresh id |
| App.Tiles.InsertHorizontalTile | src/main.rs:517 | `insert_horizontal_tile` adds exactly one horizontal container of the given children under a fresh id |
| App.HardCodedPitchFitsOnlyWidth256 | src/main.rs:45-56 | with a staging buffer of exactly width*height texels and more than one row, the copy with the hard-coded pitch fits only a 256-wide texture |
| App.NarrowTextureOverrunsStaging | src/main.rs:45-56 | a texture narrower than the 256-texel pitch, with more than one row, needs more staging texels than width*height |
| App.CreateTree | src/main.rs:493-520 | the tree has one horizontal root tile with exactly two distinct children, the render pane (nr 0) then a settings pane (nr 0, from the counter that starts at 0), and no other tile |
| App.Editor.constructor | src/main.rs:355-368 | the editor holds the render view's resources when wgpu is present, the tree from create_tree, no picked path, and the camera updater |
| App.Editor.Update | src/main.rs:388-392 | a W press overwrites the camera slot with the perspective matrix; without one the slot is untouched |
| App.App.Launch | src/main.rs:460-489 | main starts with the camera slot at identity, an empty frame channel, a 256x256 context and a 256x256 editor on that channel, and establishes the pipeline invariant |
| App.App.ProducerLoopBody | src/main.rs:472-476 | a successful write-lock acquisition runs exactly one iteration (one pattern frame appended); a failed one changes nothing |
| App.App.RunProducer | src/main.rs:472-476 | over a finite run of lock attempts, exactly one pattern frame is sent per successful acquisition, in order |
| App.App.ConsumerTick | src/main.rs:38-60 | a tick on an empty channel leaves the texture and what was shown unchanged; otherwise the oldest queued frame is dequeued, recorded as shown and becomes the texture's contents; the FIFO invariant is kept |
| App.App.EditorUpdate | src/main.rs:388-392 | a W press makes the camera slot hold the perspective matrix from then on, until the next press; the frame pipeline is untouched |

## Left out

- Threads, `RwLock`, `Mutex`, lock poisoning and the `unwrap` panics are not modelled. Each step is one atomic method. Whether the producer's write lock was acquired is an input to `ProducerLoopBody`.
- The producer loop never ends. `RunProducer` runs it over a finite list of lock attempts.
- The internals of crossbeam_channel and single_value_channel are left out. Only their observable contracts are modelled. A send to a channel whose receiver was dropped, and an update to a slot whose receiver was dropped, return errors the source ignores. No receiver is dropped while the program runs, so these cases are not modelled.
- Render.RenderContext.constructor, Render.RenderFrame, Render.PaintRow, App.StagingBufferSize, App.NewRenderView, App.Editor.constructor: each requires that the u32 product `width * height` does not overflow. This is the debug-build behaviour, where the product panics on overflow. Release-mode wrap-around is not modelled.
- App.App.Launch: `main` selects `eframe::Renderer::Wgpu` (src/main.rs:455), so the wgpu render state is taken as present and the editor always has its resources. Without it, `prepare`'s `resources.get().unwrap()` would panic; that panic is not modelled.
- The `info!`/`debug!` logging of the camera matrix and of received frames is not modelled. The camera value is read and then discarded.
- All wgpu setup in `RenderView::new` past the buffer and texture sizes is not modelled: shaders, bind groups, sampler, pipeline layout, render pipeline, and the registration in `callback_resources`. `paint` and `FullScreenTriangleRenderResources::paint` draw with that pipeline and are not modelled. The empty-bodied `resources.prepare` is a comment in `Prepare`.
- The type-map lookup `resources.get().unwrap()` is not modelled. `Prepare` receives the resources object directly.
- wgpu's zero-initialisation of new buffers and textures is assumed. It sets the blank texture shown before any frame arrives.
- egui, egui_tiles and the UI are not modelled: `pane_ui`, `tab_title_for_pane`, `top_bar_right_ui`, panels, the menu, the `rfd` file dialog, `process::exit`, the F11 fullscreen toggle, `clear_color` and `request_repaint`. egui_tiles' tile identifiers are modelled only as fresh, distinct numbers.
- Floating-point matrix math (`glm::perspective`, `Mat4::new_translation`) is not modelled. Matrices are opaque values.
- The bytemuck cast of colours to bytes is modelled only by its length: 16 bytes per `Color`.
