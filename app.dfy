/**
  The application side of src/main.rs: the presentation callback that polls
  the frame channel once per tick and uploads what it gets, the staging
  buffer and texture it uploads into, the editor (W key, pane tree), and the
  wiring in `main` that connects the camera slot, the frame channel, the
  render context and the editor. The whole pipeline is a sequential state
  machine, class App, whose steps are a producer iteration, a consumer tick
  and an editor update, each one atomic.
*/
module App {
  import opened Channels
  import opened Render

  /** size_of::<glm::Vec4>(): four f32 components. */
  const Vec4Size: nat := 16

  /** The dimensions main passes to both the render context and the editor. */
  const ContextWidth: u32 := 256
  const ContextHeight: u32 := 256

  /** bytes_per_row of the texture copy in prepare, hard-coded to 256 Vec4 texels. */
  const RowPitchBytes: nat := 256 * Vec4Size

  /** The same row pitch counted in texels. */
  const RowPitchTexels: nat := RowPitchBytes / Vec4Size

  /** The perspective matrix the W key writes into the camera slot. */
  const WKeyMatrix := Perspective(1.0, 45.0, 0.1, 1000.0)

  /** The byte length of a frame once cast to bytes: one Vec4 per pixel. */
  function FrameByteLength(f: Frame): nat
  {
    |f| * Vec4Size
  }

  /**
    The staging buffer size of RenderView::new: (width*height) as usize times
    size_of Vec4. The product is taken in u32, so it must not overflow. It is
    exactly the byte length of the frame the producer sends for those dimensions.
  */
  function StagingBufferSize(width: u32, height: u32): (n: nat)
    requires width as int * height as int < 0x1_0000_0000
    ensures n == FrameByteLength(TestPattern(width as nat, height as nat))
  {
    (width * height) as nat * Vec4Size
  }

  /** The hard-coded row pitch is one row of the 256-wide texture, and the staging buffer holds 256 such rows. */
  lemma RowPitchMatchesContextWidth()
    ensures RowPitchTexels == ContextWidth as nat
    ensures StagingBufferSize(ContextWidth, ContextHeight) == RowPitchBytes * ContextHeight as nat
  {
  }

  /**
    queue.write_buffer(buffer, offset, data): the data lands at the offset and
    every other slot of the buffer keeps its value. Slots are Vec4-sized.
  */
  function WriteBuffer(buffer: seq<Color>, offset: nat, data: seq<Color>): (r: seq<Color>)
    requires offset + |data| <= |buffer|
    ensures |r| == |buffer|
    ensures forall k :: 0 <= k < |data| ==> r[offset + k] == data[k]
    ensures forall k :: 0 <= k < |buffer| && !(offset <= k < offset + |data|) ==> r[k] == buffer[k]
  {
    buffer[..offset] + data + buffer[offset + |data|..]
  }

  /**
    copy_buffer_to_texture from offset 0: texture row r (of `width` texels) is
    read from the buffer starting at r * pitch, the row pitch in texels.
  */
  function CopyBufferToTexture(buffer: seq<Color>, pitch: nat, width: nat, height: nat): (t: seq<Color>)
    requires width <= pitch
    requires height == 0 || (height - 1) * pitch + width <= |buffer|
    ensures |t| == width * height
  {
    if height == 0 then []
    else
      assert height - 1 == 0 || (height - 2) * pitch + width <= (height - 1) * pitch;
      CopyBufferToTexture(buffer, pitch, width, height - 1)
        + buffer[(height - 1) * pitch .. (height - 1) * pitch + width]
  }

  /** With a row pitch equal to the texture width, the copy takes the buffer's first width*height slots unchanged. */
  lemma {:induction false} TightCopyIsIdentity(buffer: seq<Color>, width: nat, height: nat)
    requires width * height <= |buffer|
    ensures height == 0 || (height - 1) * width + width <= |buffer|
    ensures CopyBufferToTexture(buffer, width, width, height) == buffer[..width * height]
  {
    if height > 0 {
      assert (height - 1) * width + width == width * height;
      MulMonotone(height - 1, height, width);
      TightCopyIsIdentity(buffer, width, height - 1);
      assert buffer[..width * height]
          == buffer[..(height - 1) * width] + buffer[(height - 1) * width .. (height - 1) * width + width];
    }
  }

  /**
    The hard-coded pitch of prepare suits only the width main uses: for a
    staging buffer of exactly width*height texels and more than one row, a
    fitting copy forces the texture to be 256 wide.
  */
  lemma HardCodedPitchFitsOnlyWidth256(width: nat, height: nat)
    requires height > 1
    requires width <= RowPitchTexels
    requires (height - 1) * RowPitchTexels + width <= width * height
    ensures width == RowPitchTexels
  {
    NarrowTextureOverrunsStaging(width, height);
  }

  /** A texture narrower than the pitch, with more than one row, needs more than width*height staging texels. */
  lemma NarrowTextureOverrunsStaging(width: nat, height: nat)
    requires height > 1
    ensures width < RowPitchTexels ==> (height - 1) * RowPitchTexels + width > width * height
  {
    assert width * height == (height - 1) * width + width;
    if width < RowPitchTexels {
      MulMonotone(1, RowPitchTexels - width, height - 1);
      assert (height - 1) * RowPitchTexels == (height - 1) * width + (RowPitchTexels - width) * (height - 1);
    }
  }

  /** wgpu::CommandBuffer, opaque. */
  datatype CommandBuffer = CommandBuffer

  /** FullScreenTriangleRenderResources: the staging buffer and the result texture. */
  class TriangleResources {
    /** Staging buffer contents, one slot per Vec4 (16 bytes). */
    var staging: seq<Color>
    /** Result texture contents, row-major texels. */
    var texture: seq<Color>
    const textureWidth: nat
    const textureHeight: nat

    ghost predicate Valid()
      reads this
    {
      |texture| == textureWidth * textureHeight
    }

    /** What wgpu checks of the copy in prepare: each row fits the hard-coded pitch, and the last row ends inside the buffer. */
    ghost predicate CopyFits()
      reads this
    {
      && textureWidth <= RowPitchTexels
      && (textureHeight == 0 || (textureHeight - 1) * RowPitchTexels + textureWidth <= |staging|)
    }

    /** Buffers and textures are created zero-filled. */
    constructor (stagingBytes: nat, width: nat, height: nat)
      ensures Valid()
      ensures |staging| * Vec4Size == stagingBytes - stagingBytes % Vec4Size
      ensures forall k :: 0 <= k < |staging| ==> staging[k] == DefaultColor
      ensures textureWidth == width && textureHeight == height
      ensures forall k :: 0 <= k < |texture| ==> texture[k] == DefaultColor
    {
      staging := seq(stagingBytes / Vec4Size, _ => DefaultColor);
      texture := seq(width * height, _ => DefaultColor);
      textureWidth, textureHeight := width, height;
    }
  }

  /**
    RenderView::new, reduced to what the pipeline needs: without a wgpu render
    state it gives None; otherwise it creates a staging buffer of
    StagingBufferSize bytes and a width x height texture.
  */
  method NewRenderView(wgpuAvailable: bool, width: u32, height: u32) returns (r: Option<TriangleResources>)
    requires width as int * height as int < 0x1_0000_0000
    ensures r.Some? <==> wgpuAvailable
    ensures r.Some? ==> fresh(r.value) && r.value.Valid()
    ensures r.Some? ==> FrameByteLength(r.value.staging) == StagingBufferSize(width, height)
    ensures r.Some? ==> r.value.textureWidth == width as nat && r.value.textureHeight == height as nat
    ensures r.Some? ==> forall k :: 0 <= k < |r.value.texture| ==> r.value.texture[k] == DefaultColor
  {
    if !wgpuAvailable {
      return None;
    }
    var stagingBufferSize := StagingBufferSize(width, height);
    var resources := new TriangleResources(stagingBufferSize, width as nat, height as nat);
    r := Some(resources);
  }

  /** RenderViewCallback: the paint callback holding a receiver of the frame channel. */
  class RenderViewCallback {
    const receiver: Unbounded<Frame>

    constructor (receiver: Unbounded<Frame>)
      ensures this.receiver == receiver
    {
      this.receiver := receiver;
    }

    /**
      prepare: one non-blocking poll. A dequeued frame is written into the
      staging buffer at offset 0 and then copied to the texture with the
      hard-coded row pitch; on an empty channel nothing is uploaded. Either
      way the (empty) resources.prepare runs and no command buffer is returned.
    */
    method Prepare(resources: TriangleResources) returns (commandBuffers: seq<CommandBuffer>)
      requires resources.Valid() && resources.CopyFits()
      requires receiver.queue != [] ==> |receiver.queue[0]| <= |resources.staging|
      modifies receiver, resources
      ensures resources.Valid()
      ensures commandBuffers == []
      ensures old(receiver.queue) == [] ==>
        receiver.queue == [] && resources.staging == old(resources.staging) && resources.texture == old(resources.texture)
      ensures old(receiver.queue) != [] ==>
        && receiver.queue == old(receiver.queue)[1..]
        && resources.staging == WriteBuffer(old(resources.staging), 0, old(receiver.queue)[0])
        && resources.texture
           == CopyBufferToTexture(resources.staging, RowPitchTexels, resources.textureWidth, resources.textureHeight)
    {
      var received := receiver.TryRecv();
      if received.Some? {
        var image := received.value;
        resources.staging := WriteBuffer(resources.staging, 0, image);
        resources.texture :=
          CopyBufferToTexture(resources.staging, RowPitchTexels, resources.textureWidth, resources.textureHeight);
      }
      // resources.prepare(device, queue) has an empty body.
      commandBuffers := [];
    }
  }

  type TileId = nat

  datatype PaneType = Settings | Render(receiver: Unbounded<Frame>)

  datatype Pane = Pane(nr: nat, kind: PaneType)

  /** An egui_tiles tile: a pane, or a horizontal container of child tiles. */
  datatype Tile = PaneTile(pane: Pane) | Horizontal(children: seq<TileId>)

  datatype Tree = Tree(id: string, root: TileId, tiles: map<TileId, Tile>)

  /** egui_tiles::Tiles: the tile map; every insertion gets an identifier not used before. */
  class Tiles {
    var tiles: map<TileId, Tile>
    var nextTileId: TileId

    ghost predicate Valid()
      reads this
    {
      forall id :: id in tiles ==> id < nextTileId
    }

    constructor ()
      ensures Valid() && tiles == map[]
    {
      tiles := map[];
      nextTileId := 1;
    }

    method Insert(tile: Tile) returns (id: TileId)
      requires Valid()
      modifies this
      ensures Valid()
      ensures id !in old(tiles)
      ensures tiles == old(tiles)[id := tile]
    {
      id := nextTileId;
      nextTileId := nextTileId + 1;
      tiles := tiles[id := tile];
    }

    method InsertPane(pane: Pane) returns (id: TileId)
      requires Valid()
      modifies this
      ensures Valid()
      ensures id !in old(tiles)
      ensures tiles == old(tiles)[id := PaneTile(pane)]
    {
      id := Insert(PaneTile(pane));
    }

    method InsertHorizontalTile(children: seq<TileId>) returns (id: TileId)
      requires Valid()
      modifies this
      ensures Valid()
      ensures id !in old(tiles)
      ensures tiles == old(tiles)[id := Horizontal(children)]
    {
      id := Insert(Horizontal(children));
    }
  }

  /**
    The layout create_tree builds: one horizontal root tile with exactly two
    distinct children, the render pane on `rx` first and a settings pane
    second, both numbered 0, and no other tile.
  */
  ghost predicate InitialLayout(tree: Tree, rx: Unbounded<Frame>)
  {
    && tree.id == "strelka_tree"
    && tree.root in tree.tiles
    && tree.tiles[tree.root].Horizontal?
    && var children := tree.tiles[tree.root].children;
    && |children| == 2
    && children[0] != tree.root && children[1] != tree.root && children[0] != children[1]
    && tree.tiles.Keys == {tree.root, children[0], children[1]}
    && tree.tiles[children[0]] == PaneTile(Pane(0, Render(rx)))
    && tree.tiles[children[1]] == PaneTile(Pane(0, Settings))
  }

  /**
    create_tree: the render pane is numbered 0 explicitly; gen_pane numbers the
    settings pane from a counter that starts at 0, so it is numbered 0 too.
  */
  method CreateTree(renderResultRx: Unbounded<Frame>) returns (tree: Tree)
    ensures InitialLayout(tree, renderResultRx)
  {
    var nextViewNr: nat := 0;
    var tiles := new Tiles();
    var tabs: seq<TileId> := [];

    var renderPane := Pane(0, Render(renderResultRx));
    var renderId := tiles.InsertPane(renderPane);
    tabs := tabs + [renderId];

    // gen_pane(): a settings pane numbered from the counter, which then advances.
    var settingsPane := Pane(nextViewNr, Settings);
    nextViewNr := nextViewNr + 1;
    var settingsId := tiles.InsertPane(settingsPane);
    tabs := tabs + [settingsId];

    var root := tiles.InsertHorizontalTile(tabs);
    tree := Tree("strelka_tree", root, tiles.tiles);
  }

  /** Editor: the egui application. */
  class Editor {
    /** RenderView holds no state; this is the resources it registers, if a wgpu render state existed. */
    var viewport: Option<TriangleResources>
    var tree: Tree
    var pickedPath: Option<string>
    const inputTx: SingleValue<Mat4>

    /** Editor::new */
    constructor (wgpuAvailable: bool, width: u32, height: u32, rx: Unbounded<Frame>, inputTx: SingleValue<Mat4>)
      requires width as int * height as int < 0x1_0000_0000
      ensures viewport.Some? <==> wgpuAvailable
      ensures viewport.Some? ==> fresh(viewport.value) && viewport.value.Valid()
      ensures viewport.Some? ==> FrameByteLength(viewport.value.staging) == StagingBufferSize(width, height)
      ensures viewport.Some? ==> viewport.value.textureWidth == width as nat && viewport.value.textureHeight == height as nat
      ensures viewport.Some? ==> forall k :: 0 <= k < |viewport.value.texture| ==> viewport.value.texture[k] == DefaultColor
      ensures InitialLayout(tree, rx)
      ensures pickedPath == None
      ensures this.inputTx == inputTx
    {
      var view := NewRenderView(wgpuAvailable, width, height);
      var layout := CreateTree(rx);
      viewport, tree := view, layout;
      pickedPath := None;
      this.inputTx := inputTx;
    }

    /** Editor::update, the camera part: a W press overwrites the camera slot; otherwise the slot is untouched. */
    method Update(wPressed: bool)
      modifies inputTx
      ensures inputTx.value == if wPressed then WKeyMatrix else old(inputTx.value)
    {
      if wPressed {
        var newMatrix := WKeyMatrix;
        inputTx.Update(newMatrix);
      }
    }
  }

  /** Number of successful lock acquisitions among the producer loop's attempts. */
  function Acquisitions(attempts: seq<bool>): nat
  {
    if attempts == [] then 0
    else Acquisitions(attempts[..|attempts| - 1]) + (if attempts[|attempts| - 1] then 1 else 0)
  }

  /** `n` copies of a frame. */
  function Copies(f: Frame, n: nat): seq<Frame>
  {
    seq(n, _ => f)
  }

  /** The frame the producer sends every iteration in this program. */
  function ProducedFrame(): Frame
  {
    TestPattern(ContextWidth as nat, ContextHeight as nat)
  }

  /** The texture before any frame arrives: zero-filled. */
  function BlankTexture(): seq<Color>
  {
    seq(ContextWidth as nat * ContextHeight as nat, _ => DefaultColor)
  }

  /**
    The program assembled by main, run as a sequential state machine.
    `sent` is every frame the producer has sent, `shown` every frame the
    consumer has dequeued and uploaded, `wPresses` the number of W presses.
  */
  class App {
    const camera: SingleValue<Mat4>
    const channel: Unbounded<Frame>
    const renderContext: RenderContext
    const editor: Editor
    const resources: TriangleResources
    ghost var sent: seq<Frame>
    ghost var shown: seq<Frame>
    ghost var wPresses: nat

    ghost predicate Valid()
      reads this, camera, channel, renderContext, editor, resources
    {
      // wiring
      && renderContext.Valid()
      && renderContext.tx == channel && renderContext.inputRx == camera
      && renderContext.resultWidth == ContextWidth && renderContext.resultHeight == ContextHeight
      && editor.inputTx == camera && editor.viewport == Some(resources)
      && InitialLayout(editor.tree, channel)
      && resources.Valid()
      && resources.textureWidth == ContextWidth as nat && resources.textureHeight == ContextHeight as nat
      && |resources.staging| == ContextWidth as nat * ContextHeight as nat
      // the channel is FIFO and loses nothing: what was shown, then what is queued, is what was sent
      && shown + channel.queue == sent
      && (forall k :: 0 <= k < |sent| ==> sent[k] == ProducedFrame())
      && (forall k :: 0 <= k < |channel.queue| ==> channel.queue[k] == ProducedFrame())
      // the texture shows the last frame dequeued, or nothing yet
      && resources.texture == (if shown == [] then BlankTexture() else shown[|shown| - 1])
      // the camera slot holds identity until the first W press, the perspective matrix after
      && camera.value == (if wPresses == 0 then Identity else WKeyMatrix)
    }

    /** main: the camera slot, the unbounded frame channel, a 256x256 render context and a 256x256 editor. */
    constructor Launch()
      ensures Valid()
      ensures fresh(camera) && fresh(channel) && fresh(renderContext) && fresh(editor) && fresh(resources)
      ensures sent == [] && shown == [] && wPresses == 0
      ensures camera.value == Identity && channel.queue == []
      ensures renderContext.view == InitialView
    {
      var matrixReceiver := new SingleValue<Mat4>.StartingWith(Identity);
      var renderResult := new Unbounded<Frame>();
      var context := new RenderContext(ContextWidth, ContextHeight, renderResult, matrixReceiver);
      var ed := new Editor(true, ContextWidth, ContextHeight, renderResult, matrixReceiver);
      camera, channel, renderContext, editor := matrixReceiver, renderResult, context, ed;
      resources := ed.viewport.value;
      sent, shown, wPresses := [], [], 0;
      new;
      assert resources.texture == BlankTexture();
    }

    /** The body of the producer thread's loop: one run_iteration if the write lock was acquired, nothing otherwise. */
    method ProducerLoopBody(lockAcquired: bool)
      requires Valid()
      modifies this, channel
      ensures Valid()
      ensures channel.queue == old(channel.queue) + (if lockAcquired then [ProducedFrame()] else [])
      ensures sent == old(sent) + (if lockAcquired then [ProducedFrame()] else [])
      ensures shown == old(shown) && wPresses == old(wPresses)
      ensures unchanged(renderContext) && unchanged(camera) && unchanged(resources)
    {
      if lockAcquired {
        renderContext.RunIteration();
        sent := sent + [ProducedFrame()];
      }
    }

    /** The producer thread's loop, run for a finite list of lock attempts: one frame per acquisition. */
    method RunProducer(attempts: seq<bool>)
      requires Valid()
      modifies this, channel
      ensures Valid()
      ensures sent == old(sent) + Copies(ProducedFrame(), Acquisitions(attempts))
      ensures channel.queue == old(channel.queue) + Copies(ProducedFrame(), Acquisitions(attempts))
      ensures shown == old(shown) && wPresses == old(wPresses)
    {
      var n := 0;
      while n < |attempts|
        invariant 0 <= n <= |attempts|
        invariant Valid()
        invariant sent == old(sent) + Copies(ProducedFrame(), Acquisitions(attempts[..n]))
        invariant channel.queue == old(channel.queue) + Copies(ProducedFrame(), Acquisitions(attempts[..n]))
        invariant shown == old(shown) && wPresses == old(wPresses)
      {
        ProducerLoopBody(attempts[n]);
        assert attempts[..n + 1][..n] == attempts[..n];
        assert Copies(ProducedFrame(), Acquisitions(attempts[..n + 1]))
            == Copies(ProducedFrame(), Acquisitions(attempts[..n])) + (if attempts[n] then [ProducedFrame()] else []);
        n := n + 1;
      }
      assert attempts[..n] == attempts;
    }

    /**
      One display tick: the render pane's paint callback is created on the
      frame channel and prepare polls it once. A dequeued frame becomes the
      texture's contents; on an empty channel the texture keeps what it showed.
    */
    method ConsumerTick() returns (commandBuffers: seq<CommandBuffer>)
      requires Valid()
      modifies this, channel, resources
      ensures Valid()
      ensures commandBuffers == []
      ensures sent == old(sent) && wPresses == old(wPresses)
      ensures old(channel.queue) == [] ==>
        channel.queue == [] && shown == old(shown) && resources.texture == old(resources.texture)
      ensures old(channel.queue) != [] ==>
        && channel.queue == old(channel.queue)[1..]
        && shown == old(shown) + [old(channel.queue)[0]]
        && resources.texture == old(channel.queue)[0]
    {
      var callback := new RenderViewCallback(channel);
      RowPitchMatchesContextWidth();
      ghost var queued := channel.queue;
      commandBuffers := callback.Prepare(resources);
      if queued != [] {
        ghost var frame := queued[0];
        assert resources.staging == frame;
        TightCopyIsIdentity(resources.staging, ContextWidth as nat, ContextHeight as nat);
        shown := shown + [frame];
        assert shown + channel.queue == sent by {
          assert queued == [frame] + channel.queue;
        }
      }
    }

    /** Editor::update for the camera: a W press overwrites the camera slot. */
    method EditorUpdate(wPressed: bool)
      requires Valid()
      modifies this, camera
      ensures Valid()
      ensures camera.value == if wPressed then WKeyMatrix else old(camera.value)
      ensures sent == old(sent) && shown == old(shown) && channel.queue == old(channel.queue)
      ensures wPresses == old(wPresses) + (if wPressed then 1 else 0)
    {
      editor.Update(wPressed);
      if wPressed {
        wPresses := wPresses + 1;
      }
    }
  }
}
