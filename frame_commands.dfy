/**
 * The calls `Renderer::Update` and `Renderer::Render` issue each frame
 * (Source/Library/Renderer/Renderer.cpp), as traces, with the properties of those traces.
 */
module FrameCommands {
  import opened Common
  import opened Registry

  /** One call made on a renderable, the camera, the device context or the swap chain. */
  datatype Command =
    | UpdateRenderable(key: Key, deltaTime: real)
    | UpdateCamera(deltaTime: real)
    | ClearRenderTargetView
    | ClearDepthStencilView
    /** `IASetVertexBuffers(0, 1, ...)` with the renderable's vertex buffer, stride of one vertex, offset 0. */
    | SetVertexBuffers(vertexBufferOf: Key)
    /** `IASetIndexBuffer` with the renderable's 16-bit index buffer. */
    | SetIndexBuffer(indexBufferOf: Key)
    | SetInputLayout(layoutOf: Key)
    /** `UpdateSubresource` of the renderable's constant buffer with its World, the camera View and the Projection, transposed. */
    | UploadConstants(constantBufferOf: Key)
    | VSSetShader(vertexShader: Option<ShaderRef>)
    | VSSetConstantBuffers(slot: nat, constantBufferOf: Key)
    | PSSetShader(pixelShader: Option<ShaderRef>)
    | DrawIndexed(indexCount: nat, startIndexLocation: nat, baseVertexLocation: int)
    | Present(syncInterval: nat, flags: nat)

  /** The renderable updates of `Update`, one per key of `order`, in that order. */
  function RenderableUpdates(order: seq<Key>, deltaTime: real): seq<Command>
    decreases |order|
  {
    if order == [] then []
    else RenderableUpdates(order[..|order| - 1], deltaTime) + [UpdateRenderable(order[|order| - 1], deltaTime)]
  }

  /** Everything `Update(deltaTime)` does: every renderable, then the camera. */
  function UpdateTrace(order: seq<Key>, deltaTime: real): seq<Command>
  {
    RenderableUpdates(order, deltaTime) + [UpdateCamera(deltaTime)]
  }

  /** The eight calls `Render` makes for one renderable, ending in its single draw. */
  function DrawBlock(key: Key, r: Renderable): seq<Command>
  {
    [SetVertexBuffers(key), SetIndexBuffer(key), SetInputLayout(key), UploadConstants(key),
     VSSetShader(r.vertexShader), VSSetConstantBuffers(0, key), PSSetShader(r.pixelShader),
     DrawIndexed(r.numIndices, 0, 0)]
  }

  /** The draw blocks of `Render`, one per key of `order`, in that order. */
  function Draws(order: seq<Key>, renderables: map<Key, Renderable>): seq<Command>
    requires forall i :: 0 <= i < |order| ==> order[i] in renderables
    decreases |order|
  {
    if order == [] then []
    else
      var last := order[|order| - 1];
      Draws(order[..|order| - 1], renderables) + DrawBlock(last, renderables[last])
  }

  /** Everything `Render()` does: clear both targets, draw every renderable, present once. */
  function RenderTrace(order: seq<Key>, renderables: map<Key, Renderable>): seq<Command>
    requires forall i :: 0 <= i < |order| ==> order[i] in renderables
  {
    [ClearRenderTargetView, ClearDepthStencilView] + Draws(order, renderables) + [Present(0, 0)]
  }

  /** The i-th renderable update is for the i-th key. */
  lemma {:induction false} RenderableUpdatesAt(order: seq<Key>, deltaTime: real)
    ensures |RenderableUpdates(order, deltaTime)| == |order|
    ensures forall i :: 0 <= i < |order| ==> RenderableUpdates(order, deltaTime)[i] == UpdateRenderable(order[i], deltaTime)
    decreases |order|
  {
    if order != [] {
      RenderableUpdatesAt(order[..|order| - 1], deltaTime);
    }
  }

  /** Over a duplicate-free order, each key is updated exactly once and no other key is. */
  lemma {:induction false} RenderableUpdatesCount(order: seq<Key>, deltaTime: real, k: Key)
    requires Distinct(order)
    ensures multiset(RenderableUpdates(order, deltaTime))[UpdateRenderable(k, deltaTime)] == if k in order then 1 else 0
    ensures multiset(RenderableUpdates(order, deltaTime))[UpdateCamera(deltaTime)] == 0
    decreases |order|
  {
    if order != [] {
      var prefix := order[..|order| - 1];
      assert Distinct(prefix);
      RenderableUpdatesCount(prefix, deltaTime, k);
      assert order == prefix + [order[|order| - 1]];
      assert k in order <==> k in prefix || k == order[|order| - 1];
      assert k == order[|order| - 1] ==> k !in prefix;
    }
  }

  /**
   * `Update(dt)`: every renderable of the table gets `Update(dt)` exactly once, nothing else
   * is updated, and the camera's `Update(dt)` comes last, exactly once.
   */
  lemma UpdateVisitsEachOnce(order: seq<Key>, keys: set<Key>, deltaTime: real)
    requires Enumerates(order, keys)
    ensures var t := UpdateTrace(order, deltaTime);
      && |t| == |order| + 1 && |order| == |keys|
      && t[|t| - 1] == UpdateCamera(deltaTime)
      && multiset(t)[UpdateCamera(deltaTime)] == 1
      && (forall k :: multiset(t)[UpdateRenderable(k, deltaTime)] == if k in keys then 1 else 0)
      && (forall i :: 0 <= i < |t| - 1 ==> t[i] == UpdateRenderable(order[i], deltaTime))
  {
    RenderableUpdatesAt(order, deltaTime);
    forall k | true
      ensures multiset(UpdateTrace(order, deltaTime))[UpdateRenderable(k, deltaTime)] == if k in keys then 1 else 0
    {
      RenderableUpdatesCount(order, deltaTime, k);
    }
    RenderableUpdatesCount(order, deltaTime, Key(0));
    EnumeratesSize(order, keys);
  }

  /** An enumeration has as many entries as the key set. */
  lemma {:induction false} EnumeratesSize(order: seq<Key>, keys: set<Key>)
    requires Enumerates(order, keys)
    ensures |order| == |keys|
    decreases |order|
  {
    if order != [] {
      var last := order[|order| - 1];
      var prefix := order[..|order| - 1];
      assert last !in prefix;
      forall k | k in keys - {last} ensures k in prefix {
        assert k in order;
        var i :| 0 <= i < |order| && order[i] == k;
        assert i != |order| - 1;
        assert prefix[i] == k;
      }
      EnumeratesSize(prefix, keys - {last});
    } else {
      assert forall k :: k !in keys;
      assert keys == {};
    }
  }

  /** The draw blocks lie back to back: block i is the i-th key's. */
  lemma {:induction false} DrawsAt(order: seq<Key>, renderables: map<Key, Renderable>, i: nat)
    requires forall j :: 0 <= j < |order| ==> order[j] in renderables
    requires i < |order|
    ensures |Draws(order, renderables)| == 8 * |order|
    ensures Draws(order, renderables)[8 * i .. 8 * i + 8] == DrawBlock(order[i], renderables[order[i]])
    decreases |order|
  {
    var prefix := order[..|order| - 1];
    var last := order[|order| - 1];
    DrawsLength(prefix, renderables);
    if i < |order| - 1 {
      DrawsAt(prefix, renderables, i);
      var d := Draws(prefix, renderables);
      assert Draws(order, renderables) == d + DrawBlock(last, renderables[last]);
      assert (d + DrawBlock(last, renderables[last]))[8 * i .. 8 * i + 8]
          == d[8 * i .. 8 * i + 8];
    }
  }

  lemma {:induction false} DrawsLength(order: seq<Key>, renderables: map<Key, Renderable>)
    requires forall j :: 0 <= j < |order| ==> order[j] in renderables
    ensures |Draws(order, renderables)| == 8 * |order|
    decreases |order|
  {
    if order != [] {
      DrawsLength(order[..|order| - 1], renderables);
    }
  }

  /** No draw block presents the frame. */
  lemma {:induction false} DrawsNeverPresent(order: seq<Key>, renderables: map<Key, Renderable>)
    requires forall j :: 0 <= j < |order| ==> order[j] in renderables
    ensures Present(0, 0) !in Draws(order, renderables)
    decreases |order|
  {
    if order != [] {
      var last := order[|order| - 1];
      DrawsNeverPresent(order[..|order| - 1], renderables);
      assert Present(0, 0) !in DrawBlock(last, renderables[last]);
    }
  }

  /** An element appended to a sequence that lacks it occurs there exactly once. */
  lemma OnceAtEnd<T>(s: seq<T>, x: T)
    requires x !in s
    ensures multiset(s + [x])[x] == 1
  {
    assert multiset(s + [x]) == multiset(s) + multiset{x};
  }

  /** Two clears, then commands without a present, then one present: the present occurs once, last. */
  lemma PresentOnceAfter(d: seq<Command>)
    requires Present(0, 0) !in d
    ensures var t := [ClearRenderTargetView, ClearDepthStencilView] + d + [Present(0, 0)];
      t[|t| - 1] == Present(0, 0) && multiset(t)[Present(0, 0)] == 1
  {
    var body := [ClearRenderTargetView, ClearDepthStencilView] + d;
    assert Present(0, 0) !in body;
    OnceAtEnd(body, Present(0, 0));
  }

  /** The frame is presented exactly once, after every draw. */
  lemma RenderPresentsOnce(order: seq<Key>, renderables: map<Key, Renderable>)
    requires forall j :: 0 <= j < |order| ==> order[j] in renderables
    ensures var t := RenderTrace(order, renderables);
      t[|t| - 1] == Present(0, 0) && multiset(t)[Present(0, 0)] == 1
  {
    var d := Draws(order, renderables);
    DrawsNeverPresent(order, renderables);
    PresentOnceAfter(d);
  }

  /** Block i of the trace, right after the two clears, is the i-th key's block. */
  lemma RenderBlockAt(order: seq<Key>, renderables: map<Key, Renderable>, i: nat)
    requires forall j :: 0 <= j < |order| ==> order[j] in renderables
    requires i < |order|
    ensures var t := RenderTrace(order, renderables);
      |t| == 3 + 8 * |order|
      && t[2 + 8 * i .. 2 + 8 * i + 8] == DrawBlock(order[i], renderables[order[i]])
  {
    var d := Draws(order, renderables);
    DrawsAt(order, renderables, i);
    var t := RenderTrace(order, renderables);
    assert t[2 + 8 * i .. 2 + 8 * i + 8] == d[8 * i .. 8 * i + 8];
  }

  /**
   * `Render()`: both clears come first, then for each renderable of the order its block
   * (buffers, constants upload, vertex shader, constant buffer at VS slot 0, pixel shader,
   * one `DrawIndexed(numIndices, 0, 0)`), and `Present(0, 0)` last and exactly once.
   */
  lemma RenderShape(order: seq<Key>, renderables: map<Key, Renderable>)
    requires Enumerates(order, renderables.Keys)
    ensures var t := RenderTrace(order, renderables);
      && |order| == |renderables| && |t| == 3 + 8 * |order|
      && t[0] == ClearRenderTargetView && t[1] == ClearDepthStencilView
      && t[|t| - 1] == Present(0, 0)
      && multiset(t)[Present(0, 0)] == 1
      && (forall i :: 0 <= i < |order| ==>
            t[2 + 8 * i .. 2 + 8 * i + 8] == DrawBlock(order[i], renderables[order[i]]))
  {
    DrawsLength(order, renderables);
    EnumeratesSize(order, renderables.Keys);
    RenderPresentsOnce(order, renderables);
    forall i | 0 <= i < |order|
      ensures RenderTrace(order, renderables)[2 + 8 * i .. 2 + 8 * i + 8] == DrawBlock(order[i], renderables[order[i]])
    {
      RenderBlockAt(order, renderables, i);
    }
  }
}
