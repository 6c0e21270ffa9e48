/**
 * `library::Renderer` (Source/Library/Renderer/Renderer.cpp): the three name-keyed tables,
 * their add and bind operations, the per-frame Update and Render, and Initialize.
 *
 * Hash-table iteration order is not fixed by `std::unordered_map`, so every operation that
 * iterates a table receives the table's current order as an input (`Enumerates`).
 */
module Renderers {
  import opened Common
  import opened Registry
  import opened FrameCommands
  import opened DeviceInit

  /** The linear scan each table operation starts with: is `name` one of the iterated keys? */
  method Search(order: seq<Key>, name: Key) returns (found: bool)
    ensures found <==> name in order
  {
    var i := 0;
    while i < |order|
      invariant 0 <= i <= |order|
      invariant name !in order[..i]
    {
      if order[i] == name {
        return true;
      }
      assert order[..i + 1] == order[..i] + [order[i]];
      i := i + 1;
    }
    assert order[..i] == order;
    return false;
  }

  class Renderer {
    var driverType: DriverType
    var renderables: map<Key, Renderable>
    var vertexShaders: map<Key, ShaderRef>
    var pixelShaders: map<Key, ShaderRef>

    /** No driver chosen yet, all three tables empty. */
    constructor()
      ensures driverType == DriverNull
      ensures renderables == map[] && vertexShaders == map[] && pixelShaders == map[]
    {
      driverType := DriverNull;
      renderables := map[];
      vertexShaders := map[];
      pixelShaders := map[];
    }

    /** The driver type the last `Initialize` left behind. */
    /** The driver the last device search settled on, as stored. */
    function GetDriverType(): (d: DriverType)
      reads this
      ensures d == driverType
    {
      driverType
    }

    /**
     * Fails with E_FAIL when the name is already a key; otherwise inserts it and succeeds.
     * Only the renderable table changes.
     */
    method AddRenderable(name: Key, renderable: Renderable, order: seq<Key>) returns (hr: HResult)
      requires Enumerates(order, renderables.Keys)
      modifies this
      ensures (hr, renderables) == Register(old(renderables), name, renderable)
      ensures driverType == old(driverType) && vertexShaders == old(vertexShaders) && pixelShaders == old(pixelShaders)
    {
      var present := Search(order, name);
      if present {
        return E_FAIL;
      }
      renderables := renderables[name := renderable];
      return S_OK;
    }

    /** As AddRenderable, for the vertex-shader table. */
    method AddVertexShader(name: Key, vertexShader: ShaderRef, order: seq<Key>) returns (hr: HResult)
      requires Enumerates(order, vertexShaders.Keys)
      modifies this
      ensures (hr, vertexShaders) == Register(old(vertexShaders), name, vertexShader)
      ensures driverType == old(driverType) && renderables == old(renderables) && pixelShaders == old(pixelShaders)
    {
      var present := Search(order, name);
      if present {
        return E_FAIL;
      }
      vertexShaders := vertexShaders[name := vertexShader];
      return S_OK;
    }

    /** As AddRenderable, for the pixel-shader table. */
    method AddPixelShader(name: Key, pixelShader: ShaderRef, order: seq<Key>) returns (hr: HResult)
      requires Enumerates(order, pixelShaders.Keys)
      modifies this
      ensures (hr, pixelShaders) == Register(old(pixelShaders), name, pixelShader)
      ensures driverType == old(driverType) && renderables == old(renderables) && vertexShaders == old(vertexShaders)
    {
      var present := Search(order, name);
      if present {
        return E_FAIL;
      }
      pixelShaders := pixelShaders[name := pixelShader];
      return S_OK;
    }

    /**
     * Scans the renderables for the name and, inside, the vertex shaders for the shader name;
     * on a double match the renderable now holds that shader. Always reports S_OK, even when
     * either name is missing.
     */
    method SetVertexShaderOfRenderable(name: Key, shaderName: Key, renderableOrder: seq<Key>, vertexShaderOrder: seq<Key>)
      returns (hr: HResult)
      requires Enumerates(renderableOrder, renderables.Keys)
      requires Enumerates(vertexShaderOrder, vertexShaders.Keys)
      modifies this
      ensures hr == S_OK
      ensures renderables == BindVertexShader(old(renderables), vertexShaders, name, shaderName)
      ensures driverType == old(driverType) && vertexShaders == old(vertexShaders) && pixelShaders == old(pixelShaders)
    {
      ghost var bound := BindVertexShader(renderables, vertexShaders, name, shaderName);
      var i := 0;
      while i < |renderableOrder|
        invariant 0 <= i <= |renderableOrder|
        invariant renderables == if name in renderableOrder[..i] && shaderName in vertexShaders then bound else old(renderables)
        invariant driverType == old(driverType) && vertexShaders == old(vertexShaders) && pixelShaders == old(pixelShaders)
      {
        if renderableOrder[i] == name {
          var j := 0;
          ghost var before := renderables;
          while j < |vertexShaderOrder|
            invariant 0 <= j <= |vertexShaderOrder|
            invariant renderables == if shaderName in vertexShaderOrder[..j] then bound else before
            invariant driverType == old(driverType) && vertexShaders == old(vertexShaders) && pixelShaders == old(pixelShaders)
          {
            if vertexShaderOrder[j] == shaderName {
              renderables := renderables[name := renderables[name].(vertexShader := Some(vertexShaders[shaderName]))];
            }
            assert vertexShaderOrder[..j + 1] == vertexShaderOrder[..j] + [vertexShaderOrder[j]];
            j := j + 1;
          }
          assert vertexShaderOrder[..j] == vertexShaderOrder;
        }
        assert renderableOrder[..i + 1] == renderableOrder[..i] + [renderableOrder[i]];
        i := i + 1;
      }
      assert renderableOrder[..i] == renderableOrder;
      hr := S_OK;
    }

    /** As SetVertexShaderOfRenderable, for the pixel shader. */
    method SetPixelShaderOfRenderable(name: Key, shaderName: Key, renderableOrder: seq<Key>, pixelShaderOrder: seq<Key>)
      returns (hr: HResult)
      requires Enumerates(renderableOrder, renderables.Keys)
      requires Enumerates(pixelShaderOrder, pixelShaders.Keys)
      modifies this
      ensures hr == S_OK
      ensures renderables == BindPixelShader(old(renderables), pixelShaders, name, shaderName)
      ensures driverType == old(driverType) && vertexShaders == old(vertexShaders) && pixelShaders == old(pixelShaders)
    {
      ghost var bound := BindPixelShader(renderables, pixelShaders, name, shaderName);
      var i := 0;
      while i < |renderableOrder|
        invariant 0 <= i <= |renderableOrder|
        invariant renderables == if name in renderableOrder[..i] && shaderName in pixelShaders then bound else old(renderables)
        invariant driverType == old(driverType) && vertexShaders == old(vertexShaders) && pixelShaders == old(pixelShaders)
      {
        if renderableOrder[i] == name {
          var j := 0;
          ghost var before := renderables;
          while j < |pixelShaderOrder|
            invariant 0 <= j <= |pixelShaderOrder|
            invariant renderables == if shaderName in pixelShaderOrder[..j] then bound else before
            invariant driverType == old(driverType) && vertexShaders == old(vertexShaders) && pixelShaders == old(pixelShaders)
          {
            if pixelShaderOrder[j] == shaderName {
              renderables := renderables[name := renderables[name].(pixelShader := Some(pixelShaders[shaderName]))];
            }
            assert pixelShaderOrder[..j + 1] == pixelShaderOrder[..j] + [pixelShaderOrder[j]];
            j := j + 1;
          }
          assert pixelShaderOrder[..j] == pixelShaderOrder;
        }
        assert renderableOrder[..i + 1] == renderableOrder[..i] + [renderableOrder[i]];
        i := i + 1;
      }
      assert renderableOrder[..i] == renderableOrder;
      hr := S_OK;
    }

    /** Every renderable's `Update(deltaTime)` in iteration order, then the camera's. */
    method Update(order: seq<Key>, deltaTime: real) returns (calls: seq<Command>)
      requires Enumerates(order, renderables.Keys)
      ensures calls == UpdateTrace(order, deltaTime)
    {
      calls := [];
      var i := 0;
      while i < |order|
        invariant 0 <= i <= |order|
        invariant calls == RenderableUpdates(order[..i], deltaTime)
      {
        assert order[..i + 1][..i] == order[..i];
        calls := calls + [UpdateRenderable(order[i], deltaTime)];
        i := i + 1;
      }
      assert order[..i] == order;
      calls := calls + [UpdateCamera(deltaTime)];
    }

    /** Clears, one draw block per renderable in iteration order, one present. */
    method Render(order: seq<Key>) returns (commands: seq<Command>)
      requires Enumerates(order, renderables.Keys)
      ensures commands == RenderTrace(order, renderables)
    {
      commands := [ClearRenderTargetView, ClearDepthStencilView];
      var i := 0;
      while i < |order|
        invariant 0 <= i <= |order|
        invariant commands == [ClearRenderTargetView, ClearDepthStencilView] + Draws(order[..i], renderables)
      {
        var key := order[i];
        var r := renderables[key];
        assert order[..i + 1][..i] == order[..i];
        commands := commands + [SetVertexBuffers(key), SetIndexBuffer(key), SetInputLayout(key), UploadConstants(key),
                                VSSetShader(r.vertexShader), VSSetConstantBuffers(0, key), PSSetShader(r.pixelShader),
                                DrawIndexed(r.numIndices, 0, 0)];
        i := i + 1;
      }
      assert order[..i] == order;
      commands := commands + [Present(0, 0)];
    }

    /** One driver: the full feature-level list, and one retry without 11.1 on E_INVALIDARG. */
    method TryFeatureLevels(createDevice: (DriverType, seq<FeatureLevel>) -> HResult, driver: DriverType)
      returns (hr: HResult, calls: seq<InitCall>)
      ensures TryDriver(createDevice, driver) == Attempt(hr, calls)
    {
      hr := createDevice(driver, FeatureLevels);
      calls := [CreateDevice(driver, FeatureLevels)];
      if hr == E_INVALIDARG {
        hr := createDevice(driver, FeatureLevels[1..]);
        calls := calls + [CreateDevice(driver, FeatureLevels[1..])];
      }
    }

    /**
     * The driver fallback loop: each driver in preference order, a retry without feature
     * level 11.1 on E_INVALIDARG, and a stop at the first success. `driverType` keeps the last
     * driver tried.
     */
    method CreateDeviceWithFallback(createDevice: (DriverType, seq<FeatureLevel>) -> HResult)
      returns (hr: HResult, calls: seq<InitCall>)
      modifies this
      ensures DeviceSearch(createDevice) == DeviceResult(hr, driverType, calls)
      ensures renderables == old(renderables) && vertexShaders == old(vertexShaders) && pixelShaders == old(pixelShaders)
    {
      calls := [];
      hr := S_OK;
      var d := 0;
      while d < |DriverTypes|
        invariant 0 <= d <= |DriverTypes|
        invariant d < |DriverTypes| ==> DeviceSearch(createDevice) == SearchFrom(createDevice, d, calls)
        invariant d == |DriverTypes| ==> DeviceSearch(createDevice) == DeviceResult(hr, driverType, calls)
        invariant renderables == old(renderables) && vertexShaders == old(vertexShaders) && pixelShaders == old(pixelShaders)
      {
        driverType := DriverTypes[d];
        var attemptCalls;
        hr, attemptCalls := TryFeatureLevels(createDevice, driverType);
        calls := calls + attemptCalls;
        if Succeeded(hr) {
          break;
        }
        d := d + 1;
      }
    }

    /**
     * Each shader table is scanned for the main shader's key; the shader found is initialized
     * once and the scan stops. Neither initialization's result is looked at.
     */
    method InitializeMainShaders(mainShader: Key, vertexShaderOrder: seq<Key>, pixelShaderOrder: seq<Key>)
      returns (calls: seq<InitCall>)
      ensures calls == MainShaderCalls(vertexShaderOrder, pixelShaderOrder, mainShader)
    {
      calls := [];
      var hasMainVertexShader := Search(vertexShaderOrder, mainShader);
      if hasMainVertexShader {
        calls := calls + [InitVertexShader(mainShader)];
      }
      var hasMainPixelShader := Search(pixelShaderOrder, mainShader);
      if hasMainPixelShader {
        calls := calls + [InitPixelShader(mainShader)];
      }
    }

    /**
     * Every renderable's `Initialize` in iteration order; the first failure is returned at
     * once, S_OK when all succeed.
     */
    method InitializeRenderables(initRenderable: Key -> HResult, order: seq<Key>)
      returns (hr: HResult, calls: seq<InitCall>)
      ensures var p := RunInOrder(initRenderable, order);
        hr == p.hr && calls == RenderableInitCalls(order[..p.attempted])
    {
      calls := [];
      var i := 0;
      while i < |order|
        invariant 0 <= i <= |order|
        invariant forall j :: 0 <= j < i ==> Succeeded(initRenderable(order[j]))
        invariant calls == RenderableInitCalls(order[..i])
      {
        assert order[..i + 1][..i] == order[..i];
        calls := calls + [InitRenderable(order[i])];
        hr := initRenderable(order[i]);
        if Failed(hr) {
          RunInOrderStopsAt(initRenderable, order, i);
          return;
        }
        i := i + 1;
      }
      assert order[..i] == order;
      hr := S_OK;
    }

    /**
     * The six fallible calls between device creation and shader initialization, each followed
     * by an early return on failure.
     */
    method RunSetupSteps(step: InitStep -> HResult) returns (hr: HResult, calls: seq<InitCall>)
      ensures 0 < |calls| <= |InitSteps| && calls == StepCalls(InitSteps[..|calls|])
      ensures forall j :: 0 <= j < |calls| - 1 ==> Succeeded(step(InitSteps[j]))
      ensures Failed(hr) ==> hr == step(InitSteps[|calls| - 1])
      ensures Succeeded(hr) ==> hr == S_OK && |calls| == |InitSteps| && Succeeded(step(InitSteps[|calls| - 1]))
    {
      SetupPrefixCalls();
      calls := [Step(QueryDxgiDevice)];
      hr := step(QueryDxgiDevice);
      if Failed(hr) {
        return;
      }
      calls := calls + [Step(CreateSwapChain)];
      hr := step(CreateSwapChain);
      if Failed(hr) {
        return;
      }
      calls := calls + [Step(GetBackBuffer)];
      hr := step(GetBackBuffer);
      if Failed(hr) {
        return;
      }
      calls := calls + [Step(CreateRenderTargetView)];
      hr := step(CreateRenderTargetView);
      if Failed(hr) {
        return;
      }
      calls := calls + [Step(CreateDepthStencil)];
      hr := step(CreateDepthStencil);
      if Failed(hr) {
        return;
      }
      calls := calls + [Step(CreateDepthStencilView)];
      hr := step(CreateDepthStencilView);
      if Failed(hr) {
        return;
      }
      hr := S_OK;

    }

    /** Lines after device creation: the setup steps, the main shaders and the renderables. */
    method InitializeAfterDevice(backend: Backend, mainShader: Key, vertexShaderOrder: seq<Key>,
                                 pixelShaderOrder: seq<Key>, renderableOrder: seq<Key>)
      returns (hr: HResult, calls: seq<InitCall>)
      ensures AfterDevice(backend, mainShader, vertexShaderOrder, pixelShaderOrder, renderableOrder) == Attempt(hr, calls)
    {
      hr, calls := RunSetupSteps(backend.step);
      SetupOutcome(backend.step, |calls|, hr);
      if Failed(hr) {
        return;
      }
      assert InitSteps[..|InitSteps|] == InitSteps;
      var shaderCalls := InitializeMainShaders(mainShader, vertexShaderOrder, pixelShaderOrder);
      calls := calls + shaderCalls;
      var renderableCalls;
      hr, renderableCalls := InitializeRenderables(backend.initRenderable, renderableOrder);
      calls := calls + renderableCalls;
    }

    /**
     * Device creation with the driver fallback, the six fallible swap-chain and view steps
     * with their early returns, the one shader of each kind stored under `mainShader`, then
     * every renderable until the first failure. The tables themselves are not changed.
     */
    method Initialize(backend: Backend, mainShader: Key, vertexShaderOrder: seq<Key>,
                      pixelShaderOrder: seq<Key>, renderableOrder: seq<Key>)
      returns (hr: HResult, calls: seq<InitCall>)
      requires Enumerates(vertexShaderOrder, vertexShaders.Keys)
      requires Enumerates(pixelShaderOrder, pixelShaders.Keys)
      requires Enumerates(renderableOrder, renderables.Keys)
      modifies this
      ensures InitializeSpec(backend, mainShader, vertexShaderOrder, pixelShaderOrder, renderableOrder)
              == InitResult(hr, GetDriverType(), calls)
      ensures renderables == old(renderables) && vertexShaders == old(vertexShaders) && pixelShaders == old(pixelShaders)
    {
      hr, calls := CreateDeviceWithFallback(backend.createDevice);
      if Failed(hr) {
        return;
      }
      var rest;
      hr, rest := InitializeAfterDevice(backend, mainShader, vertexShaderOrder, pixelShaderOrder, renderableOrder);
      calls := calls + rest;
    }
  }
}
