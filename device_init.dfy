/**
 * The control flow of `Renderer::Initialize` (Source/Library/Renderer/Renderer.cpp:47-257):
 * the driver fallback loop, the early returns, which shaders are initialized and the
 * first-failure rule for renderables. Every device call is an abstract outcome.
 */
module DeviceInit {
  import opened Common
  import opened Registry

  datatype DriverType = DriverNull | DriverHardware | DriverWarp | DriverReference

  datatype FeatureLevel = Level11_1 | Level11_0 | Level10_1 | Level10_0

  /** The preference order of the fallback loop. */
  const DriverTypes: seq<DriverType> := [DriverHardware, DriverWarp, DriverReference]

  /** The feature levels asked for; a retry after E_INVALIDARG drops the first one. */
  const FeatureLevels: seq<FeatureLevel> := [Level11_1, Level11_0, Level10_1, Level10_0]

  /**
   * The fallible device calls between device creation and shader initialization, in source
   * order: the DXGI device query (line 102), the swap chain (118-159), the back buffer (168),
   * the render-target view (174), the depth texture (195) and the depth-stencil view (207).
   */
  datatype InitStep =
    | QueryDxgiDevice | CreateSwapChain | GetBackBuffer
    | CreateRenderTargetView | CreateDepthStencil | CreateDepthStencilView

  const InitSteps: seq<InitStep> :=
    [QueryDxgiDevice, CreateSwapChain, GetBackBuffer, CreateRenderTargetView, CreateDepthStencil, CreateDepthStencilView]

  /** What the device, the swap chain and each renderable's `Initialize` would answer. */
  datatype Backend = Backend(
    createDevice: (DriverType, seq<FeatureLevel>) -> HResult,
    step: InitStep -> HResult,
    initRenderable: Key -> HResult)

  /** One call made by `Initialize`. */
  datatype InitCall =
    | CreateDevice(driver: DriverType, levels: seq<FeatureLevel>)
    | Step(step: InitStep)
    | InitVertexShader(vertexShaderKey: Key)
    | InitPixelShader(pixelShaderKey: Key)
    | InitRenderable(renderableKey: Key)

  /** The outcome of trying one driver: the status, and one or two `D3D11CreateDevice` calls. */
  datatype Attempt = Attempt(hr: HResult, calls: seq<InitCall>)

  /** One driver: full feature-level list, and on E_INVALIDARG exactly one retry without 11.1. */
  function TryDriver(createDevice: (DriverType, seq<FeatureLevel>) -> HResult, driver: DriverType): (a: Attempt)
    ensures createDevice(driver, FeatureLevels) != E_INVALIDARG ==>
              a.hr == createDevice(driver, FeatureLevels) && a.calls == [CreateDevice(driver, FeatureLevels)]
    ensures createDevice(driver, FeatureLevels) == E_INVALIDARG ==>
              a.hr == createDevice(driver, [Level11_0, Level10_1, Level10_0])
              && a.calls == [CreateDevice(driver, FeatureLevels), CreateDevice(driver, [Level11_0, Level10_1, Level10_0])]
  {
    var hr := createDevice(driver, FeatureLevels);
    if hr == E_INVALIDARG then
      Attempt(createDevice(driver, FeatureLevels[1..]),
              [CreateDevice(driver, FeatureLevels), CreateDevice(driver, FeatureLevels[1..])])
    else Attempt(hr, [CreateDevice(driver, FeatureLevels)])
  }

  /** The result of the fallback loop: the last status, the last driver tried, the calls made. */
  datatype DeviceResult = DeviceResult(hr: HResult, driver: DriverType, calls: seq<InitCall>)

  /**
   * The fallback loop from position i of DriverTypes on, after the calls `made` so far.
   * It stops at the first success, or after the last driver whatever its outcome.
   */
  function SearchFrom(createDevice: (DriverType, seq<FeatureLevel>) -> HResult, i: nat, made: seq<InitCall>): DeviceResult
    requires i < |DriverTypes|
    decreases |DriverTypes| - i
  {
    var a := TryDriver(createDevice, DriverTypes[i]);
    if Succeeded(a.hr) || i == |DriverTypes| - 1 then DeviceResult(a.hr, DriverTypes[i], made + a.calls)
    else SearchFrom(createDevice, i + 1, made + a.calls)
  }

  function DeviceSearch(createDevice: (DriverType, seq<FeatureLevel>) -> HResult): DeviceResult
  {
    SearchFrom(createDevice, 0, [])
  }

  /** The calls made by trying the drivers i up to, not including, j, one after another. */
  function AttemptCalls(createDevice: (DriverType, seq<FeatureLevel>) -> HResult, i: nat, j: nat): seq<InitCall>
    requires i <= j <= |DriverTypes|
    decreases j - i
  {
    if i == j then [] else TryDriver(createDevice, DriverTypes[i]).calls + AttemptCalls(createDevice, i + 1, j)
  }

  /** The driver the loop stops at from i on: the first that succeeds, or the last one. */
  function StopIndex(createDevice: (DriverType, seq<FeatureLevel>) -> HResult, i: nat): (k: nat)
    requires i < |DriverTypes|
    ensures i <= k < |DriverTypes|
    ensures Succeeded(TryDriver(createDevice, DriverTypes[k]).hr) || k == |DriverTypes| - 1
    ensures forall m :: i <= m < k ==> Failed(TryDriver(createDevice, DriverTypes[m]).hr)
    decreases |DriverTypes| - i
  {
    if Succeeded(TryDriver(createDevice, DriverTypes[i]).hr) || i == |DriverTypes| - 1 then i
    else StopIndex(createDevice, i + 1)
  }

  /** The search from i reports the driver at `StopIndex`, after trying every driver up to it. */
  lemma {:induction false} SearchFromStopIndex(createDevice: (DriverType, seq<FeatureLevel>) -> HResult,
                                               i: nat, made: seq<InitCall>)
    requires i < |DriverTypes|
    ensures var r := SearchFrom(createDevice, i, made);
      var k := StopIndex(createDevice, i);
      && r.driver == DriverTypes[k]
      && r.hr == TryDriver(createDevice, DriverTypes[k]).hr
      && r.calls == made + AttemptCalls(createDevice, i, k + 1)
    decreases |DriverTypes| - i
  {
    var a := TryDriver(createDevice, DriverTypes[i]);
    if !(Succeeded(a.hr) || i == |DriverTypes| - 1) {
      SearchFromStopIndex(createDevice, i + 1, made + a.calls);
      var k := StopIndex(createDevice, i + 1);
      assert made + a.calls + AttemptCalls(createDevice, i + 1, k + 1) == made + AttemptCalls(createDevice, i, k + 1);
    } else {
      assert AttemptCalls(createDevice, i + 1, i + 1) == [];
    }
  }

  /**
   * The loop stops at the first driver that succeeds; if none does, it reports the last
   * status and leaves the driver at the last one tried. The calls are those made before,
   * followed by the attempts of every driver tried, in order.
   */
  lemma SearchFromStopsAtFirstSuccess(createDevice: (DriverType, seq<FeatureLevel>) -> HResult,
                                      i: nat, made: seq<InitCall>)
    requires i < |DriverTypes|
    ensures var r := SearchFrom(createDevice, i, made);
      && (Succeeded(r.hr) ==>
            exists j :: i <= j < |DriverTypes| && r.driver == DriverTypes[j]
              && r.hr == TryDriver(createDevice, DriverTypes[j]).hr
              && r.calls == made + AttemptCalls(createDevice, i, j + 1)
              && forall m :: i <= m < j ==> Failed(TryDriver(createDevice, DriverTypes[m]).hr))
      && (Failed(r.hr) ==>
            r.driver == DriverReference
            && r.hr == TryDriver(createDevice, DriverReference).hr
            && r.calls == made + AttemptCalls(createDevice, i, |DriverTypes|)
            && forall m :: i <= m < |DriverTypes| ==> Failed(TryDriver(createDevice, DriverTypes[m]).hr))
  {
    SearchFromStopIndex(createDevice, i, made);
  }

  /** Hardware is tried first; a hardware success is used without ever trying WARP or the reference driver. */
  lemma HardwareFirst(createDevice: (DriverType, seq<FeatureLevel>) -> HResult)
    ensures DeviceSearch(createDevice).calls[0] == CreateDevice(DriverHardware, FeatureLevels)
    ensures Succeeded(TryDriver(createDevice, DriverHardware).hr) ==>
              DeviceSearch(createDevice) == DeviceResult(TryDriver(createDevice, DriverHardware).hr, DriverHardware,
                                                         TryDriver(createDevice, DriverHardware).calls)
  {
    var a := TryDriver(createDevice, DriverHardware);
    if Failed(a.hr) {
      SearchFromStopsAtFirstSuccess(createDevice, 1, a.calls);
      var r := SearchFrom(createDevice, 1, a.calls);
      assert r.calls[0] == a.calls[0];
    }
  }

  /**
   * A failed hardware attempt followed by a WARP success: WARP is the driver, and the calls are
   * the hardware attempts then the WARP attempts, with the reference driver never tried.
   */
  lemma WarpAfterHardware(createDevice: (DriverType, seq<FeatureLevel>) -> HResult)
    requires Failed(TryDriver(createDevice, DriverHardware).hr)
    requires Succeeded(TryDriver(createDevice, DriverWarp).hr)
    ensures DeviceSearch(createDevice) ==
              DeviceResult(TryDriver(createDevice, DriverWarp).hr, DriverWarp,
                           TryDriver(createDevice, DriverHardware).calls + TryDriver(createDevice, DriverWarp).calls)
  {
    SearchFromStopsAtFirstSuccess(createDevice, 0, []);
    var r := DeviceSearch(createDevice);
    var j :| 0 <= j < |DriverTypes| && r.driver == DriverTypes[j]
          && r.hr == TryDriver(createDevice, DriverTypes[j]).hr
          && r.calls == AttemptCalls(createDevice, 0, j + 1)
          && forall m :: 0 <= m < j ==> Failed(TryDriver(createDevice, DriverTypes[m]).hr);
    assert j == 1;
    assert AttemptCalls(createDevice, 2, 2) == [];
  }

  /** Progress through a list of fallible calls that stops at the first failure. */
  datatype Progress = Progress(hr: HResult, attempted: nat)

  /**
   * Calls `outcome` on each item in order and returns at the first failure with its status;
   * S_OK when every call succeeds. `attempted` counts the calls made.
   */
  function RunInOrder<T>(outcome: T -> HResult, items: seq<T>): (p: Progress)
    ensures p.attempted <= |items|
    ensures Succeeded(p.hr) <==> forall j :: 0 <= j < |items| ==> Succeeded(outcome(items[j]))
    ensures Succeeded(p.hr) ==> p.hr == S_OK && p.attempted == |items|
    ensures Failed(p.hr) ==> 0 < p.attempted && p.hr == outcome(items[p.attempted - 1])
    ensures forall j :: 0 <= j < p.attempted - 1 ==> Succeeded(outcome(items[j]))
    decreases |items|
  {
    if items == [] then Progress(S_OK, 0)
    else
      var hr := outcome(items[0]);
      if Failed(hr) then Progress(hr, 1)
      else
        var rest := RunInOrder(outcome, items[1..]);
        assert forall j :: 1 <= j < |items| ==> items[j] == items[1..][j - 1];
        Progress(rest.hr, rest.attempted + 1)
  }

  /** When the first n calls succeed and call n fails, the run stops after call n with its status. */
  lemma {:induction false} RunInOrderStopsAt<T>(outcome: T -> HResult, items: seq<T>, n: nat)
    requires n < |items|
    requires forall j :: 0 <= j < n ==> Succeeded(outcome(items[j]))
    requires Failed(outcome(items[n]))
    ensures RunInOrder(outcome, items) == Progress(outcome(items[n]), n + 1)
    decreases n
  {
    if n > 0 {
      RunInOrderStopsAt(outcome, items[1..], n - 1);
    }
  }

  /** When every call succeeds, the run reports S_OK after calling every item. */
  lemma RunInOrderAllSucceed<T>(outcome: T -> HResult, items: seq<T>)
    requires forall j :: 0 <= j < |items| ==> Succeeded(outcome(items[j]))
    ensures RunInOrder(outcome, items) == Progress(S_OK, |items|)
  {
  }

  function StepCalls(steps: seq<InitStep>): (calls: seq<InitCall>)
    ensures |calls| == |steps| && forall i :: 0 <= i < |steps| ==> calls[i] == Step(steps[i])
    decreases |steps|
  {
    if steps == [] then [] else StepCalls(steps[..|steps| - 1]) + [Step(steps[|steps| - 1])]
  }

  /**
   * The outcome of n setup calls where all but the last succeeded: S_OK after all of them,
   * or the status of the failing last one.
   */
  lemma SetupOutcome(step: InitStep -> HResult, n: nat, hr: HResult)
    requires 0 < n <= |InitSteps|
    requires forall j :: 0 <= j < n - 1 ==> Succeeded(step(InitSteps[j]))
    requires Failed(hr) ==> hr == step(InitSteps[n - 1])
    requires Succeeded(hr) ==> hr == S_OK && n == |InitSteps| && Succeeded(step(InitSteps[n - 1]))
    ensures RunInOrder(step, InitSteps) == Progress(hr, n)
  {
    if Failed(hr) {
      RunInOrderStopsAt(step, InitSteps, n - 1);
    } else {
      RunInOrderAllSucceed(step, InitSteps);
    }
  }

  /** The calls made by each prefix of the setup steps, written out. */
  lemma SetupPrefixCalls()
    ensures StepCalls(InitSteps[..1]) == [Step(QueryDxgiDevice)]
    ensures StepCalls(InitSteps[..2]) == [Step(QueryDxgiDevice), Step(CreateSwapChain)]
    ensures StepCalls(InitSteps[..3]) == [Step(QueryDxgiDevice), Step(CreateSwapChain), Step(GetBackBuffer)]
    ensures StepCalls(InitSteps[..4])
            == [Step(QueryDxgiDevice), Step(CreateSwapChain), Step(GetBackBuffer), Step(CreateRenderTargetView)]
    ensures StepCalls(InitSteps[..5])
            == [Step(QueryDxgiDevice), Step(CreateSwapChain), Step(GetBackBuffer), Step(CreateRenderTargetView),
                Step(CreateDepthStencil)]
    ensures StepCalls(InitSteps[..6])
            == [Step(QueryDxgiDevice), Step(CreateSwapChain), Step(GetBackBuffer), Step(CreateRenderTargetView),
                Step(CreateDepthStencil), Step(CreateDepthStencilView)]
  {
  }

  function RenderableInitCalls(keys: seq<Key>): (calls: seq<InitCall>)
    ensures |calls| == |keys| && forall i :: 0 <= i < |keys| ==> calls[i] == InitRenderable(keys[i])
    decreases |keys|
  {
    if keys == [] then [] else RenderableInitCalls(keys[..|keys| - 1]) + [InitRenderable(keys[|keys| - 1])]
  }

  /** Only the shader stored under the main shader key is initialized, once, if present. */
  function MainShaderCalls(vertexShaderOrder: seq<Key>, pixelShaderOrder: seq<Key>, mainShader: Key): seq<InitCall>
  {
    (if mainShader in vertexShaderOrder then [InitVertexShader(mainShader)] else [])
    + (if mainShader in pixelShaderOrder then [InitPixelShader(mainShader)] else [])
  }

  /** The status, the driver left in `m_driverType`, and the calls of one `Initialize`. */
  datatype InitResult = InitResult(hr: HResult, driver: DriverType, calls: seq<InitCall>)

  /**
   * Everything after device creation: the setup steps up to the first failure, then the main
   * shaders and the renderables up to the first failure.
   */
  function AfterDevice(backend: Backend, mainShader: Key, vertexShaderOrder: seq<Key>,
                       pixelShaderOrder: seq<Key>, renderableOrder: seq<Key>): Attempt
  {
    var steps := RunInOrder(backend.step, InitSteps);
    if Failed(steps.hr) then Attempt(steps.hr, StepCalls(InitSteps[..steps.attempted]))
    else
      var inits := RunInOrder(backend.initRenderable, renderableOrder);
      Attempt(inits.hr, StepCalls(InitSteps) + MainShaderCalls(vertexShaderOrder, pixelShaderOrder, mainShader)
                        + RenderableInitCalls(renderableOrder[..inits.attempted]))
  }

  /** `Initialize` as a whole; `mainShader` is the address of the `L"MainShader"` literal it compares with. */
  function InitializeSpec(backend: Backend, mainShader: Key, vertexShaderOrder: seq<Key>,
                          pixelShaderOrder: seq<Key>, renderableOrder: seq<Key>): InitResult
  {
    var dev := DeviceSearch(backend.createDevice);
    if Failed(dev.hr) then InitResult(dev.hr, dev.driver, dev.calls)
    else
      var rest := AfterDevice(backend, mainShader, vertexShaderOrder, pixelShaderOrder, renderableOrder);
      InitResult(rest.hr, dev.driver, dev.calls + rest.calls)
  }

  /** `Initialize` returns S_OK or a failure code, and S_OK exactly when every fallible call succeeded. */
  lemma InitializeStatus(backend: Backend, mainShader: Key, vertexShaderOrder: seq<Key>,
                         pixelShaderOrder: seq<Key>, renderableOrder: seq<Key>)
    ensures var r := InitializeSpec(backend, mainShader, vertexShaderOrder, pixelShaderOrder, renderableOrder);
      && (Succeeded(r.hr) ==> r.hr == S_OK)
      && (r.hr == S_OK <==>
            && Succeeded(DeviceSearch(backend.createDevice).hr)
            && (forall j :: 0 <= j < |InitSteps| ==> Succeeded(backend.step(InitSteps[j])))
            && (forall j :: 0 <= j < |renderableOrder| ==> Succeeded(backend.initRenderable(renderableOrder[j]))))
  {
  }

  /** A failed device search is returned at once: nothing after `D3D11CreateDevice` is called. */
  lemma InitializeStopsWithoutDevice(backend: Backend, mainShader: Key, vertexShaderOrder: seq<Key>,
                                     pixelShaderOrder: seq<Key>, renderableOrder: seq<Key>)
    requires Failed(DeviceSearch(backend.createDevice).hr)
    ensures var r := InitializeSpec(backend, mainShader, vertexShaderOrder, pixelShaderOrder, renderableOrder);
      && r.hr == DeviceSearch(backend.createDevice).hr
      && r.driver == DriverReference
      && forall c :: c in r.calls ==> c.CreateDevice?
  {
    SearchFromStopsAtFirstSuccess(backend.createDevice, 0, []);
    SearchCallsAreDeviceCalls(backend.createDevice, 0, []);
  }

  lemma {:induction false} SearchCallsAreDeviceCalls(createDevice: (DriverType, seq<FeatureLevel>) -> HResult,
                                                     i: nat, made: seq<InitCall>)
    requires i < |DriverTypes|
    requires forall c :: c in made ==> c.CreateDevice?
    ensures forall c :: c in SearchFrom(createDevice, i, made).calls ==> c.CreateDevice?
    decreases |DriverTypes| - i
  {
    var a := TryDriver(createDevice, DriverTypes[i]);
    if !(Succeeded(a.hr) || i == |DriverTypes| - 1) {
      SearchCallsAreDeviceCalls(createDevice, i + 1, made + a.calls);
    }
  }

  /**
   * Renderables are initialized in iteration order; the first failure is returned as it is,
   * and no renderable after it is initialized.
   */
  lemma RenderablesStopAtFirstFailure(backend: Backend, mainShader: Key, vertexShaderOrder: seq<Key>,
                                      pixelShaderOrder: seq<Key>, renderableOrder: seq<Key>, n: nat)
    requires Succeeded(DeviceSearch(backend.createDevice).hr)
    requires forall j :: 0 <= j < |InitSteps| ==> Succeeded(backend.step(InitSteps[j]))
    requires n < |renderableOrder|
    requires forall j :: 0 <= j < n ==> Succeeded(backend.initRenderable(renderableOrder[j]))
    requires Failed(backend.initRenderable(renderableOrder[n]))
    ensures var r := InitializeSpec(backend, mainShader, vertexShaderOrder, pixelShaderOrder, renderableOrder);
      && r.hr == backend.initRenderable(renderableOrder[n])
      && r.calls == DeviceSearch(backend.createDevice).calls + StepCalls(InitSteps)
                    + MainShaderCalls(vertexShaderOrder, pixelShaderOrder, mainShader)
                    + RenderableInitCalls(renderableOrder[..n + 1])
  {
    RunInOrderStopsAt(backend.initRenderable, renderableOrder, n);
    assert InitSteps[..|InitSteps|] == InitSteps;
  }
}
