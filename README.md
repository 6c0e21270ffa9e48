# D3D11 demo core: renderer tables, input state, game loop and cube updates

This project models the parts of a small Direct3D 11 demo whose logic does not depend on the GPU.

- **`library::Renderer`** keeps three tables keyed by `PCWSTR`: renderables, vertex shaders and pixel shaders. It adds entries unless the key is already there, and rebinds a renderable's shaders. Each frame it updates every renderable and the camera, then records the draw calls. At start-up it creates the device with a driver fallback, then runs the swap-chain and view setup with early returns, initializes the "MainShader" shaders and initializes every renderable.
- **`library::MainWindow`** turns key-down and key-up messages into six direction flags. A raw mouse event overwrites the stored mouse movement, and the game loop resets it.
- **`library::Game`** initializes the window, then the renderer, returning at the first failure. It then runs the message loop: each iteration either dispatches one message or runs one frame. A frame is timed with the performance counter in integer microseconds.
- **`InstancedRenderable`** holds the instance data and creates the instance buffer.
- **`CustomCube`, `OrbitCube` and `TexCube`** update an angle or a time accumulator and recompute a world matrix from it.

## Modelling choices

- A table key is `Key(address)`. Keys are compared as pointers, so two equal strings at different addresses are different keys.
- `std::unordered_map` fixes no iteration order, so every operation that iterates a table takes the order as an input: `order: seq<Key>` with `Enumerates(order, table.Keys)`.
- Every D3D, DXGI and Win32 call is either an abstract outcome passed in as a parameter or an entry in a returned call trace.
  - In `Initialize`, the `Backend` datatype answers `D3D11CreateDevice`, each setup step and each renderable's `Initialize`.
  - `Update` and `Render` return the calls they make as `seq<Command>`.
- HRESULT is a signed 32-bit integer. E_FAIL and E_INVALIDARG are their bit patterns 0x80004005 and 0x80070057, read as signed.
- A matrix is the ordered list of its factors, for example `[Scaling(0.5, 0.5, 0.5), RotationY(..), ...]`. `XMMatrixIdentity()` is the empty list and `*` is concatenation. `XMScalarSin` stays the uninterpreted term `Sin(t)`, and FLOAT is `real`.
- The renderer's classes mutate their fields. The specifications they are proved against are functions over values: `Register`, `BindVertexShader`, `UpdateTrace`, `RenderTrace`, `DeviceSearch`, `InitializeSpec` and `RunSpec`.
- The message loop runs over a finite list of `PeekMessage` outcomes (`Peek`). Each outcome is either a message, or an empty queue together with the counter and frequency readings that frame takes.

## Model

| member | source | states |
|---|---|---|
| Common.Wrap32 | Source/Library/Game/Game.cpp:96 | The `static_cast<INT>` of the exit code: congruent to the input modulo 2^32, and the identity on values that fit in 32 bits. |
| Common.Wrap64 | Source/Library/Game/Game.cpp:81-82 | 64-bit counter arithmetic: congruent to the input modulo 2^64, and the identity on values that fit in 64 bits. |
| Common.TruncDiv | Source/Library/Game/Game.cpp:83 | C++ `/` by a positive divisor: `q * b` lies within one divisor of `a` on the side of zero, the quotient has the dividend's sign, and it is no larger than the dividend in magnitude. |
| Registry.Register | Source/Library/Renderer/Renderer.cpp:270-283 | A present key gives E_FAIL and the same table. A fresh key gives S_OK and the table plus exactly that pair. Either way every old entry is kept. |
| Registry.BindVertexShader | Source/Library/Renderer/Renderer.cpp:415-432 | When both names are present, the named renderable now holds that vertex shader, and its pixel shader and index count are kept. Otherwise nothing changes. No other renderable changes, and the key set is the same. |
| Registry.BindPixelShader | Source/Library/Renderer/Renderer.cpp:445-462 | As BindVertexShader, for the pixel shader. |
| Registry.RegisterGrows | Source/Library/Renderer/Renderer.cpp:280 | Inserting a fresh key grows the table by exactly one entry. |
| Registry.BindVertexShaderIdempotent | Source/Library/Renderer/Renderer.cpp:421-429 | Binding the same shader twice is the same as binding it once. |
| Renderers.Search | Source/Library/Renderer/Renderer.cpp:274-278 | The linear scan over the iteration order finds the name exactly when it is in the order. |
| Renderers.Renderer.constructor | Source/Library/Renderer/Renderer.cpp:14-32 | The driver type starts as the null driver and all three tables start empty. |
| Renderers.Renderer.AddRenderable | Source/Library/Renderer/Renderer.cpp:270-283 | The status and the new renderable table are Register's. The shader tables and the driver type are unchanged. |
| Renderers.Renderer.AddVertexShader | Source/Library/Renderer/Renderer.cpp:296-309 | The status and the new vertex-shader table are Register's. The other tables and the driver type are unchanged. |
| Renderers.Renderer.AddPixelShader | Source/Library/Renderer/Renderer.cpp:322-335 | The status and the new pixel-shader table are Register's. The other tables and the driver type are unchanged. |
| Renderers.Renderer.SetVertexShaderOfRenderable | Source/Library/Renderer/Renderer.cpp:415-432 | Always returns S_OK. The renderable table becomes BindVertexShader of the old one. Nothing else changes. |
| Renderers.Renderer.SetPixelShaderOfRenderable | Source/Library/Renderer/Renderer.cpp:445-462 | Always returns S_OK. The renderable table becomes BindPixelShader of the old one. Nothing else changes. |
| Renderers.Renderer.Update | Source/Library/Renderer/Renderer.cpp:357-366 | The calls made are UpdateTrace: one update per renderable in iteration order, then the camera's. |
| Renderers.Renderer.Render | Source/Library/Renderer/Renderer.cpp:373-402 | The calls made are RenderTrace: two clears, one draw block per renderable in iteration order, then one present. |
| FrameCommands.RenderableUpdatesAt | Source/Library/Renderer/Renderer.cpp:361-363 | The i-th update is for the i-th key of the order, and there is one update per key. |
| FrameCommands.RenderableUpdatesCount | Source/Library/Renderer/Renderer.cpp:361-363 | Over a duplicate-free order, each key is updated once if it is in the order and never otherwise, and the camera is not updated in the loop. |
| FrameCommands.UpdateVisitsEachOnce | Source/Library/Renderer/Renderer.cpp:357-366 | Every renderable of the table is updated with the frame's delta exactly once, and no other key is. The camera's update comes last, exactly once. |
| FrameCommands.EnumeratesSize | Source/Library/Renderer/Renderer.cpp:361 | An iteration order of a table has exactly as many entries as the table has keys. |
| FrameCommands.DrawsAt | Source/Library/Renderer/Renderer.cpp:378-399 | The draw blocks are eight calls each, back to back, and block i is the i-th key's. |
| FrameCommands.DrawsNeverPresent | Source/Library/Renderer/Renderer.cpp:378-399 | No draw block presents. |
| FrameCommands.RenderPresentsOnce | Source/Library/Renderer/Renderer.cpp:373-402 | The present comes last and occurs exactly once. |
| FrameCommands.RenderBlockAt | Source/Library/Renderer/Renderer.cpp:378-399 | Block i of the trace, right after the two clears, is the i-th renderable's. |
| FrameCommands.RenderShape | Source/Library/Renderer/Renderer.cpp:373-402 | Both clears come first. Each renderable in order then gets its block: vertex and index buffers, input layout, the constant-buffer upload, its vertex shader, the constant buffer at VS slot 0, its pixel shader, and one `DrawIndexed(numIndices, 0, 0)`. `Present(0, 0)` comes last, exactly once, and the trace length is 3 + 8 · (number of renderables). |
| DeviceInit.TryDriver | Source/Library/Renderer/Renderer.cpp:82-89 | One driver is asked for all four feature levels. Only on E_INVALIDARG is a second call made, for 11_0, 10_1 and 10_0, and its status is the result. |
| DeviceInit.StopIndex | Source/Library/Renderer/Renderer.cpp:79-94 | The driver where the loop stops is the first whose attempt succeeded, or the last one; every driver before it failed. |
| DeviceInit.SearchFromStopIndex | Source/Library/Renderer/Renderer.cpp:79-94 | The search reports the driver at StopIndex and its status. Its calls are the earlier calls, then the attempts of every driver up to and including that one, in order. |
| DeviceInit.SearchFromStopsAtFirstSuccess | Source/Library/Renderer/Renderer.cpp:79-94 | On success, the chosen driver is the first in the order whose attempt succeeded, and all earlier attempts failed. On failure, every attempt failed, the status is the reference driver's, and the driver left behind is the reference driver. Either way the calls are the earlier calls followed by the attempts of exactly the drivers tried (AttemptCalls), in order. |
| DeviceInit.WarpAfterHardware | Source/Library/Renderer/Renderer.cpp:79-94 | When hardware fails and WARP succeeds, WARP is the driver with its status, and the calls are the hardware attempts then the WARP attempts; the reference driver is never tried. |
| DeviceInit.HardwareFirst | Source/Library/Renderer/Renderer.cpp:62-94 | The first call is for hardware with all feature levels. A hardware success is the result, and WARP and the reference driver are never tried. |
| DeviceInit.SearchCallsAreDeviceCalls | Source/Library/Renderer/Renderer.cpp:79-94 | The fallback loop makes only `D3D11CreateDevice` calls. |
| DeviceInit.RunInOrder | Source/Library/Renderer/Renderer.cpp:248-256 | A sequence of fallible calls stops at the first failure and returns its status. It returns S_OK after all calls exactly when every call succeeds, and every call before the last one made succeeded. |
| DeviceInit.RunInOrderStopsAt | Source/Library/Renderer/Renderer.cpp:248-254 | When calls 0..n-1 succeed and call n fails, exactly n + 1 calls are made and call n's status is returned. |
| DeviceInit.RunInOrderAllSucceed | Source/Library/Renderer/Renderer.cpp:248-256 | When every call succeeds, all are made and S_OK is returned. |
| DeviceInit.SetupOutcome | Source/Library/Renderer/Renderer.cpp:100-211 | Six setup steps where all but the last one made succeeded: the status is that of the step that failed, or S_OK after all six. |
| DeviceInit.InitializeStatus | Source/Library/Renderer/Renderer.cpp:47-257 | `Initialize` returns S_OK or a failure code. It returns S_OK exactly when the device search, all six setup steps and every renderable's `Initialize` succeed. Shader results do not count. |
| DeviceInit.InitializeStopsWithoutDevice | Source/Library/Renderer/Renderer.cpp:96-98 | When no driver works, the status is the last failure, `GetDriverType` reports the reference driver, and only device-creation calls were made. |
| DeviceInit.RenderablesStopAtFirstFailure | Source/Library/Renderer/Renderer.cpp:248-256 | With a device and every setup step succeeding, the first renderable that fails decides the status. The calls are the device calls, the six steps, the main-shader calls, then the renderables up to and including the failing one and none after it. |
| Renderers.Renderer.TryFeatureLevels | Source/Library/Renderer/Renderer.cpp:82-89 | The two-call attempt for one driver is TryDriver's. |
| Renderers.Renderer.CreateDeviceWithFallback | Source/Library/Renderer/Renderer.cpp:79-98 | The status, the calls and the driver type left in the field are DeviceSearch's. The tables are unchanged. |
| Renderers.Renderer.RunSetupSteps | Source/Library/Renderer/Renderer.cpp:100-211 | The steps are called in source order. All but the last one called succeeded. A failure returns that step's status at once, and S_OK means all six ran. |
| Renderers.Renderer.InitializeMainShaders | Source/Library/Renderer/Renderer.cpp:232-244 | Only the vertex shader and the pixel shader stored under the "MainShader" key are initialized, once each and only if present. Their results are ignored. |
| Renderers.Renderer.InitializeRenderables | Source/Library/Renderer/Renderer.cpp:248-256 | Renderables are initialized in iteration order up to the first failure, and that failure's status is returned. Otherwise S_OK is returned after all of them. |
| Renderers.Renderer.InitializeAfterDevice | Source/Library/Renderer/Renderer.cpp:100-256 | The status and the calls after device creation are AfterDevice's: the setup steps with their early return, then the main shaders and the renderables. |
| Renderers.Renderer.GetDriverType | Source/Library/Renderer/Renderer.cpp:470-472 | Reports the stored driver type, the one Initialize's contract describes. |
| Renderers.Renderer.Initialize | Source/Library/Renderer/Renderer.cpp:47-257 | The status, the calls and the driver type left behind are InitializeSpec's. The three tables are unchanged. |
| Window.WithFlag | Source/Library/Window/MainWindow.cpp:124-171 | Exactly one flag takes the new value, and the other five are unchanged. |
| Window.KeyBinding | Source/Library/Window/MainWindow.cpp:125-147 | Space is up, Shift is down, W is front, A is left, S is back and D is right, each in both directions of the equivalence. Every other key is unbound. |
| Window.KeyEvent | Source/Library/Window/MainWindow.cpp:124-171 | A bound key sets its own flag to pressed or released and leaves the other five. An unbound key changes nothing. |
| Window.MouseAfterInput | Source/Library/Window/MainWindow.cpp:117-121 | A mouse event stores its own last X and Y. Input from other devices leaves the movement as it was. |
| Window.MessageResult | Source/Library/Window/MainWindow.cpp:87-176 | E_FAIL when raw-input registration fails. 0 for WM_INPUT and for every key message, bound key or not. TRUE for WM_CLOSE and WM_DESTROY. The default window procedure's answer for any other message. |
| Window.MainWindow.constructor | Source/Library/Window/MainWindow.cpp:185-197 | The getters then report exactly the given initial flags and movement. |
| Window.MainWindow.GetDirections | Source/Library/Window/MainWindow.cpp:185-187 | Reports the stored direction flags. |
| Window.MainWindow.GetMouseRelativeMovement | Source/Library/Window/MainWindow.cpp:195-197 | Reports the stored mouse movement. |
| Window.MainWindow.HandleMessage | Source/Library/Window/MainWindow.cpp:79-177 | The result is MessageResult's. When registration succeeds, the flags become DirectionsAfter the message, and for WM_INPUT the movement becomes MouseAfterInput. When registration fails, nothing changes. |
| Window.MainWindow.ResetMouseMovement | Source/Library/Window/MainWindow.cpp:203-206 | The movement becomes (0, 0) and the flags are unchanged. |
| Window.WithFlagTwice | Source/Library/Window/MainWindow.cpp:128 | Setting one flag twice keeps only the second value. |
| Window.KeyDownIdempotent | Source/Library/Window/MainWindow.cpp:128 | A repeated key-down gives the same flags as a single one. |
| Window.KeyDownThenUp | Source/Library/Window/MainWindow.cpp:152 | Key-down then key-up of a key gives the same flags as the key-up alone, and that key's flag is cleared. |
| Window.WithFlagCommutes | Source/Library/Window/MainWindow.cpp:124-171 | Setting two different flags gives the same result in either order. |
| Window.DistinctKeysCommute | Source/Library/Window/MainWindow.cpp:124-171 | Events of keys with different bindings commute: each key owns its own flag. |
| Window.MouseOverwrites | Source/Library/Window/MainWindow.cpp:117-121 | After a mouse event the movement no longer depends on the previous movement. |
| Games.ElapsedMicroseconds | Source/Library/Game/Game.cpp:80-83 | Without overflow, the result is the tick difference times one million, divided by the frequency and truncated toward zero: for a non-negative difference `0 <= r · f <= ticks · 10^6 < r · f + f`, for a negative one `ticks · 10^6 <= r · f <= 0` and `r · f < ticks · 10^6 + f`. |
| Games.Delivered | Source/Library/Game/Game.cpp:75 | A message delivered to the window changes its flags and mouse as HandleMessage does: DirectionsAfter when raw input is registered, MouseAfterInput for WM_INPUT, nothing otherwise. The timing readings are kept. |
| Games.Iterate | Source/Library/Game/Game.cpp:73-93 | A message is dispatched and becomes `msg`, and no frame runs. A message delivered to the window updates the flags and mouse as Delivered says; one without a window changes nothing else. Otherwise exactly one frame runs: HandleInput with the window's current flags and mouse and the measured delta, then ResetMouseMovement, then Update with the same delta, then Render. The starting time and frequency become the fresh readings, the flags are kept, and the mouse is zero afterwards. |
| Games.KeyDownReachesFrame | Source/Library/Game/Game.cpp:73-90 | A delivered key-down of a bound key, followed by an empty queue, gives a frame whose input has that key's flag set. |
| Games.FirstQuit | Source/Library/Game/Game.cpp:72 | Finds the position of the first WM_QUIT message. No WM_QUIT message comes before it, or anywhere if there is none. |
| Games.RunFromExitCode | Source/Library/Game/Game.cpp:72-96 | The loop returns at the first WM_QUIT message with its `wParam` cut to 32 bits, and never returns otherwise. |
| Games.RunExitCode | Source/Library/Game/Game.cpp:72-96 | Run returns exactly when some peeked message is WM_QUIT. Its value is the first such message's `wParam` cut to an `INT`. |
| Games.RunFromFramed | Source/Library/Game/Game.cpp:72-94 | The loop trace extends a framed prefix by whole iterations only. |
| Games.RunIsFramed | Source/Library/Game/Game.cpp:72-94 | The trace of Run is a succession of iterations, each a single dispatch or one whole frame of four calls, in order, with one delta shared by input and update. |
| Games.MouseClearedByFrame | Source/Library/Game/Game.cpp:89-90 | A frame hands the camera the current movement and leaves it zero, so each movement is consumed once. |
| Games.GameInitializeStatus | Source/Library/Game/Game.cpp:33-53 | A window failure is returned with no renderer call and the driver type untouched. Otherwise the renderer's status is returned. The result is S_OK exactly when the window, the device, every setup step and every renderable succeed. |
| Games.Game.constructor | Source/Library/Game/Game.cpp:13-18 | A fresh window and a fresh empty renderer. |
| Games.Game.Initialize | Source/Library/Game/Game.cpp:33-53 | The status, calls and driver type are GameInitialize's: the window first, returning its failure at once, then the renderer. The renderer's tables are unchanged. |
| Games.Game.RunFrame | Source/Library/Game/Game.cpp:89-92 | The frame's four calls are FrameCalls of the window's state before the frame. Afterwards the mouse is zero and the flags are unchanged. |
| Games.Game.Run | Source/Library/Game/Game.cpp:62-97 | The exit code, the loop trace and the window's final flags and mouse are RunSpec's, from the zeroed `MSG`, the first counter readings and the window's state before the loop. Each delivered message goes to the window's HandleMessage. |
| InstancedRenderables.InstanceBufferRequest | Source/Library/Renderer/InstancedRenderable.cpp:80-95 | The request is 36 bytes, 12 per XMFLOAT3 for three unit axes, with default usage, vertex-buffer binding and no CPU access. It does not depend on the instance data. |
| InstancedRenderables.CreateResult | Source/Library/Renderer/InstancedRenderable.cpp:99-103 | A failed `CreateBuffer` gives E_FAIL, and a success code passes through unchanged. |
| InstancedRenderables.InstancedRenderable.WithColor | Source/Library/Renderer/InstancedRenderable.cpp:11-17 | Keeps the colour, with no instance data and no buffer. |
| InstancedRenderables.InstancedRenderable.WithData | Source/Library/Renderer/InstancedRenderable.cpp:28-34 | Keeps the colour and exactly the given instance data, with no buffer. |
| InstancedRenderables.InstancedRenderable.SetInstanceData | Source/Library/Renderer/InstancedRenderable.cpp:43-45 | The data is replaced entirely. The colour and the buffer are kept. |
| InstancedRenderables.InstancedRenderable.GetNumInstances | Source/Library/Renderer/InstancedRenderable.cpp:63-65 | The count fits in a `UINT`, and it equals the number of elements whenever that fits. |
| InstancedRenderables.InstancedRenderable.GetInstanceBuffer | Source/Library/Renderer/InstancedRenderable.cpp:53-55 | Reports the stored buffer handle. |
| InstancedRenderables.InstancedRenderable.InitializeInstance | Source/Library/Renderer/InstancedRenderable.cpp:76-104 | Makes the one fixed 36-byte request and stores whatever buffer the device returns. The status is CreateResult of the device's status. The data and the colour are kept. |
| InstancedRenderables.InstanceCounts | Source/Library/Renderer/InstancedRenderable.cpp:11-65 | The colour-only constructor gives 0 instances, the data constructor gives the data's length, and SetInstanceData gives the new data's length. |
| Transforms.AdvanceAngle | Source/Game/Cube/CustomCube.cpp:5-9 | Adds the delta and subtracts 360 exactly when the sum reached 360. The result is 360 or more exactly when the sum reached 720. The range [0, 360) is kept for deltas in [0, 360). |
| Transforms.SumAppend | Source/Game/Cube/TexCube.cpp:10 | Adding one more delta adds it to the running total. |
| Transforms.AngleAfterIsSumLessWraps | Source/Game/Cube/CustomCube.cpp:5-9 | After any sequence of updates, the angle is the start plus all deltas, less 360 per wrap. |
| Transforms.AngleStaysInRange | Source/Game/Cube/OrbitCube.cpp:5-9 | From [0, 360), with every delta in [0, 360), the angle stays in [0, 360) forever. |
| Transforms.LargeDeltaEscapesRange | Source/Game/Cube/CustomCube.cpp:7-9 | A single delta of 720 or more leaves the angle at 360 or above, because there is one subtraction and no modulo. |
| CustomCubes.CustomCube.constructor | Source/Game/Cube/CustomCube.h:19 | The angle starts at 0. |
| CustomCubes.CustomCube.Update | Source/Game/Cube/CustomCube.cpp:3-22 | The angle advances by AdvanceAngle. The world becomes Scale(0.5) · RotY(-angle/2) · Translate(0, 3, 0) · RotX(3 · angle), a function of the new angle only. |
| CustomCubes.Deterministic | Source/Game/Cube/CustomCube.cpp:21 | Two fresh cubes fed the same deltas reach the angle AngleAfter(0, deltas) and the same world matrix. |
| OrbitCubes.OrbitCube.constructor | Source/Game/Cube/OrbitCube.h:19 | The angle starts at 0. |
| OrbitCubes.OrbitCube.Update | Source/Game/Cube/OrbitCube.cpp:3-22 | The angle advances by AdvanceAngle. The world becomes Scale(0.3) · RotZ(-angle) · Translate(-4, 0, 0) · RotY(-2 · angle), a function of the new angle only. |
| TexCubes.TotalTime.constructor | Source/Game/Cube/TexCube.cpp:9 | The process-wide total starts at 0. |
| TexCubes.TexCube.constructor | Source/Game/Cube/TexCube.cpp:3-5 | The cube refers to the shared total. |
| TexCubes.TexCube.Update | Source/Game/Cube/TexCube.cpp:7-13 | The shared total grows by exactly the delta, with no wrap. The world becomes Translate(4, sin t, 0) · RotY(t) for the new total t. |
| TexCubes.SharedAccumulation | Source/Game/Cube/TexCube.cpp:9-12 | Calls on two cubes feed one total, and each cube's world reflects the total at its own call. |
| TexCubes.AccumulateAcross | Source/Game/Cube/TexCube.cpp:9-10 | After any interleaving of calls on two cubes, the total is the sum of all deltas. |

## Left out

- Direct3D and DXGI internals are not modelled: devices, the swap chain, views, textures, the viewport, `CreateBuffer` and `UpdateSubresource`. Each appears only as an HRESULT outcome or a trace entry.
- The swap-chain creation (Renderer.cpp:117-165) is one setup step with one outcome. Its two branches, by factory version, are not told apart.
- The GPU state set without a status is not modelled, and neither is the projection matrix: `OMSetRenderTargets`, `RSSetViewports`, `IASetPrimitiveTopology`, `MakeWindowAssociation` and the `GetClientRect` size.
- A failed `GetAdapter` at Renderer.cpp:107 leaves the factory null while `hr` reports success. The model does not follow what happens then: the query step's outcome stands for the whole block at lines 100-115.
- Floating-point numerics are not modelled. FLOAT is `real`, the `static_cast<FLOAT>` of the microseconds and the single-precision division are exact real division (DeltaSeconds), and matrix products and transposes stay symbolic.
- The camera is opaque. `Renderer::HandleInput` (Renderer.cpp:346-349) appears only as the `HandleInput` entry of a frame's trace, and the camera's own update is the `UpdateCamera` entry.
- The renderables and shaders live in `shared_ptr`s. The model stores each table entry as a value, so binding a shader to one key cannot affect an object shared with another key, and aliasing is not captured.
- Win32 plumbing is left out:
  - window creation;
  - `RegisterRawInputDevices`, which is the `rawInputRegistered` input;
  - `GetRawInputData`, which is the `raw` input;
  - `DefWindowProc`, which is the `defaultResult` input;
  - the WM_CLOSE message box with the menu and window destruction, and WM_DESTROY's `PostQuitMessage`, both of which only return TRUE in the model;
  - `TranslateMessage`, which is not modelled (it adds WM_CHAR messages the window ignores);
  - the base window's window procedure, which `DispatchMessage` calls and which forwards to `HandleMessage`. It is not part of this model. A peeked message carries an optional `Delivery`: present when it reaches the main window, with the registration, raw-input and default outcomes that call meets.
- The performance counter and frequency are inputs. `PeekMessage` outcomes are a finite list, and when it runs out before WM_QUIT the model returns no exit code; the real loop would keep waiting.
- Games.Game.Run: when the queue is empty the model keeps `msg` as it was. It relies on `PeekMessage` leaving the `MSG` untouched when it finds nothing.
- InstancedRenderables.InstancedRenderable.GetInstanceBuffer: the source hands out a mutable reference to the buffer; the model returns the value only.
- TexCubes.TexCube: the source's total time is one function-local static shared by every TexCube in the process. The model passes each cube a `TotalTime` object, and nothing forces all cubes to share one; only SharedAccumulation's requires and AccumulateAcross's construction make them share.
- Window.MainWindow.constructor: the initial flags and movement are parameters, because the header that initializes them is not part of this model.
- CustomCubes.CustomCube.constructor: the world matrix is taken to start as the identity, because the base class `BaseCube` is not part of this model. The same holds for OrbitCube and TexCube.
- `CenterCube` has no update body in the repository's shown files and is not modelled.
- The texture path of TexCube is kept as a string and never loaded.
