/**
 * `library::Game` (Source/Library/Game/Game.cpp): initialization order with its early
 * return, and the message loop: each iteration either dispatches one message or runs one
 * frame, timed with the performance counter in integer microseconds.
 */
module Games {
  import opened Common
  import opened Registry
  import opened FrameCommands
  import opened DeviceInit
  import opened Window
  import opened Renderers

  /** A queued window message: its code and its `wParam`. */
  datatype Msg = Msg(message: nat, wParam: nat)

  /**
   * What the window procedure meets when `DispatchMessage` hands it a message: the outcome of
   * `RegisterRawInputDevices`, what `GetRawInputData` reads, and what `DefWindowProc` answers.
   */
  datatype Delivery = Delivery(rawInputRegistered: bool, raw: RawInput, defaultResult: int)

  /**
   * What one iteration finds: a message `PeekMessage` removed from the queue, or an empty
   * queue together with the readings the frame takes: the counter at the end of the frame,
   * then the frequency and the counter read again for the next frame. A message addressed to
   * the main window reaches `HandleMessage` with its `Delivery`; a message without a window
   * (such as WM_QUIT, posted to the thread) has none and changes nothing.
   */
  datatype Peek =
    | Message(msg: Msg, delivery: Option<Delivery>)
    | NoMessage(endingTime: int64, nextFrequency: int64, nextStartingTime: int64)

  /** One call the loop makes on the OS, the window or the renderer. */
  datatype LoopCall =
    | Dispatch(msg: Msg)
    | HandleInput(directions: Directions, mouse: MouseRelativeMovement, deltaTime: real)
    | ResetMouse
    | Update(updates: seq<Command>)
    | Render(commands: seq<Command>)

  /**
   * The 64-bit counter arithmetic of a frame: the tick difference, times one million, divided
   * by the frequency with the quotient truncated toward zero. Both the subtraction and the
   * multiplication wrap around at 64 bits.
   */
  function ElapsedMicroseconds(startingTime: int64, endingTime: int64, frequency: int64): (r: int64)
    requires frequency > 0
    ensures var ticks := endingTime as int - startingTime as int;
      0 <= ticks && ticks * 1000000 < 0x8000_0000_0000_0000 ==>
        0 <= r as int * frequency as int <= ticks * 1000000 < r as int * frequency as int + frequency as int
    ensures var ticks := endingTime as int - startingTime as int;
      ticks < 0 && -0x8000_0000_0000_0000 <= ticks * 1000000 ==>
        ticks * 1000000 <= r as int * frequency as int <= 0 && r as int * frequency as int < ticks * 1000000 + frequency as int
  {
    var ticks := Wrap64(endingTime as int - startingTime as int);
    var scaled := Wrap64(ticks as int * 1000000);
    TruncDiv(scaled as int, frequency as int) as int64
  }

  /** The frame's `deltaTime` in seconds (computed in single precision by the source). */
  function DeltaSeconds(elapsedMicroseconds: int64): real
  {
    elapsedMicroseconds as real / 1000000.0
  }

  /** The calls of one frame, in source order, all with the same `deltaTime`. */
  function FrameCalls(directions: Directions, mouse: MouseRelativeMovement, deltaTime: real,
                      order: seq<Key>, renderables: map<Key, Renderable>): seq<LoopCall>
    requires forall i :: 0 <= i < |order| ==> order[i] in renderables
  {
    [HandleInput(directions, mouse, deltaTime), ResetMouse,
     Update(UpdateTrace(order, deltaTime)), Render(RenderTrace(order, renderables))]
  }

  /** The loop's variables between iterations, and the window's input state. */
  datatype LoopState = LoopState(msg: Msg, frequency: int64, startingTime: int64,
                                 directions: Directions, mouse: MouseRelativeMovement)

  /** The window's input state after `HandleMessage` has handled a delivered message. */
  function Delivered(s: LoopState, m: Msg, dl: Delivery): (r: LoopState)
    ensures r.msg == m && r.frequency == s.frequency && r.startingTime == s.startingTime
    ensures r.directions == if dl.rawInputRegistered then DirectionsAfter(s.directions, m.message, m.wParam) else s.directions
    ensures r.mouse == if dl.rawInputRegistered && m.message == WM_INPUT then MouseAfterInput(s.mouse, dl.raw) else s.mouse
  {
    s.(msg := m,
       directions := if dl.rawInputRegistered then DirectionsAfter(s.directions, m.message, m.wParam) else s.directions,
       mouse := if dl.rawInputRegistered && m.message == WM_INPUT then MouseAfterInput(s.mouse, dl.raw) else s.mouse)
  }

  datatype Iteration = Iteration(state: LoopState, calls: seq<LoopCall>)

  /** Every frequency the loop will divide by is positive. */
  predicate PositiveFrequencies(peeks: seq<Peek>)
  {
    forall i :: 0 <= i < |peeks| && peeks[i].NoMessage? ==> peeks[i].nextFrequency > 0
  }

  /**
   * One iteration of the loop body: a message is dispatched, becomes `msg` and, when it is
   * delivered to the window, updates the window's input state as `HandleMessage` does, and no
   * frame runs. Otherwise one frame runs with the window's current input state, measured from
   * the last reset of the starting time, and the starting time and frequency are read afresh.
   */
  function Iterate(s: LoopState, peek: Peek, order: seq<Key>, renderables: map<Key, Renderable>): (r: Iteration)
    requires s.frequency > 0
    requires forall i :: 0 <= i < |order| ==> order[i] in renderables
    ensures peek.Message? ==> r.calls == [Dispatch(peek.msg)]
    ensures peek.Message? && peek.delivery.None? ==> r.state == s.(msg := peek.msg)
    ensures peek.Message? && peek.delivery.Some? ==> r.state == Delivered(s, peek.msg, peek.delivery.value)
    ensures peek.NoMessage? ==>
              && r.state.msg == s.msg
              && r.state.startingTime == peek.nextStartingTime
              && r.state.frequency == peek.nextFrequency
              && r.state.directions == s.directions
              && r.state.mouse == MouseRelativeMovement(0, 0)
              && |r.calls| == 4
              && r.calls[0] == HandleInput(s.directions, s.mouse,
                                           DeltaSeconds(ElapsedMicroseconds(s.startingTime, peek.endingTime, s.frequency)))
              && r.calls[1] == ResetMouse
              && r.calls[2] == Update(UpdateTrace(order, r.calls[0].deltaTime))
              && r.calls[3] == Render(RenderTrace(order, renderables))
  {
    match peek
    case Message(m, None) => Iteration(s.(msg := m), [Dispatch(m)])
    case Message(m, Some(dl)) => Iteration(Delivered(s, m, dl), [Dispatch(m)])
    case NoMessage(endingTime, nextFrequency, nextStartingTime) =>
      var deltaTime := DeltaSeconds(ElapsedMicroseconds(s.startingTime, endingTime, s.frequency));
      Iteration(LoopState(s.msg, nextFrequency, nextStartingTime, s.directions, MouseRelativeMovement(0, 0)),
                FrameCalls(s.directions, s.mouse, deltaTime, order, renderables))
  }

  /**
   * A key pressed between two frames reaches the second one: a delivered WM_KEYDOWN of a bound
   * key, then an empty queue, gives a frame whose input has that key's flag set.
   */
  lemma KeyDownReachesFrame(s: LoopState, virtualKey: nat, dl: Delivery, next: Peek,
                            order: seq<Key>, renderables: map<Key, Renderable>)
    requires s.frequency > 0 && dl.rawInputRegistered && next.NoMessage?
    requires KeyBinding(virtualKey).Some?
    requires forall i :: 0 <= i < |order| ==> order[i] in renderables
    ensures var first := Iterate(s, Message(Msg(WM_KEYDOWN, virtualKey), Some(dl)), order, renderables);
      var frame := Iterate(first.state, next, order, renderables);
      Flag(frame.calls[0].directions, KeyBinding(virtualKey).value)
  {
  }

  /**
   * How the loop ends: the exit code when WM_QUIT arrived (none if the peeks ran out first),
   * the calls, and the window's input state.
   */
  datatype RunResult = RunResult(exitCode: Option<int32>, calls: seq<LoopCall>,
                                 directions: Directions, mouse: MouseRelativeMovement)

  /** The loop from peek i on, in state s, after the calls `made`. */
  function RunFrom(s: LoopState, peeks: seq<Peek>, i: nat, made: seq<LoopCall>,
                   order: seq<Key>, renderables: map<Key, Renderable>): RunResult
    requires i <= |peeks| && s.frequency > 0 && PositiveFrequencies(peeks)
    requires forall j :: 0 <= j < |order| ==> order[j] in renderables
    decreases |peeks| - i
  {
    if s.msg.message == WM_QUIT then RunResult(Some(Wrap32(s.msg.wParam)), made, s.directions, s.mouse)
    else if i == |peeks| then RunResult(None, made, s.directions, s.mouse)
    else
      var it := Iterate(s, peeks[i], order, renderables);
      RunFrom(it.state, peeks, i + 1, made + it.calls, order, renderables)
  }

  /** The whole loop, from the zeroed `MSG` and the first counter readings. */
  function RunSpec(frequency: int64, startingTime: int64, peeks: seq<Peek>, directions: Directions,
                   mouse: MouseRelativeMovement, order: seq<Key>, renderables: map<Key, Renderable>): RunResult
    requires frequency > 0 && PositiveFrequencies(peeks)
    requires forall j :: 0 <= j < |order| ==> order[j] in renderables
  {
    RunFrom(LoopState(Msg(0, 0), frequency, startingTime, directions, mouse), peeks, 0, [], order, renderables)
  }

  /** The position of the first WM_QUIT message among the peeks from i on. */
  function FirstQuit(peeks: seq<Peek>, i: nat): (r: Option<nat>)
    requires i <= |peeks|
    ensures r.Some? ==> i <= r.value < |peeks| && peeks[r.value].Message? && peeks[r.value].msg.message == WM_QUIT
    ensures forall j :: i <= j < |peeks| && (r.None? || j < r.value) ==>
              !(peeks[j].Message? && peeks[j].msg.message == WM_QUIT)
    decreases |peeks| - i
  {
    if i == |peeks| then None
    else if peeks[i].Message? && peeks[i].msg.message == WM_QUIT then Some(i)
    else FirstQuit(peeks, i + 1)
  }

  /**
   * The loop ends exactly at the first WM_QUIT and returns its `wParam` cut to an `INT`; if
   * no WM_QUIT comes, it never returns.
   */
  lemma {:induction false} RunFromExitCode(s: LoopState, peeks: seq<Peek>, i: nat, made: seq<LoopCall>,
                                           order: seq<Key>, renderables: map<Key, Renderable>)
    requires i <= |peeks| && s.frequency > 0 && PositiveFrequencies(peeks)
    requires forall j :: 0 <= j < |order| ==> order[j] in renderables
    ensures RunFrom(s, peeks, i, made, order, renderables).exitCode ==
      if s.msg.message == WM_QUIT then Some(Wrap32(s.msg.wParam))
      else match FirstQuit(peeks, i)
        case Some(j) => Some(Wrap32(peeks[j].msg.wParam))
        case None => None
    decreases |peeks| - i
  {
    if s.msg.message != WM_QUIT && i < |peeks| {
      var it := Iterate(s, peeks[i], order, renderables);
      RunFromExitCode(it.state, peeks, i + 1, made + it.calls, order, renderables);
    }
  }

  /** `Run` returns exactly when a WM_QUIT message is peeked, with the first one's `wParam`. */
  lemma RunExitCode(frequency: int64, startingTime: int64, peeks: seq<Peek>, directions: Directions,
                    mouse: MouseRelativeMovement, order: seq<Key>, renderables: map<Key, Renderable>)
    requires frequency > 0 && PositiveFrequencies(peeks)
    requires forall j :: 0 <= j < |order| ==> order[j] in renderables
    ensures var r := RunSpec(frequency, startingTime, peeks, directions, mouse, order, renderables);
      && (r.exitCode.Some? <==> exists j :: 0 <= j < |peeks| && peeks[j].Message? && peeks[j].msg.message == WM_QUIT)
      && (r.exitCode.Some? ==>
            (exists j :: 0 <= j < |peeks| && peeks[j].Message? && peeks[j].msg.message == WM_QUIT
              && r.exitCode.value == Wrap32(peeks[j].msg.wParam)
              && forall k :: 0 <= k < j ==> !(peeks[k].Message? && peeks[k].msg.message == WM_QUIT)))
  {
    RunFromExitCode(LoopState(Msg(0, 0), frequency, startingTime, directions, mouse), peeks, 0, [], order, renderables);
  }

  /** Four calls of one frame: input, mouse reset, update, render, with one `deltaTime`. */
  predicate FrameBlock(block: seq<LoopCall>, order: seq<Key>, renderables: map<Key, Renderable>)
    requires forall j :: 0 <= j < |order| ==> order[j] in renderables
  {
    && |block| == 4
    && block[0].HandleInput?
    && block[1] == ResetMouse
    && block[2] == Update(UpdateTrace(order, block[0].deltaTime))
    && block[3] == Render(RenderTrace(order, renderables))
  }

  /** A loop trace: a succession of iterations, each one dispatch or one whole frame. */
  predicate Framed(calls: seq<LoopCall>, order: seq<Key>, renderables: map<Key, Renderable>)
    requires forall j :: 0 <= j < |order| ==> order[j] in renderables
    decreases |calls|
  {
    || calls == []
    || (calls[|calls| - 1].Dispatch? && Framed(calls[..|calls| - 1], order, renderables))
    || (|calls| >= 4 && FrameBlock(calls[|calls| - 4..], order, renderables)
        && Framed(calls[..|calls| - 4], order, renderables))
  }

  lemma {:induction false} RunFromFramed(s: LoopState, peeks: seq<Peek>, i: nat, made: seq<LoopCall>,
                                         order: seq<Key>, renderables: map<Key, Renderable>)
    requires i <= |peeks| && s.frequency > 0 && PositiveFrequencies(peeks)
    requires forall j :: 0 <= j < |order| ==> order[j] in renderables
    requires Framed(made, order, renderables)
    ensures Framed(RunFrom(s, peeks, i, made, order, renderables).calls, order, renderables)
    decreases |peeks| - i
  {
    if s.msg.message != WM_QUIT && i < |peeks| {
      var it := Iterate(s, peeks[i], order, renderables);
      var next := made + it.calls;
      if peeks[i].Message? {
        assert next[..|next| - 1] == made;
      } else {
        assert next[..|next| - 4] == made;
        assert next[|next| - 4..] == it.calls;
      }
      RunFromFramed(it.state, peeks, i + 1, next, order, renderables);
    }
  }

  /**
   * Every iteration either dispatches one message or runs one frame, never both, and every
   * frame calls HandleInput, ResetMouseMovement, Update and Render in that order, with the
   * same `deltaTime` for input and update.
   */
  lemma RunIsFramed(frequency: int64, startingTime: int64, peeks: seq<Peek>, directions: Directions,
                    mouse: MouseRelativeMovement, order: seq<Key>, renderables: map<Key, Renderable>)
    requires frequency > 0 && PositiveFrequencies(peeks)
    requires forall j :: 0 <= j < |order| ==> order[j] in renderables
    ensures Framed(RunSpec(frequency, startingTime, peeks, directions, mouse, order, renderables).calls, order, renderables)
  {
    RunFromFramed(LoopState(Msg(0, 0), frequency, startingTime, directions, mouse), peeks, 0, [], order, renderables);
  }

  /** The mouse movement is zero once a frame has run: the camera sees each movement once. */
  lemma MouseClearedByFrame(s: LoopState, peek: Peek, order: seq<Key>, renderables: map<Key, Renderable>)
    requires s.frequency > 0 && peek.NoMessage?
    requires forall j :: 0 <= j < |order| ==> order[j] in renderables
    ensures Iterate(s, peek, order, renderables).state.mouse == MouseRelativeMovement(0, 0)
    ensures Iterate(s, peek, order, renderables).calls[0].mouse == s.mouse
  {
  }

  /** `Game::Initialize`: the window first; its failure is returned before the renderer is touched. */
  function GameInitialize(windowResult: HResult, driverBefore: DriverType, backend: Backend, mainShader: Key,
                          vertexShaderOrder: seq<Key>, pixelShaderOrder: seq<Key>, renderableOrder: seq<Key>): InitResult
  {
    if Failed(windowResult) then InitResult(windowResult, driverBefore, [])
    else InitializeSpec(backend, mainShader, vertexShaderOrder, pixelShaderOrder, renderableOrder)
  }

  /**
   * A window failure is the result and no renderer call is made; otherwise the result is the
   * renderer's, and S_OK exactly when the window and every renderer step succeeded.
   */
  lemma GameInitializeStatus(windowResult: HResult, driverBefore: DriverType, backend: Backend, mainShader: Key,
                             vertexShaderOrder: seq<Key>, pixelShaderOrder: seq<Key>, renderableOrder: seq<Key>)
    ensures var r := GameInitialize(windowResult, driverBefore, backend, mainShader, vertexShaderOrder, pixelShaderOrder, renderableOrder);
      && (Failed(windowResult) ==> r.hr == windowResult && r.calls == [] && r.driver == driverBefore)
      && (Succeeded(windowResult) ==>
            r.hr == InitializeSpec(backend, mainShader, vertexShaderOrder, pixelShaderOrder, renderableOrder).hr)
      && (r.hr == S_OK <==>
            && Succeeded(windowResult)
            && Succeeded(DeviceSearch(backend.createDevice).hr)
            && (forall j :: 0 <= j < |InitSteps| ==> Succeeded(backend.step(InitSteps[j])))
            && (forall j :: 0 <= j < |renderableOrder| ==> Succeeded(backend.initRenderable(renderableOrder[j]))))
  {
    InitializeStatus(backend, mainShader, vertexShaderOrder, pixelShaderOrder, renderableOrder);
  }

  class Game {
    const window: MainWindow
    const renderer: Renderer

    /** A new window and a new, empty renderer. */
    constructor(directions: Directions, mouse: MouseRelativeMovement)
      ensures fresh(window) && fresh(renderer)
      ensures window.GetDirections() == directions && window.GetMouseRelativeMovement() == mouse
      ensures renderer.driverType == DriverNull
      ensures renderer.renderables == map[] && renderer.vertexShaders == map[] && renderer.pixelShaders == map[]
    {
      window := new MainWindow(directions, mouse);
      renderer := new Renderer();
    }

    /** `windowResult` is what the window's own `Initialize` (window creation) reports. */
    method Initialize(windowResult: HResult, backend: Backend, mainShader: Key,
                      vertexShaderOrder: seq<Key>, pixelShaderOrder: seq<Key>, renderableOrder: seq<Key>)
      returns (hr: HResult, calls: seq<InitCall>)
      requires Enumerates(vertexShaderOrder, renderer.vertexShaders.Keys)
      requires Enumerates(pixelShaderOrder, renderer.pixelShaders.Keys)
      requires Enumerates(renderableOrder, renderer.renderables.Keys)
      modifies renderer
      ensures GameInitialize(windowResult, old(renderer.driverType), backend, mainShader,
                             vertexShaderOrder, pixelShaderOrder, renderableOrder)
              == InitResult(hr, renderer.GetDriverType(), calls)
      ensures renderer.renderables == old(renderer.renderables)
      ensures renderer.vertexShaders == old(renderer.vertexShaders) && renderer.pixelShaders == old(renderer.pixelShaders)
    {
      hr := windowResult;
      if Failed(hr) {
        return hr, [];
      }
      hr, calls := renderer.Initialize(backend, mainShader, vertexShaderOrder, pixelShaderOrder, renderableOrder);
      if Failed(hr) {
        return;
      }
    }

    /** One frame's calls on the window and the renderer, in source order. */
    method RunFrame(deltaTime: real, order: seq<Key>) returns (calls: seq<LoopCall>)
      requires Enumerates(order, renderer.renderables.Keys)
      modifies window
      ensures calls == FrameCalls(old(window.GetDirections()), old(window.GetMouseRelativeMovement()), deltaTime,
                                  order, renderer.renderables)
      ensures window.GetDirections() == old(window.GetDirections())
      ensures window.GetMouseRelativeMovement() == MouseRelativeMovement(0, 0)
    {
      calls := [HandleInput(window.GetDirections(), window.GetMouseRelativeMovement(), deltaTime)];
      window.ResetMouseMovement();
      calls := calls + [ResetMouse];
      var updates := renderer.Update(order, deltaTime);
      calls := calls + [Update(updates)];
      var commands := renderer.Render(order);
      calls := calls + [Render(commands)];
    }

    /**
     * The message loop over the given peek outcomes. Returns `None` when the outcomes run out
     * before a WM_QUIT: the real loop would go on waiting. A delivered message goes to the
     * window's `HandleMessage`, as the window procedure forwards it.
     */
    method Run(frequency: int64, startingTime: int64, peeks: seq<Peek>, order: seq<Key>)
      returns (exitCode: Option<int32>, calls: seq<LoopCall>)
      requires frequency > 0 && PositiveFrequencies(peeks)
      requires Enumerates(order, renderer.renderables.Keys)
      modifies window
      ensures RunSpec(frequency, startingTime, peeks, old(window.GetDirections()), old(window.GetMouseRelativeMovement()),
                      order, renderer.renderables)
              == RunResult(exitCode, calls, window.GetDirections(), window.GetMouseRelativeMovement())
    {
      var msg := Msg(0, 0);
      var frequencyNow := frequency;
      var startingTimeNow := startingTime;
      calls := [];
      var i := 0;
      while msg.message != WM_QUIT
        invariant 0 <= i <= |peeks| && frequencyNow > 0
        invariant RunSpec(frequency, startingTime, peeks, old(window.GetDirections()), old(window.GetMouseRelativeMovement()),
                          order, renderer.renderables)
                  == RunFrom(LoopState(msg, frequencyNow, startingTimeNow, window.GetDirections(), window.GetMouseRelativeMovement()),
                             peeks, i, calls, order, renderer.renderables)
        decreases |peeks| - i
      {
        if i == |peeks| {
          return None, calls;
        }
        match peeks[i] {
          case Message(m, None) =>
            msg := m;
            calls := calls + [Dispatch(m)];
          case Message(m, Some(dl)) =>
            msg := m;
            var result := window.HandleMessage(dl.rawInputRegistered, m.message, m.wParam, dl.raw, dl.defaultResult);
            calls := calls + [Dispatch(m)];
          case NoMessage(endingTime, nextFrequency, nextStartingTime) =>
            var elapsed := ElapsedMicroseconds(startingTimeNow, endingTime, frequencyNow);
            frequencyNow := nextFrequency;
            startingTimeNow := nextStartingTime;
            var deltaTime := DeltaSeconds(elapsed);
            var frame := RunFrame(deltaTime, order);
            calls := calls + frame;
        }
        i := i + 1;
      }
      exitCode := Some(Wrap32(msg.wParam));
    }
  }
}
