/// The application host: the one window and its graphics context, one-time
/// initialisation, the blocking frame loop and the resize notification.
module App {
  import opened Gl

  /// A window handle. Handles are compared by identity; `shouldClose` is the
  /// close flag the windowing library keeps for the window.
  class Window {
    var shouldClose: bool

    constructor ()
      ensures !shouldClose
    {
      shouldClose := false;
    }
  }

  /// Context hints requested before the window is created.
  datatype Hint = ContextVersionMajor(major: int) | ContextVersionMinor(minor: int) | OpenGlCoreProfile

  const ContextMajor: int := 4
  const ContextMinor: int := 6
  const DefaultWidth: int := 1920
  const DefaultHeight: int := 1080

  /// The calls the host issues to the windowing library and the graphics
  /// driver, in the order it issues them.
  datatype AppCall =
    | GlfwInit
    | WindowHint(hint: Hint)
    | CreateWindow(width: int, height: int, title: string)
    | GlfwTerminate
    | MakeContextCurrent(window: Window)
    | LoadGl
    | EnableDepthTest
    | EnableBlend
    | BlendSrcAlphaOneMinusSrcAlpha
    | SetFramebufferSizeCallback(window: Window)
    | Viewport(x: int, y: int, width: int, height: int)
    | PollEvents
    | GetKeyEscape(window: Window)
    | SetWindowShouldClose(window: Window)
    | ClearColor(red: Float, green: Float, blue: Float, alpha: Float)
    | ClearColorAndDepth
    | SwapBuffers(window: Window)

  /// The teardown a window in place costs: the library is terminated.
  function TeardownCalls(w: Window?): seq<AppCall> {
    if w != null then [GlfwTerminate] else []
  }

  /// The calls `Init` issues after its teardown, given what window creation
  /// returned and whether the graphics functions loaded.
  function InitCalls(name: string, width: int, height: int, created: Window?, glLoaded: bool): seq<AppCall> {
    [GlfwInit, WindowHint(ContextVersionMajor(ContextMajor)), WindowHint(ContextVersionMinor(ContextMinor)),
     WindowHint(OpenGlCoreProfile), CreateWindow(width, height, name)]
    + if created == null then [GlfwTerminate]
      else [MakeContextCurrent(created), LoadGl]
           + if !glLoaded then [GlfwTerminate]
             else [EnableDepthTest, EnableBlend, BlendSrcAlphaOneMinusSrcAlpha, SetFramebufferSizeCallback(created)]
  }

  // ---------------------------------------------------------------------------
  // The frame loop

  /// A framebuffer size change the windowing library reports while events are polled.
  datatype Resize = NoResize | Resize(width: int, height: int)

  /// What happens to the window during one frame: whether the windowing
  /// library sets the close flag while events are polled (the user closed the
  /// window), whether it delivers a resize notification then, and whether
  /// the escape key is down.
  datatype FrameInput = FrameInput(closeRequested: bool, resize: Resize, escapePressed: bool)

  /// Whether the close flag is set by the end of a frame that began with it clear.
  predicate Closes(f: FrameInput) {
    f.closeRequested || f.escapePressed
  }

  /// The number of frames the loop runs, starting from the close flag
  /// `shouldClose`, over the given frames' inputs.
  function FramesRun(shouldClose: bool, inputs: seq<FrameInput>): (n: nat)
    ensures n <= |inputs|
    ensures shouldClose ==> n == 0
    decreases |inputs|
  {
    if shouldClose || inputs == [] then 0
    else 1 + FramesRun(Closes(inputs[0]), inputs[1..])
  }

  /// The loop stops at the end of the first frame that sets the close flag:
  /// every frame before the last one run left it clear, and the loop only
  /// stops early (before the inputs run out) on a frame that set it.
  lemma {:induction false} FramesRunStopsAtFirstClose(inputs: seq<FrameInput>)
    ensures var n := FramesRun(false, inputs);
      && (forall k :: 0 <= k < n - 1 ==> !Closes(inputs[k]))
      && (n < |inputs| ==> 0 < n && Closes(inputs[n - 1]))
      && (inputs != [] ==> 0 < n)
    decreases |inputs|
  {
    if inputs != [] {
      FramesRunStopsAtFirstClose(inputs[1..]);
      var n := FramesRun(false, inputs);
      if !Closes(inputs[0]) {
        forall k | 0 <= k < n - 1
          ensures !Closes(inputs[k])
        {
          if k > 0 {
            assert inputs[k] == inputs[1..][k - 1];
          }
        }
      }
    }
  }

  /// Escape pressed in frame k, with no earlier frame closing the window,
  /// ends the loop after exactly k + 1 frames.
  lemma {:induction false} EscapeEndsLoop(inputs: seq<FrameInput>, k: nat)
    requires k < |inputs| && inputs[k].escapePressed
    requires forall j :: 0 <= j < k ==> !Closes(inputs[j])
    ensures FramesRun(false, inputs) == k + 1
    decreases k
  {
    if k > 0 {
      assert forall j :: 0 <= j < k - 1 ==> inputs[1..][j] == inputs[j + 1];
      EscapeEndsLoop(inputs[1..], k - 1);
    }
  }

  /// The cached size after a run of frames, starting from `width` by `height`.
  function SizeAfter(width: int, height: int, frames: seq<FrameInput>): (int, int) {
    if frames == [] then (width, height)
    else match frames[|frames| - 1].resize
      case NoResize => SizeAfter(width, height, frames[..|frames| - 1])
      case Resize(w, h) => (w, h)
  }

  /// The size after a run of frames is the one the last resize in it
  /// reported.
  lemma {:induction false} SizeAfterIsLastResize(width: int, height: int, frames: seq<FrameInput>, k: nat)
    requires k < |frames| && frames[k].resize.Resize?
    requires forall j :: k < j < |frames| ==> frames[j].resize.NoResize?
    ensures SizeAfter(width, height, frames) == (frames[k].resize.width, frames[k].resize.height)
    decreases |frames|
  {
    if k < |frames| - 1 {
      var prefix := frames[..|frames| - 1];
      assert forall j :: k < j < |prefix| ==> prefix[j] == frames[j];
      SizeAfterIsLastResize(width, height, prefix, k);
    }
  }

  /// Without a resize among the frames, the size stays as it was.
  lemma {:induction false} SizeAfterWithoutResize(width: int, height: int, frames: seq<FrameInput>)
    requires forall j :: 0 <= j < |frames| ==> frames[j].resize.NoResize?
    ensures SizeAfter(width, height, frames) == (width, height)
    decreases |frames|
  {
    if frames != [] {
      var prefix := frames[..|frames| - 1];
      assert forall j :: 0 <= j < |prefix| ==> prefix[j] == frames[j];
      SizeAfterWithoutResize(width, height, prefix);
    }
  }

  /// The calls a resize notification for the held window issues.
  function ResizeCalls(r: Resize): seq<AppCall> {
    match r
    case NoResize => []
    case Resize(w, h) => [Viewport(0, 0, w, h)]
  }

  /// The calls one frame issues.
  function FrameCalls(w: Window, f: FrameInput): seq<AppCall> {
    [PollEvents] + ResizeCalls(f.resize) + [GetKeyEscape(w)]
    + (if f.escapePressed then [SetWindowShouldClose(w)] else [])
    + [ClearColor(FloatZero, FloatZero, FloatZero, FloatOne), ClearColorAndDepth, SwapBuffers(w)]
  }

  /// The calls a run of frames issues.
  function FramesCalls(w: Window, frames: seq<FrameInput>): seq<AppCall> {
    if frames == [] then []
    else FramesCalls(w, frames[..|frames| - 1]) + FrameCalls(w, frames[|frames| - 1])
  }

  /// Running one more frame from a clear flag counts that frame once, and
  /// extends the size and the call log of the frames before it by that frame
  /// alone.
  lemma FrameStep(w: Window, width: int, height: int, log: seq<AppCall>, inputs: seq<FrameInput>, i: nat)
    requires i < |inputs|
    ensures FramesRun(false, inputs[i..]) == 1 + FramesRun(Closes(inputs[i]), inputs[i + 1..])
    ensures SizeAfter(width, height, inputs[..i + 1]) == match inputs[i].resize
      case NoResize => SizeAfter(width, height, inputs[..i])
      case Resize(newWidth, newHeight) => (newWidth, newHeight)
    ensures log + FramesCalls(w, inputs[..i + 1]) == log + FramesCalls(w, inputs[..i]) + FrameCalls(w, inputs[i])
  {
    assert inputs[..i + 1][..i] == inputs[..i];
    assert inputs[i..][1..] == inputs[i + 1..];
  }

  // ---------------------------------------------------------------------------
  // The host

  class App {
    var window: Window?
    var windowWidth: int
    var windowHeight: int
    /// Every call issued to the windowing library and the driver, oldest first.
    ghost var calls: seq<AppCall>

    /// Without a window the cached size is zero.
    ghost predicate Valid()
      reads this
    {
      window == null ==> windowWidth == 0 && windowHeight == 0
    }

    constructor ()
      ensures Valid()
      ensures window == null && windowWidth == 0 && windowHeight == 0 && calls == []
    {
      window := null;
      windowWidth := 0;
      windowHeight := 0;
      calls := [];
    }

    /// The destructor: the same teardown as `Clear`.
    method Destroy()
      modifies this
      ensures Valid()
      ensures window == null && windowWidth == 0 && windowHeight == 0
      ensures calls == old(calls) + TeardownCalls(old(window))
    {
      Clear();
    }

    /// Tears down any window, then creates one and loads the graphics
    /// functions. `created` is what window creation returns (null on failure;
    /// a new window's close flag is clear) and `glLoaded` whether loading
    /// succeeded. The outcome does not depend on the state before the call.
    method Init(created: Window?, glLoaded: bool,
                name: string := "", initWidth: int := DefaultWidth, initHeight: int := DefaultHeight)
      returns (ok: bool)
      requires created != null ==> !created.shouldClose
      modifies this
      ensures Valid()
      ensures ok <==> created != null && glLoaded
      ensures ok ==> window == created && windowWidth == initWidth && windowHeight == initHeight
      ensures ok ==> !window.shouldClose
      ensures !ok ==> window == null && windowWidth == 0 && windowHeight == 0
      ensures calls == old(calls) + TeardownCalls(old(window)) + InitCalls(name, initWidth, initHeight, created, glLoaded)
    {
      Clear();

      calls := calls + [GlfwInit, WindowHint(ContextVersionMajor(ContextMajor)),
                        WindowHint(ContextVersionMinor(ContextMinor)), WindowHint(OpenGlCoreProfile),
                        CreateWindow(initWidth, initHeight, name)];
      window := created;
      if window == null {
        calls := calls + [GlfwTerminate];
        return false;
      }
      calls := calls + [MakeContextCurrent(created), LoadGl];

      if !glLoaded {
        calls := calls + [GlfwTerminate];
        window := null;
        return false;
      }

      calls := calls + [EnableDepthTest, EnableBlend, BlendSrcAlphaOneMinusSrcAlpha];
      windowWidth := initWidth;
      windowHeight := initHeight;
      calls := calls + [SetFramebufferSizeCallback(created)];
      return true;
    }

    /// Runs frames until the window's close flag is set, or, in this model,
    /// until the given inputs run out. Without a window it returns at once.
    /// Resize notifications delivered while polling reach the resize callback.
    method Run(inputs: seq<FrameInput>) returns (frames: nat)
      requires Valid()
      modifies this, window
      ensures Valid() && window == old(window)
      ensures window == null ==> frames == 0 && unchanged(this)
      ensures window != null ==>
        && frames == FramesRun(old(window.shouldClose), inputs)
        && window.shouldClose == (old(window.shouldClose) || (0 < frames && Closes(inputs[frames - 1])))
        && (windowWidth, windowHeight) == SizeAfter(old(windowWidth), old(windowHeight), inputs[..frames])
        && calls == old(calls) + FramesCalls(window, inputs[..frames])
    {
      if window == null {
        return 0;
      }
      var w := window;
      ghost var closed0, width0, height0, calls0 := w.shouldClose, windowWidth, windowHeight, calls;
      var i := 0;
      while !w.shouldClose && i < |inputs|
        invariant 0 <= i <= |inputs|
        invariant window == w && Valid()
        invariant FramesRun(closed0, inputs) == i + FramesRun(w.shouldClose, inputs[i..])
        invariant w.shouldClose == (closed0 || (0 < i && Closes(inputs[i - 1])))
        invariant (windowWidth, windowHeight) == SizeAfter(width0, height0, inputs[..i])
        invariant calls == calls0 + FramesCalls(w, inputs[..i])
      {
        RunFrame(w, inputs[i]);
        FrameStep(w, width0, height0, calls0, inputs, i);
        i := i + 1;
      }
      frames := i;
    }

    /// One pass of the loop body on the held window `w`: poll events (the
    /// close flag may be set, a resize delivered), process input, clear and
    /// present.
    method RunFrame(w: Window, f: FrameInput)
      requires window == w && Valid()
      modifies this, w
      ensures window == w && Valid()
      ensures w.shouldClose == (old(w.shouldClose) || Closes(f))
      ensures (windowWidth, windowHeight) == match f.resize
        case NoResize => (old(windowWidth), old(windowHeight))
        case Resize(width, height) => (width, height)
      ensures calls == old(calls) + FrameCalls(w, f)
    {
      calls := calls + [PollEvents];
      if f.closeRequested {
        w.shouldClose := true;
      }
      if f.resize.Resize? {
        FramebufferSizeCallback(w, f.resize.width, f.resize.height);
      }
      ProcessInput(w, f.escapePressed);

      // clear the canvas and show the frame
      calls := calls + [ClearColor(FloatZero, FloatZero, FloatZero, FloatOne), ClearColorAndDepth, SwapBuffers(w)];
    }

    /// Tears down any window and forgets its size.
    method Clear()
      modifies this
      ensures Valid()
      ensures window == null && windowWidth == 0 && windowHeight == 0
      ensures calls == old(calls) + TeardownCalls(old(window))
    {
      if window != null {
        calls := calls + [GlfwTerminate];
      }
      windowWidth := 0;
      windowHeight := 0;
      window := null;
    }

    /// Requests that the window close when escape is down.
    method ProcessInput(w: Window, escapePressed: bool)
      modifies this`calls, w
      ensures w.shouldClose == (old(w.shouldClose) || escapePressed)
      ensures calls == old(calls) + [GetKeyEscape(w)] + (if escapePressed then [SetWindowShouldClose(w)] else [])
    {
      calls := calls + [GetKeyEscape(w)];
      if escapePressed {
        calls := calls + [SetWindowShouldClose(w)];
        w.shouldClose := true;
      }
    }

    /// The resize notification for window `w`: acts only when `w` is the
    /// window this host holds, and then records the new size.
    method FramebufferSizeCallback(w: Window?, width: int, height: int)
      modifies this
      ensures w == null || old(window) == null || w != old(window) ==> unchanged(this)
      ensures w != null && w == old(window) ==>
        && window == old(window)
        && windowWidth == width && windowHeight == height
        && calls == old(calls) + [Viewport(0, 0, width, height)]
      ensures old(Valid()) ==> Valid()
    {
      if w == null {
        return;
      }
      if window == null {
        return;
      }
      if w != window {
        return;
      }
      calls := calls + [Viewport(0, 0, width, height)];
      windowWidth := width;
      windowHeight := height;
    }
  }

  /// A client of the contracts above: initialise at 800 by 600, resize to
  /// 400 by 300, initialise again at another size, then run with the close
  /// flag already set.
  method StartupScenario() {
    var app := new App();
    var first := new Window();
    var ok := app.Init(first, true, "Demo", 800, 600);
    assert ok && app.window == first && app.windowWidth == 800 && app.windowHeight == 600;

    app.FramebufferSizeCallback(first, 400, 300);
    assert app.windowWidth == 400 && app.windowHeight == 300;

    var second := new Window();
    ok := app.Init(second, true, "Demo", 1024, 768);
    assert app.window == second && app.windowWidth == 1024 && app.windowHeight == 768;
    // a late notification for the torn-down window changes nothing
    app.FramebufferSizeCallback(first, 10, 10);
    assert app.windowWidth == 1024 && app.windowHeight == 768;

    // one frame: a resize arrives while polling and escape is down
    var frames := app.Run([FrameInput(false, Resize(640, 480), true)]);
    assert [FrameInput(false, Resize(640, 480), true)][..1] == [FrameInput(false, Resize(640, 480), true)];
    assert frames == 1 && second.shouldClose;
    assert app.windowWidth == 640 && app.windowHeight == 480;
    // the close flag is now set, so no further frame runs
    frames := app.Run([FrameInput(false, NoResize, false)]);
    assert frames == 0;
  }
}
