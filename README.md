# Window host and shader program of a minimal OpenGL renderer, in Dafny

This project models the two stateful components of a small real-time
renderer's bootstrap layer and proves what they promise.

- **`Graphics.Shader`** (`shader.dfy`) reads and compiles a vertex and a
  fragment stage, links them into a program and deletes the stages. It sets
  uniforms of 1 to 4 floats, from a vector or from discrete arguments. Uniform
  locations come from a cache that is filled lazily: only found locations are
  cached, and a cached name is never asked of the driver again.
- **`App.App`** (`app.dfy`) holds the one window and its cached size. `Init`
  always tears down first. It then creates the window and loads the graphics
  functions, and fails in one of two ways. `Run` is the blocking frame loop:
  poll events (which may close the window or deliver a resize to the resize
  callback), let escape request close, clear, present. The resize callback
  acts only on the window the host currently holds.
- **`Gl`** (`gl.dfy`) holds the shared value types: object names (`Handle`) and
  32-bit floats kept as bit patterns (`Float`).

The windowing library, the graphics driver and the file loader are oracles.
`Graphics.Driver` is a record of functions: file contents, the names the driver
hands out, compile and link status, and uniform locations. A `Driver` is passed
to each call, so a caller can give different driver answers on different
calls. `App.Init` takes the window that creation returned (`null`, or a new
window with its close flag clear) and whether loading succeeded. `App.Run`
takes a finite sequence of per-frame inputs: the user closing the window
during polling, a framebuffer resize reported during polling, and escape being
held.
Each class keeps a ghost log (`calls`) of the calls it issued. The contracts
use it to say when the driver is queried, what is deleted and which file is
read.

These class methods are proved against a specification function, and the
properties are proved about that function:

- `Shader.GetUniformLocation` against `LookupUniform`, which is folded over
  many lookups by `Replay`.
- `Shader.CreateAndCompileShader` (spelled `CreateAndComplieShader` in the
  source) against `CompileStage`.
- The `Shader` constructor against `Construct`.
- `App.Run` against `FramesRun`, `SizeAfter` and `FramesCalls`, one frame at a
  time through `App.RunFrame`.

The object invariants are `Shader.Valid()` (the cache never holds the
not-found location -1) and `App.Valid()` (without a window the size is 0 by 0).

## Model

| member | source | states |
|---|---|---|
| Graphics.LookupUniform | include/graphics/Shader.h:151-163 | A cached name returns its cached location with no driver query and no cache change. An uncached name costs exactly one query, and its answer is returned. A found location is cached under the name; a miss leaves the cache unchanged. Nothing else in the cache changes, and a cache without -1 stays without -1. |
| Graphics.Shader.GetUniformLocation | include/graphics/Shader.h:151-163 | The returned location, the new cache and the calls appended to the log are those of `LookupUniform` on the old cache and the driver's answer. The no-(-1) invariant is kept. |
| Graphics.ReplayKeepsEntries | include/graphics/Shader.h:153-160 | Over any series of lookups, a cached entry is never dropped or changed. |
| Graphics.ReplayKeepsNoSentinel | include/graphics/Shader.h:157-161 | Over any series of lookups, the cache never comes to hold -1. |
| Graphics.CacheIsAuthoritative | include/graphics/Shader.h:153-160 | Once lookup i of a name finds a location, every later lookup j of that name returns the same location and issues no driver call, whatever the driver would answer by then. |
| Graphics.UniformCall | include/graphics/Shader.h:67-87 | For 1 to 4 values, the dispatched call is a uniform-set call at the given location. Its components are exactly the values, so its arity equals the count. |
| Graphics.Shader.SetUniformWithFloat | include/graphics/Shader.h:61-89 | The vector form returns true iff the lookup found a location and the count is 1 to 4. It always performs the lookup, so the cache may fill even when the count is 0 or above 4. Exactly one uniform-set call whose arity is the number of floats is appended when it returns true; only the lookup's calls are appended otherwise. |
| Graphics.Shader.SetUniformWithFloatArgs | include/graphics/Shader.h:91-119 | The discrete-argument form requires 1 to 4 arguments, the compile-time check. It returns true iff the location was found, with one call of matching arity. |
| Graphics.CompileStage | include/graphics/Shader.h:121-149 | Empty source gives failure, handle 0 and no stage object. Otherwise the handle is the object the driver created, and success is the driver's compile status for the text read from `path`. The created object is kept on failure, `path` is the only file read, and nothing is deleted. |
| Graphics.Shader.CreateAndCompileShader | include/graphics/Shader.h:121-149 | `CreateAndComplieShader` in the source. The status, the out-handle and the calls logged are those of `CompileStage`. |
| Graphics.Construct | include/graphics/Shader.h:20-49 | As written: the program is non-zero only if both stages compiled. A link failure leaves the driver's program handle in place. Stages are deleted only on the path that reaches linking, so on an earlier failure every stage created is leaked. The only file read is the vertex path. |
| Graphics.LinkAndRelease | include/graphics/Shader.h:30-48 | Linking two compiled stages yields the driver's program handle. It deletes both stages, so no stage object is left. |
| Graphics.Shader.constructor | include/graphics/Shader.h:20-49 | The new object has an empty cache. Its program handle and call log are those of `Construct`. |
| Graphics.ConstructIntended | include/graphics/Shader.h:20-49 | Corrected construction: the program is non-zero only if the vertex stage compiled from the vertex path and the fragment stage from the fragment path. Conversely, when both compile, the program is the driver's program handle. Both paths are read once the vertex stage compiles, and no stage object is ever leaked. |
| Graphics.EarlyFailureLeaksStages | include/graphics/Shader.h:23-28 | As written, for every driver and pair of paths: a vertex stage that was created but fails to compile is leaked. When the vertex stage compiles and the fragment stage fails, both created stage objects are leaked. |
| Graphics.FragmentStageReadsVertexPath | include/graphics/Shader.h:26-28 | Uses a driver where each file compiles only as its own stage. There the constructor as written yields program 0 and leaks stage objects 1 and 2. The corrected construction yields program 3. |
| Graphics.Shader.Use | include/graphics/Shader.h:56-59 | Binds the program handle, 0 included, with no check. |
| Graphics.Shader.Destroy | include/graphics/Shader.h:51-54 | The destructor issues one delete of the program handle. |
| App.App.constructor | include/app/App.h:119-121 | A new host has no window and a 0 by 0 size. |
| App.App.Clear | include/app/App.h:89-97 | Afterwards there is no window and the size is 0 by 0. The library is terminated iff a window was held. |
| App.App.Destroy | include/app/App.h:17-20 | Same effect as `Clear`. |
| App.App.Init | include/app/App.h:22-60 | Tears down first, so the resulting fields do not depend on the prior state. Returns true iff a window was created and loading succeeded. On success the window is the created one, its close flag still clear, and the size is the requested one. On either failure there is no window and the size is 0 by 0. The call log shows the context hints 4.6 core, and a terminate on each failure path. |
| App.App.FramebufferSizeCallback | include/app/App.h:105-117 | With a null handle, no window held, or a different window, nothing changes. With the held window, the size becomes exactly the given one and one viewport call is logged; nothing else changes. |
| App.App.ProcessInput | include/app/App.h:99-103 | The close flag becomes set iff it was set or escape is down. A close request is logged only when escape is down. |
| App.App.RunFrame | include/app/App.h:73-85 | One pass of the loop body on the held window. The close flag becomes set iff it was set, the user closed the window during polling, or escape is down. The size becomes the resize delivered during polling, or stays as it was when none is. The log gains exactly that frame's calls (`FrameCalls`): poll, a viewport call for a resize, the escape query, a close request only on escape, clear and swap. |
| App.App.Run | include/app/App.h:62-87 | Without a window it runs no frame and issues no call. Otherwise it runs `FramesRun` frames from the window's close flag. The flag ends set iff it started set or the last frame run set it. A resize reported while polling reaches the resize callback, so the size ends as `SizeAfter` the frames run. The log holds exactly those frames' calls, a viewport call included for each resize. |
| App.FramesRun | include/app/App.h:71-86 | The loop never runs more frames than there are inputs, and runs none when the close flag starts set. |
| App.FramesRunStopsAtFirstClose | include/app/App.h:71-86 | From a clear flag, at least one frame runs and every frame before the last one run left the flag clear. The loop stops before the inputs run out only after a frame that set the flag. |
| App.SizeAfterIsLastResize | include/app/App.h:71-86 | Polling may deliver a resize to the resize callback in any frame. After a run of frames the cached size is the one the last resize among them reported. |
| App.SizeAfterWithoutResize | include/app/App.h:71-86 | Frames whose polling delivers no resize leave the cached size as it was. |
| App.EscapeEndsLoop | include/app/App.h:99-103 | Suppose escape is down in frame k and no earlier frame closed the window. Then the loop runs exactly k + 1 frames: the request takes effect within that frame. |

## Findings

| source | as written | input that shows it | evidently intended | confidence | as-written member | corrected member |
|---|---|---|---|---|---|---|
| include/graphics/Shader.h:27 | The fragment stage is compiled from `vertexShaderFilePath`. | Vertex file "V", fragment file "F", and each text compiles only as its own stage (`SplitDriver`). The program stays 0, where 3 was due. | The fragment stage is read from `fragmentShaderFilePath`. | high; not executed | Graphics.FragmentStageReadsVertexPath | Graphics.ConstructIntended |
| include/graphics/Shader.h:23-28 | A stage failure returns before the `glDeleteShader` calls at lines 47-48. | The same driver: the vertex stage compiles and the fragment stage fails. Stage objects 1 and 2 are never deleted. | Every stage object created is deleted on every path. | high; not executed | Graphics.Construct | Graphics.ConstructIntended |

The `Shader` class constructor follows the code as written (`Construct`), so
the model reproduces both defects. `ConstructIntended` is the corrected
definition, and the two lemmas prove where they differ.

## Left out

- Real windowing and graphics behaviour is not modelled: window creation,
  context binding, function loading, viewport, blending, event polling, buffer
  swaps, shader compilation and linking. Each is an oracle result and an entry
  in the ghost call log.
- Reading a file is an oracle (`Driver.readFile`) that returns "" on failure.
- Error messages written to the error stream are left out. So is the
  4096-byte buffer for the info log; the model logs only the info-log query.
- The process-wide singleton accessor is left out. Its header is not part of
  this model. There is one `App` object, and the resize callback is a method
  on it that takes the window handle.
- The thread affinity of the graphics context is left out.
- The compile-time argument-count check becomes the precondition of
  `SetUniformWithFloatArgs`.
- Float values are opaque 32-bit patterns, and nothing computes with them.
- App.App.Run: the real loop runs until the close flag is set. The model stops
  as well when its finite inputs run out, and it does not log the loop's
  close-flag test. Polling delivers at most one resize per frame, after any
  close request; several resizes in one poll are modelled as the last of them. The rendering point between clear and present is empty in
  the code, and so it is in the model.
- `glfwInit`'s result is ignored by `Init`, so it appears only as a logged call.
- `src/main.cpp` only starts and stops the windowing library and prints; it is
  not part of this model.
- The model claims no lower bound on the cached width and height. The code
  copies whatever size `Init` and the callback receive, negative values
  included.
