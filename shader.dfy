/// The shader program: two stages compiled from source files, linked into one
/// program, and a lazily filled cache of uniform locations in front of the
/// driver's name lookup.
module Graphics {
  import opened Gl

  /// The location the driver answers for a name the program does not declare.
  const NotFound: int := -1

  datatype StageType = VertexShader | FragmentShader

  /// The calls a shader issues to the file loader and to the graphics driver,
  /// in the order it issues them.
  datatype GlCall =
    | ReadFile(path: string)
    | CreateShader(stage: StageType, shader: Handle)
    | ShaderSource(shader: Handle, source: string)
    | CompileShader(shader: Handle)
    | GetCompileStatus(shader: Handle)
    | GetShaderInfoLog(shader: Handle)
    | CreateProgram(program: Handle)
    | AttachShader(program: Handle, shader: Handle)
    | LinkProgram(program: Handle)
    | GetLinkStatus(program: Handle)
    | GetProgramInfoLog(program: Handle)
    | DeleteShader(shader: Handle)
    | DeleteProgram(program: Handle)
    | UseProgram(program: Handle)
    | UniformLocationQuery(program: Handle, name: string)
    | Uniform1f(location: int, x: Float)
    | Uniform2f(location: int, x: Float, y: Float)
    | Uniform3f(location: int, x: Float, y: Float, z: Float)
    | Uniform4f(location: int, x: Float, y: Float, z: Float, w: Float)

  /// What the file loader and the driver answer. `readFile` yields "" on any
  /// failure; `createShader` and `createProgram` are the names the driver hands
  /// out; `compiles` is the compile status of a stage given its source text;
  /// `links` is the link status of a program given its two attached stages;
  /// `uniformLocation` is the driver's answer to a location query.
  datatype Driver = Driver(
    readFile: string -> string,
    createShader: StageType -> Handle,
    compiles: (StageType, string) -> bool,
    createProgram: Handle,
    links: (Handle, Handle) -> bool,
    uniformLocation: (Handle, string) -> int)

  // ---------------------------------------------------------------------------
  // Uniform-set calls and their arity

  predicate IsUniformSet(c: GlCall) {
    c.Uniform1f? || c.Uniform2f? || c.Uniform3f? || c.Uniform4f?
  }

  /// The float components a uniform-set call passes (empty for any other call).
  function Components(c: GlCall): seq<Float> {
    match c
    case Uniform1f(_, x) => [x]
    case Uniform2f(_, x, y) => [x, y]
    case Uniform3f(_, x, y, z) => [x, y, z]
    case Uniform4f(_, x, y, z, w) => [x, y, z, w]
    case _ => []
  }

  /// The uniform-set call whose arity matches the number of values.
  function UniformCall(location: int, values: seq<Float>): (c: GlCall)
    requires 1 <= |values| <= 4
    ensures IsUniformSet(c) && c.location == location
    ensures Components(c) == values
  {
    if |values| == 1 then Uniform1f(location, values[0])
    else if |values| == 2 then Uniform2f(location, values[0], values[1])
    else if |values| == 3 then Uniform3f(location, values[0], values[1], values[2])
    else Uniform4f(location, values[0], values[1], values[2], values[3])
  }

  // ---------------------------------------------------------------------------
  // The uniform-location cache

  /// The cache's invariant: a name is only ever cached with a found location.
  predicate NoSentinel(cache: map<string, int>) {
    NotFound !in cache.Values
  }

  /// The location returned, the cache afterwards and the driver calls issued.
  datatype Lookup = Lookup(loc: int, cache: map<string, int>, calls: seq<GlCall>)

  /// One lookup of `name` against `cache`; `answer` is what the driver says
  /// if it is asked.
  function LookupUniform(cache: map<string, int>, program: Handle, name: string, answer: int): (r: Lookup)
    // a cached name is answered from the cache, without a driver query
    ensures name in cache ==> r.loc == cache[name] && r.cache == cache && r.calls == []
    // an uncached name costs exactly one driver query, whose answer is returned
    ensures name !in cache ==> r.loc == answer && r.calls == [UniformLocationQuery(program, name)]
    // a found location is cached under the name; a miss is not cached
    ensures r.loc != NotFound ==> name in r.cache && r.cache[name] == r.loc
    ensures r.loc == NotFound ==> r.cache == cache
    // nothing else in the cache changes
    ensures r.cache == cache || r.cache == cache[name := r.loc]
    ensures NoSentinel(cache) ==> NoSentinel(r.cache)
  {
    if name in cache then Lookup(cache[name], cache, [])
    else if answer != NotFound then Lookup(answer, cache[name := answer], [UniformLocationQuery(program, name)])
    else Lookup(NotFound, cache, [UniformLocationQuery(program, name)])
  }

  /// One lookup in a series: the name asked for and what the driver would
  /// answer if it were queried at that point.
  datatype Query = Query(name: string, answer: int)

  /// The cache after a series of lookups.
  function Replay(cache: map<string, int>, program: Handle, qs: seq<Query>): map<string, int>
    decreases |qs|
  {
    if qs == [] then cache
    else Replay(LookupUniform(cache, program, qs[0].name, qs[0].answer).cache, program, qs[1..])
  }

  /// The k-th lookup of a series, made against the cache the earlier ones left.
  function LookupAt(cache: map<string, int>, program: Handle, qs: seq<Query>, k: nat): Lookup
    requires k < |qs|
  {
    LookupUniform(Replay(cache, program, qs[..k]), program, qs[k].name, qs[k].answer)
  }

  /// Cached entries are never dropped or changed by later lookups.
  lemma {:induction false} ReplayKeepsEntries(cache: map<string, int>, program: Handle, qs: seq<Query>, name: string)
    requires name in cache
    ensures name in Replay(cache, program, qs)
    ensures Replay(cache, program, qs)[name] == cache[name]
    decreases |qs|
  {
    if qs != [] {
      var next := LookupUniform(cache, program, qs[0].name, qs[0].answer).cache;
      ReplayKeepsEntries(next, program, qs[1..], name);
    }
  }

  /// The cache never holds the not-found location, however many lookups run.
  lemma {:induction false} ReplayKeepsNoSentinel(cache: map<string, int>, program: Handle, qs: seq<Query>)
    requires NoSentinel(cache)
    ensures NoSentinel(Replay(cache, program, qs))
    decreases |qs|
  {
    if qs != [] {
      var next := LookupUniform(cache, program, qs[0].name, qs[0].answer).cache;
      ReplayKeepsNoSentinel(next, program, qs[1..]);
    }
  }

  lemma {:induction false} ReplayAppend(cache: map<string, int>, program: Handle, a: seq<Query>, b: seq<Query>)
    ensures Replay(cache, program, a + b) == Replay(Replay(cache, program, a), program, b)
    decreases |a|
  {
    if a == [] {
      assert a + b == b;
    } else {
      var next := LookupUniform(cache, program, a[0].name, a[0].answer).cache;
      assert (a + b)[1..] == a[1..] + b;
      ReplayAppend(next, program, a[1..], b);
    }
  }

  /// Once a lookup of a name has found a location, every later lookup of that
  /// name returns the same location and queries the driver no more, whatever
  /// the driver would answer by then.
  lemma CacheIsAuthoritative(cache: map<string, int>, program: Handle, qs: seq<Query>, i: nat, j: nat)
    requires i < j < |qs| && qs[i].name == qs[j].name
    requires LookupAt(cache, program, qs, i).loc != NotFound
    ensures LookupAt(cache, program, qs, j).loc == LookupAt(cache, program, qs, i).loc
    ensures LookupAt(cache, program, qs, j).calls == []
  {
    var step := LookupAt(cache, program, qs, i);
    assert qs[..i + 1] == qs[..i] + [qs[i]];
    ReplayAppend(cache, program, qs[..i], [qs[i]]);
    assert Replay(cache, program, qs[..i + 1]) == step.cache;
    assert qs[..j] == qs[..i + 1] + qs[i + 1..j];
    ReplayAppend(cache, program, qs[..i + 1], qs[i + 1..j]);
    ReplayKeepsEntries(step.cache, program, qs[i + 1..j], qs[i].name);
  }

  // ---------------------------------------------------------------------------
  // Stage compilation, linking and what the calls leave behind

  /// The files read by a series of calls.
  function ReadPaths(calls: seq<GlCall>): set<string> {
    set c | c in calls && c.ReadFile? :: c.path
  }

  /// The stage objects created, and the ones deleted, by a series of calls.
  function CreatedStages(calls: seq<GlCall>): set<Handle> {
    set c | c in calls && c.CreateShader? :: c.shader
  }

  function DeletedStages(calls: seq<GlCall>): set<Handle> {
    set c | c in calls && c.DeleteShader? :: c.shader
  }

  /// Stage objects created and never deleted.
  function LeakedStages(calls: seq<GlCall>): set<Handle> {
    CreatedStages(calls) - DeletedStages(calls)
  }

  lemma CallSetsAppend(a: seq<GlCall>, b: seq<GlCall>)
    ensures ReadPaths(a + b) == ReadPaths(a) + ReadPaths(b)
    ensures CreatedStages(a + b) == CreatedStages(a) + CreatedStages(b)
    ensures DeletedStages(a + b) == DeletedStages(a) + DeletedStages(b)
  {
  }

  /// Whether a stage compiled, the stage object it left, and the calls issued.
  datatype Stage = Stage(ok: bool, handle: Handle, calls: seq<GlCall>)

  /// Reading and compiling one stage: an empty source gives no stage object and
  /// failure; otherwise the object is created, given the text read from `path`
  /// and compiled, and a compile failure keeps the object it created.
  function CompileStage(d: Driver, path: string, stage: StageType): (r: Stage)
    ensures d.readFile(path) == [] ==> !r.ok && r.handle == 0 && CreatedStages(r.calls) == {}
    ensures d.readFile(path) != [] ==>
      && r.handle == d.createShader(stage)
      && (r.ok <==> d.compiles(stage, d.readFile(path)))
      && CreatedStages(r.calls) == {r.handle}
      && ShaderSource(r.handle, d.readFile(path)) in r.calls
    ensures ReadPaths(r.calls) == {path}
    ensures DeletedStages(r.calls) == {}
  {
    var source := d.readFile(path);
    if source == [] then
      var calls := [ReadFile(path)];
      assert forall c :: c in calls ==> c == ReadFile(path);
      Stage(false, 0, calls)
    else
      var h := d.createShader(stage);
      var compiled := [ReadFile(path), CreateShader(stage, h), ShaderSource(h, source), CompileShader(h), GetCompileStatus(h)];
      var calls := if d.compiles(stage, source) then compiled else compiled + [GetShaderInfoLog(h)];
      assert calls[1] == CreateShader(stage, h);
      assert forall c :: c in calls ==> c == ReadFile(path) || !c.ReadFile?;
      assert forall c :: c in calls ==> c == CreateShader(stage, h) || !c.CreateShader?;
      Stage(d.compiles(stage, source), h, calls)
  }

  /// The calls that link a program from two stages.
  function LinkCalls(d: Driver, program: Handle, vs: Handle, fs: Handle): seq<GlCall> {
    [CreateProgram(program), AttachShader(program, vs), AttachShader(program, fs), LinkProgram(program), GetLinkStatus(program)]
    + (if d.links(vs, fs) then [] else [GetProgramInfoLog(program)])
  }

  lemma LinkCallsTouchNoFileOrStage(d: Driver, program: Handle, vs: Handle, fs: Handle)
    ensures ReadPaths(LinkCalls(d, program, vs, fs)) == {}
    ensures CreatedStages(LinkCalls(d, program, vs, fs)) == {}
    ensures DeletedStages(LinkCalls(d, program, vs, fs)) == {}
  {
  }

  lemma DeleteCallsDeleteBoth(vs: Handle, fs: Handle)
    ensures ReadPaths([DeleteShader(vs), DeleteShader(fs)]) == {}
    ensures CreatedStages([DeleteShader(vs), DeleteShader(fs)]) == {}
    ensures DeletedStages([DeleteShader(vs), DeleteShader(fs)]) == {vs, fs}
  {
  }

  /// The program handle left by construction, and the calls issued.
  datatype Built = Built(program: Handle, calls: seq<GlCall>)

  /// Whether the constructor as written gets as far as linking: both stages,
  /// each read from the vertex path, compile.
  predicate ReachesLink(d: Driver, vertexPath: string) {
    CompileStage(d, vertexPath, VertexShader).ok && CompileStage(d, vertexPath, FragmentShader).ok
  }

  /// Construction as the code is written: the fragment stage is compiled from
  /// the vertex path, and a stage failure returns before any stage is deleted.
  function Construct(d: Driver, vertexPath: string, fragmentPath: string): (r: Built)
    // the program handle is non-zero only if both stages compiled
    ensures r.program != 0 ==> ReachesLink(d, vertexPath)
    // a link failure is only logged: the handle stays what the driver gave
    ensures ReachesLink(d, vertexPath) ==> r.program == d.createProgram && LeakedStages(r.calls) == {}
    // before linking nothing is deleted, so every stage created is leaked
    ensures !ReachesLink(d, vertexPath) ==>
      r.program == 0 && DeletedStages(r.calls) == {} && LeakedStages(r.calls) == CreatedStages(r.calls)
    // the fragment path is never read
    ensures ReadPaths(r.calls) == {vertexPath}
  {
    var v := CompileStage(d, vertexPath, VertexShader);
    if !v.ok then Built(0, v.calls)
    else
      var f := CompileStage(d, vertexPath, FragmentShader);
      CallSetsAppend(v.calls, f.calls);
      if !f.ok then Built(0, v.calls + f.calls)
      else LinkAndRelease(d, v, f)
  }

  /// Linking two compiled stages, then deleting both.
  function LinkAndRelease(d: Driver, v: Stage, f: Stage): (r: Built)
    requires CreatedStages(v.calls) == {v.handle} && CreatedStages(f.calls) == {f.handle}
    requires DeletedStages(v.calls) == {} && DeletedStages(f.calls) == {}
    ensures r.program == d.createProgram
    ensures LeakedStages(r.calls) == {}
    ensures ReadPaths(r.calls) == ReadPaths(v.calls) + ReadPaths(f.calls)
  {
    var p := d.createProgram;
    var link := LinkCalls(d, p, v.handle, f.handle);
    var delete := [DeleteShader(v.handle), DeleteShader(f.handle)];
    LinkCallsTouchNoFileOrStage(d, p, v.handle, f.handle);
    DeleteCallsDeleteBoth(v.handle, f.handle);
    CallSetsAppend(v.calls, f.calls);
    CallSetsAppend(v.calls + f.calls, link);
    CallSetsAppend(v.calls + f.calls + link, delete);
    Built(p, v.calls + f.calls + link + delete)
  }

  /// Construction as evidently intended: the fragment stage is compiled from
  /// the fragment path, and the stages are deleted on every path.
  function ConstructIntended(d: Driver, vertexPath: string, fragmentPath: string): (r: Built)
    ensures r.program != 0 ==>
      CompileStage(d, vertexPath, VertexShader).ok && CompileStage(d, fragmentPath, FragmentShader).ok
    // two stages that compile, each from its own path, give the driver's program
    ensures CompileStage(d, vertexPath, VertexShader).ok && CompileStage(d, fragmentPath, FragmentShader).ok ==>
      r.program == d.createProgram
    ensures CompileStage(d, vertexPath, VertexShader).ok ==> ReadPaths(r.calls) == {vertexPath, fragmentPath}
    ensures LeakedStages(r.calls) == {}
  {
    var v := CompileStage(d, vertexPath, VertexShader);
    if !v.ok then
      var delete := [DeleteShader(v.handle)];
      assert delete[0] == DeleteShader(v.handle);
      assert forall c :: c in delete ==> c == DeleteShader(v.handle);
      CallSetsAppend(v.calls, delete);
      Built(0, v.calls + delete)
    else
      var f := CompileStage(d, fragmentPath, FragmentShader);
      var delete := [DeleteShader(v.handle), DeleteShader(f.handle)];
      DeleteCallsDeleteBoth(v.handle, f.handle);
      CallSetsAppend(v.calls, f.calls);
      if !f.ok then
        CallSetsAppend(v.calls + f.calls, delete);
        Built(0, v.calls + f.calls + delete)
      else LinkAndRelease(d, v, f)
  }

  /// As written, a stage that fails to compile leaks the stage objects created
  /// so far: the vertex stage when it fails, and both stages when the
  /// fragment stage (read from the vertex path) fails.
  lemma EarlyFailureLeaksStages(d: Driver, vertexPath: string, fragmentPath: string)
    ensures var source := d.readFile(vertexPath);
      source != [] && !d.compiles(VertexShader, source) ==>
        d.createShader(VertexShader) in LeakedStages(Construct(d, vertexPath, fragmentPath).calls)
    ensures var source := d.readFile(vertexPath);
      source != [] && d.compiles(VertexShader, source) && !d.compiles(FragmentShader, source) ==>
        && d.createShader(VertexShader) in LeakedStages(Construct(d, vertexPath, fragmentPath).calls)
        && d.createShader(FragmentShader) in LeakedStages(Construct(d, vertexPath, fragmentPath).calls)
  {
  }

  /// A driver under which the two definitions part: the vertex file holds
  /// "V", the fragment file "F", and a stage compiles only from its own text.
  function SplitDriver(): Driver {
    Driver(
      p => if p == "a.vert" then "V" else "F",
      s => if s == VertexShader then 1 else 2,
      (s, source) => (s == VertexShader) == (source == "V"),
      3,
      (vs, fs) => true,
      (program, name) => NotFound)
  }

  /// As written, a pair of sources that compile and link yields no program,
  /// because the fragment stage is handed the vertex text; and the vertex and
  /// fragment stage objects are both leaked. As intended, the same driver
  /// yields program 3 and leaks nothing.
  lemma FragmentStageReadsVertexPath()
    ensures Construct(SplitDriver(), "a.vert", "a.frag").program == 0
    ensures LeakedStages(Construct(SplitDriver(), "a.vert", "a.frag").calls) == {1, 2}
    ensures ConstructIntended(SplitDriver(), "a.vert", "a.frag").program == 3
  {
  }

  // ---------------------------------------------------------------------------
  // The shader object

  class Shader {
    var shaderProgram: Handle
    var uniformLocations: map<string, int>
    /// Every call issued to the loader and the driver, oldest first.
    ghost var calls: seq<GlCall>

    ghost predicate Valid()
      reads this
    {
      NoSentinel(uniformLocations)
    }

    /// Reads and compiles the two stages, links them and deletes the stages,
    /// returning early (program 0) when a stage fails.
    constructor (vertexShaderFilePath: string, fragmentShaderFilePath: string, d: Driver)
      ensures Valid() && uniformLocations == map[]
      ensures shaderProgram == Construct(d, vertexShaderFilePath, fragmentShaderFilePath).program
      ensures calls == Construct(d, vertexShaderFilePath, fragmentShaderFilePath).calls
    {
      shaderProgram := 0;
      uniformLocations := map[];
      calls := [];
      new;
      ghost var v := CompileStage(d, vertexShaderFilePath, VertexShader);
      ghost var f := CompileStage(d, vertexShaderFilePath, FragmentShader);
      var vsOk, vs := CreateAndCompileShader(vertexShaderFilePath, VertexShader, d);
      assert calls == v.calls;
      if !vsOk {
        assert Construct(d, vertexShaderFilePath, fragmentShaderFilePath) == Built(0, v.calls);
        return;
      }
      // As written in the source: the fragment stage is read from the vertex path.
      var fsOk, fs := CreateAndCompileShader(vertexShaderFilePath, FragmentShader, d);
      if !fsOk {
        assert Construct(d, vertexShaderFilePath, fragmentShaderFilePath) == Built(0, v.calls + f.calls);
        return;
      }
      assert Construct(d, vertexShaderFilePath, fragmentShaderFilePath) == LinkAndRelease(d, v, f);
      shaderProgram := d.createProgram;
      // create, attach, link and query; a link failure only fetches the info log
      calls := calls + LinkCalls(d, shaderProgram, vs, fs);
      calls := calls + [DeleteShader(vs), DeleteShader(fs)];
    }

    /// The destructor: releases the program object.
    method Destroy()
      modifies this`calls
      ensures calls == old(calls) + [DeleteProgram(shaderProgram)]
    {
      calls := calls + [DeleteProgram(shaderProgram)];
    }

    /// Binds the program (program 0 unbinds).
    method Use()
      modifies this`calls
      ensures calls == old(calls) + [UseProgram(shaderProgram)]
    {
      calls := calls + [UseProgram(shaderProgram)];
    }

    /// Sets a uniform from a vector of 1 to 4 floats; any other count is
    /// refused after the lookup.
    method SetUniformWithFloat(uniformName: string, floats: seq<Float>, d: Driver) returns (ok: bool)
      requires Valid()
      modifies this`uniformLocations, this`calls
      ensures Valid()
      ensures var r := LookupUniform(old(uniformLocations), shaderProgram, uniformName,
                                     d.uniformLocation(shaderProgram, uniformName));
        && uniformLocations == r.cache
        && (ok <==> r.loc != NotFound && 1 <= |floats| <= 4)
        && calls == old(calls) + r.calls + (if ok then [UniformCall(r.loc, floats)] else [])
    {
      var loc := GetUniformLocation(uniformName, d);
      if loc == NotFound {
        return false;
      }
      var size := |floats|;
      if size == 1 {
        calls := calls + [Uniform1f(loc, floats[0])];
        return true;
      }
      if size == 2 {
        calls := calls + [Uniform2f(loc, floats[0], floats[1])];
        return true;
      }
      if size == 3 {
        calls := calls + [Uniform3f(loc, floats[0], floats[1], floats[2])];
        return true;
      }
      if size == 4 {
        calls := calls + [Uniform4f(loc, floats[0], floats[1], floats[2], floats[3])];
        return true;
      }
      return false;
    }

    /// Sets a uniform from 1 to 4 discrete float arguments; the count is fixed
    /// at the call site, so it is a precondition.
    method SetUniformWithFloatArgs(uniformName: string, args: seq<Float>, d: Driver) returns (ok: bool)
      requires 1 <= |args| <= 4
      requires Valid()
      modifies this`uniformLocations, this`calls
      ensures Valid()
      ensures var r := LookupUniform(old(uniformLocations), shaderProgram, uniformName,
                                     d.uniformLocation(shaderProgram, uniformName));
        && uniformLocations == r.cache
        && (ok <==> r.loc != NotFound)
        && calls == old(calls) + r.calls + (if ok then [UniformCall(r.loc, args)] else [])
    {
      var loc := GetUniformLocation(uniformName, d);
      if loc == NotFound {
        return false;
      }
      calls := calls + [UniformCall(loc, args)];
      return true;
    }

    /// `CreateAndComplieShader` in the source. Reads one stage's source and
    /// compiles it; `outShader` is 0 when the source is empty and the created
    /// object otherwise, even on failure.
    method CreateAndCompileShader(shaderFilePath: string, shaderType: StageType, d: Driver)
      returns (ok: bool, outShader: Handle)
      modifies this`calls
      ensures var r := CompileStage(d, shaderFilePath, shaderType);
        ok == r.ok && outShader == r.handle && calls == old(calls) + r.calls
    {
      outShader := 0;
      var source := d.readFile(shaderFilePath);
      calls := calls + [ReadFile(shaderFilePath)];
      if source == [] {
        return false, outShader;
      }
      outShader := d.createShader(shaderType);
      calls := calls + [CreateShader(shaderType, outShader), ShaderSource(outShader, source),
                        CompileShader(outShader), GetCompileStatus(outShader)];
      if !d.compiles(shaderType, source) {
        calls := calls + [GetShaderInfoLog(outShader)];
        return false, outShader;
      }
      return true, outShader;
    }

    /// The cached location of a uniform, asking the driver only on a miss and
    /// caching only a found location.
    method GetUniformLocation(uniformName: string, d: Driver) returns (loc: int)
      requires Valid()
      modifies this`uniformLocations, this`calls
      ensures Valid()
      ensures var r := LookupUniform(old(uniformLocations), shaderProgram, uniformName,
                                     d.uniformLocation(shaderProgram, uniformName));
        loc == r.loc && uniformLocations == r.cache && calls == old(calls) + r.calls
    {
      if uniformName in uniformLocations {
        return uniformLocations[uniformName];
      }
      loc := d.uniformLocation(shaderProgram, uniformName);
      calls := calls + [UniformLocationQuery(shaderProgram, uniformName)];
      if loc != NotFound {
        uniformLocations := uniformLocations[uniformName := loc];
      }
    }
  }
}
