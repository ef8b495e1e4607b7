/** The frame driver of the Aphelion host: the command line, the checks on
    the loaded configuration, the engine with its `should_quit` flag and the
    `quit` closure, the guarded calls of the script's hooks, and the
    `game_init` / `game_update` + `game_draw` loop / `game_shutdown`
    sequence. Lua is abstract: what a script does when it is run or one of
    its hooks is called is given as a `Chunk` or `Hook` value, and what the
    host does that is visible outside is recorded as `Action`s. */
module Host {
  import opened CString
  import opened AphConfig

  // -------------------------------------------------------- command line

  datatype Command = Help | Version | BadOption(arg: string) | Run(path: string)

  const DEFAULT_CONFIG_PATH := ".aphdat"

  /** An argument `main` takes as the configuration path: one that does not
      start with '-' (the empty argument included). */
  predicate Plain(a: string) {
    a == [] || a[0] != '-'
  }

  /** An argument the first pass skips: a path, or a flag the second pass reads. */
  predicate Continues(a: string) {
    Plain(a) || a == "--debug" || a == "--inf"
  }

  /** The command an argument that ends the first pass selects. */
  function StopAt(a: string): (c: Command)
    ensures !c.Run?
  {
    if a == "-h" || a == "--help" then Help
    else if a == "-v" || a == "--version" then Version
    else BadOption(a)
  }

  /** The first pass over `argv[i..]` with `path` chosen so far. */
  function ParseFrom(argv: seq<string>, i: nat, path: string): Command
    decreases |argv| - i
  {
    if i >= |argv| then Run(path)
    else if !Continues(argv[i]) then StopAt(argv[i])
    else ParseFrom(argv, i + 1, if Plain(argv[i]) then argv[i] else path)
  }

  function ParseCommandLine(argv: seq<string>): Command {
    ParseFrom(argv, 1, DEFAULT_CONFIG_PATH)
  }

  /** The last plain argument in `argv[i..]`, or `path` if there is none. */
  function LastPlain(argv: seq<string>, i: nat, path: string): (p: string)
    decreases |argv| - i
  {
    if i >= |argv| then path
    else if Plain(argv[|argv| - 1]) then argv[|argv| - 1]
    else LastPlain(argv[..|argv| - 1], i, path)
  }

  /** The engine runs exactly when every argument is a path, `--debug` or
      `--inf`, and then with the last path given, or ".aphdat". */
  lemma {:induction false} ParseRuns(argv: seq<string>, i: nat, path: string)
    ensures ParseFrom(argv, i, path).Run? <==> forall k :: i <= k < |argv| ==> Continues(argv[k])
    ensures ParseFrom(argv, i, path).Run? ==> ParseFrom(argv, i, path).path == LastPlain(argv, i, path)
    decreases |argv| - i
  {
    if i < |argv| && Continues(argv[i]) {
      var next := if Plain(argv[i]) then argv[i] else path;
      ParseRuns(argv, i + 1, next);
      if ParseFrom(argv, i, path).Run? {
        LastPlainStep(argv, i, path);
      }
    }
  }

  /** `LastPlain` read from the front: the first argument is a path
      candidate that any later one replaces. */
  lemma {:induction false} LastPlainStep(argv: seq<string>, i: nat, path: string)
    requires i < |argv| && forall k :: i <= k < |argv| ==> Continues(argv[k])
    ensures LastPlain(argv, i, path) == LastPlain(argv, i + 1, if Plain(argv[i]) then argv[i] else path)
    decreases |argv|
  {
    if i + 1 < |argv| && !Plain(argv[|argv| - 1]) {
      LastPlainStep(argv[..|argv| - 1], i, path);
    }
  }

  /** The first argument that is neither a path nor a known flag decides:
      help, version, or an unknown option. */
  lemma {:induction false} ParseStops(argv: seq<string>, i: nat, path: string, j: nat)
    requires i <= j < |argv| && !Continues(argv[j])
    requires forall k :: i <= k < j ==> Continues(argv[k])
    ensures ParseFrom(argv, i, path) == StopAt(argv[j])
    decreases j - i
  {
    if i < j {
      ParseStops(argv, i + 1, if Plain(argv[i]) then argv[i] else path, j);
    }
  }

  /** The first `for` loop of `main`. */
  method ParseArgs(argv: seq<string>) returns (cmd: Command)
    ensures cmd == ParseCommandLine(argv)
  {
    var path := DEFAULT_CONFIG_PATH;
    var i := 1;
    while i < |argv|
      invariant 1 <= i && ParseFrom(argv, i, path) == ParseCommandLine(argv)
      decreases |argv| - i
    {
      var a := argv[i];
      if a == "-h" || a == "--help" {
        return Help;
      } else if a == "-v" || a == "--version" {
        return Version;
      } else if a == [] || a[0] != '-' {
        path := a;
      } else if a == "--debug" {
      } else if a == "--inf" {
      } else {
        return BadOption(a);
      }
      i := i + 1;
    }
    return Run(path);
  }

  /** Does any argument after the program name and before position `i` equal `flag`? */
  predicate FlagBefore(argv: seq<string>, flag: string, i: nat) {
    exists k :: 1 <= k < i && k < |argv| && argv[k] == flag
  }

  /** Does any argument after the program name equal `flag`? */
  predicate HasFlag(argv: seq<string>, flag: string) {
    FlagBefore(argv, flag, |argv|)
  }

  // ---------------------------------------------------------- the script

  /** One call of a global the host looks up: whether it is a function, and
      if so whether it calls `engine.quit()` and whether it raises an error. */
  datatype Hook = Hook(defined: bool, quits: bool, fails: bool)

  /** Running the script file with `luaL_dofile`: whether its top level calls
      `engine.quit()` and whether loading or running it fails. */
  datatype Chunk = Chunk(quits: bool, fails: bool)

  /** What the script does for each host call; `update` and `draw` by frame number. */
  datatype Script = Script(run: Chunk, init: Hook, update: nat -> Hook, draw: nat -> Hook, shutdown: Hook)

  /** The globals the host calls. */
  datatype HookName = GameInit | GameUpdate | GameDraw | GameShutdown

  /** What the host does that can be observed: hook calls, reported errors,
      the frame's drawing, diagnostics and window set-up. */
  datatype Action =
    | Called(name: HookName) | Reported(name: HookName)
    | Cleared | NoScriptText | DebugOverlay
    | Usage | VersionText | UnknownOption(arg: string)
    | InvalidDimensions | InvalidFps | NoScriptWarning | ApiMismatch
    | SetFlags(resizable: bool, vsync: bool) | OpenWindow(width: int, height: int, title: string)
    | Fullscreen | TargetFps(fps: int) | ExitKey(key: int)
    | EngineFailed | ScriptLoaded | ScriptFailed | WindowClosed

  /** What `engine_call_lua_function*` does for one hook: call it if it is a
      function and report an error it raises; skip it otherwise. */
  function HookActions(name: HookName, h: Hook): (acts: seq<Action>)
    ensures h.defined <==> Called(name) in acts
    ensures Reported(name) in acts <==> h.defined && h.fails
  {
    if !h.defined then []
    else [Called(name)] + (if h.fails then [Reported(name)] else [])
  }

  predicate HookQuits(h: Hook) {
    h.defined && h.quits
  }

  // ------------------------------------------------------------ frames

  /** What does not change from frame to frame. */
  datatype Env = Env(loaded: bool, ignoreNotFound: int, debug: bool, script: Script)

  /** One pass through the loop body. */
  function FrameActions(env: Env, n: nat): seq<Action> {
    (if env.loaded then HookActions(GameUpdate, env.script.update(n)) else [])
    + [Cleared]
    + (if env.loaded then HookActions(GameDraw, env.script.draw(n))
       else if env.ignoreNotFound == 0 then [NoScriptText] else [])
    + (if env.debug then [DebugOverlay] else [])
  }

  /** Does frame `n` ask to quit? Only a loaded script's hooks can. */
  predicate FrameQuits(env: Env, n: nat) {
    env.loaded && (HookQuits(env.script.update(n)) || HookQuits(env.script.draw(n)))
  }

  /** The main loop from frame `n` on, while the window stays open (it is
      closed from frame `closeAt` on) and `should_quit` is clear. */
  function Loop(env: Env, n: nat, closeAt: nat, quit: bool): seq<Action>
    decreases closeAt - n
  {
    if quit || n >= closeAt then []
    else FrameActions(env, n) + Loop(env, n + 1, closeAt, FrameQuits(env, n))
  }

  /** One more frame of the loop. */
  lemma LoopStep(env: Env, n: nat, closeAt: nat)
    requires n < closeAt
    ensures Loop(env, n, closeAt, false) == FrameActions(env, n) + Loop(env, n + 1, closeAt, FrameQuits(env, n))
  {
  }

  /** The number of frames the loop runs. */
  function FramesRun(env: Env, n: nat, closeAt: nat, quit: bool): (k: nat)
    ensures k <= closeAt - n || k == 0
    decreases closeAt - n
  {
    if quit || n >= closeAt then 0
    else 1 + FramesRun(env, n + 1, closeAt, FrameQuits(env, n))
  }

  /** The loop stops after the first frame that asks to quit: if frames `n`
      to `m - 1` do not ask and frame `m` does, frame `m` is the last. */
  lemma {:induction false} LoopStopsAfterQuit(env: Env, n: nat, m: nat, closeAt: nat)
    requires n <= m < closeAt && FrameQuits(env, m)
    requires forall k :: n <= k < m ==> !FrameQuits(env, k)
    ensures FramesRun(env, n, closeAt, false) == m - n + 1
    decreases m - n
  {
    if n < m {
      LoopStopsAfterQuit(env, n + 1, m, closeAt);
    }
  }

  /** Without a loaded script nothing asks to quit, so the loop runs until
      the window is closed, and it never calls a hook. */
  lemma {:induction false} UnloadedLoop(env: Env, n: nat, closeAt: nat)
    requires !env.loaded
    ensures FramesRun(env, n, closeAt, false) == if n <= closeAt then closeAt - n else 0
    ensures forall a :: a in Loop(env, n, closeAt, false) ==> !a.Called?
    decreases closeAt - n
  {
    if n < closeAt {
      UnloadedLoop(env, n + 1, closeAt);
    }
  }

  /** Within every frame of a loaded script, `game_update` is called before
      `game_draw`. */
  lemma UpdateBeforeDraw(env: Env, n: nat)
    requires env.loaded && env.script.update(n).defined && env.script.draw(n).defined
    ensures var acts := FrameActions(env, n);
      exists i, j :: 0 <= i < j < |acts| && acts[i] == Called(GameUpdate) && acts[j] == Called(GameDraw)
  {
    var acts := FrameActions(env, n);
    assert acts[0] == Called(GameUpdate);
    var u := HookActions(GameUpdate, env.script.update(n));
    assert acts[|u| + 1] == Called(GameDraw);
  }

  /** The number of times an action occurs. */
  function Count(acts: seq<Action>, a: Action): nat {
    multiset(acts)[a]
  }

  /** Every frame of a loaded script whose hooks are all functions calls
      `game_update` and `game_draw` once each, so the loop calls each of them
      once per frame run; the loop never calls `game_init` or `game_shutdown`. */
  lemma LoopCallCounts(env: Env, n: nat, closeAt: nat, quit: bool)
    requires env.loaded
    requires forall k :: env.script.update(k).defined && env.script.draw(k).defined
    ensures Count(Loop(env, n, closeAt, quit), Called(GameUpdate)) == FramesRun(env, n, closeAt, quit)
    ensures Count(Loop(env, n, closeAt, quit), Called(GameDraw)) == FramesRun(env, n, closeAt, quit)
    ensures Count(Loop(env, n, closeAt, quit), Called(GameInit)) == 0
    ensures Count(Loop(env, n, closeAt, quit), Called(GameShutdown)) == 0
  {
    LoopHookCount(env, n, closeAt, quit, GameUpdate);
    LoopHookCount(env, n, closeAt, quit, GameDraw);
    LoopHookCount(env, n, closeAt, quit, GameInit);
    LoopHookCount(env, n, closeAt, quit, GameShutdown);
  }

  lemma {:induction false} LoopHookCount(env: Env, n: nat, closeAt: nat, quit: bool, name: HookName)
    requires env.loaded
    requires forall k :: env.script.update(k).defined && env.script.draw(k).defined
    ensures Count(Loop(env, n, closeAt, quit), Called(name))
      == if name == GameUpdate || name == GameDraw then FramesRun(env, n, closeAt, quit) else 0
    decreases closeAt - n
  {
    if !quit && n < closeAt {
      LoopHookCount(env, n + 1, closeAt, FrameQuits(env, n), name);
      FrameCallCounts(env, n, name);
      LoopCountStep(env, n, closeAt, Called(name));
    }
  }

  /** The occurrences of an action in the loop: those of the first frame
      and those of the rest. */
  lemma LoopCountStep(env: Env, n: nat, closeAt: nat, a: Action)
    requires n < closeAt
    ensures Count(Loop(env, n, closeAt, false), a)
      == Count(FrameActions(env, n), a) + Count(Loop(env, n + 1, closeAt, FrameQuits(env, n)), a)
  {
    LoopStep(env, n, closeAt);
  }

  /** A hook's actions hold one call of that hook if it is a function, and
      no call of any other hook. */
  lemma HookCallCount(name: HookName, h: Hook, other: HookName)
    ensures Count(HookActions(name, h), Called(other)) == if h.defined && name == other then 1 else 0
  {
    if h.defined {
      assert HookActions(name, h) == [Called(name)] + (if h.fails then [Reported(name)] else []);
    }
  }

  lemma FrameCallCounts(env: Env, n: nat, name: HookName)
    requires env.loaded && env.script.update(n).defined && env.script.draw(n).defined
    ensures Count(FrameActions(env, n), Called(name)) == if name == GameUpdate || name == GameDraw then 1 else 0
  {
    var u := HookActions(GameUpdate, env.script.update(n));
    var d := HookActions(GameDraw, env.script.draw(n));
    var tail := if env.debug then [DebugOverlay] else [];
    assert FrameActions(env, n) == u + [Cleared] + d + tail;
    HookCallCount(GameUpdate, env.script.update(n), name);
    HookCallCount(GameDraw, env.script.draw(n), name);
    assert multiset(FrameActions(env, n)) == multiset(u) + multiset([Cleared]) + multiset(d) + multiset(tail);
  }

  // ------------------------------------------------------------ engine

  /** A slot of the Lua stack, as far as the host's hook calls touch it. */
  datatype Slot = FunctionValue | OtherValue | NumberValue | ErrorMessage

  /** `Engine`: the Lua state (its stack), `should_quit`, the debug flags,
      and the actions it has taken. */
  class Engine {
    var stack: seq<Slot>
    var shouldQuit: bool
    var debug: bool
    var ignoreNotFound: int
    var quit: QuitClosure?
    var trace: seq<Action>

    /** The `quit` closure is registered with this engine as its upvalue. */
    predicate Registered()
      reads this, quit
    {
      quit != null && quit.engine == this
    }

    /** `engine_init` followed by `engine_register_functions`: a fresh Lua
        state, the debug flag and `should_quit` cleared, and the `quit`
        closure created over this engine. `ignore_not_found` is set to 0. */
    constructor Init()
      ensures Registered() && fresh(quit)
      ensures stack == [] && !shouldQuit && !debug && ignoreNotFound == 0 && trace == []
    {
      stack, shouldQuit, debug, ignoreNotFound, trace := [], false, false, 0, [];
      new;
      quit := new QuitClosure(this);
      shouldQuit := false;
    }

    /** `engine_call_lua_function(engine, name)`, or with `withArg` set the
        `_arg` variant that passes the frame time: push the global; if it is a
        function, `lua_pcall` it (the script may call `engine.quit()`) and on
        error report and pop the message; otherwise pop the value. */
    method CallHook(name: HookName, h: Hook, withArg: bool)
      requires Registered()
      modifies this
      ensures Registered() && quit == old(quit)
      ensures stack == old(stack)
      ensures trace == old(trace) + HookActions(name, h)
      ensures shouldQuit == (old(shouldQuit) || HookQuits(h))
      ensures debug == old(debug) && ignoreNotFound == old(ignoreNotFound)
    {
      stack := stack + [if h.defined then FunctionValue else OtherValue];
      if h.defined {
        if withArg {
          stack := stack + [NumberValue];
          stack := stack[..|stack| - 1];
        }
        stack := stack[..|stack| - 1];
        trace := trace + [Called(name)];
        if h.quits {
          quit.Call();
        }
        if h.fails {
          stack := stack + [ErrorMessage];
          trace := trace + [Reported(name)];
          stack := stack[..|stack| - 1];
        }
      } else {
        stack := stack[..|stack| - 1];
      }
    }

    /** `engine_run_script`: run the file; on failure report and pop the
        error message. The chunk may call `engine.quit()` before it ends. */
    method RunScript(chunk: Chunk) returns (loaded: bool)
      requires Registered()
      modifies this
      ensures Registered() && quit == old(quit)
      ensures loaded == !chunk.fails
      ensures stack == old(stack)
      ensures shouldQuit == (old(shouldQuit) || chunk.quits)
      ensures trace == old(trace) + [if chunk.fails then ScriptFailed else ScriptLoaded]
      ensures debug == old(debug) && ignoreNotFound == old(ignoreNotFound)
    {
      if chunk.quits {
        quit.Call();
      }
      if chunk.fails {
        stack := stack + [ErrorMessage];
        stack := stack[..|stack| - 1];
        trace := trace + [ScriptFailed];
        return false;
      }
      trace := trace + [ScriptLoaded];
      return true;
    }

    /** The second `for` loop of `main`: `--debug` sets `debug`, `--inf` sets
        `ignore_not_found`. */
    method ReadFlags(argv: seq<string>)
      modifies this
      ensures debug == (old(debug) || HasFlag(argv, "--debug"))
      ensures ignoreNotFound == (if HasFlag(argv, "--inf") then 1 else old(ignoreNotFound))
      ensures stack == old(stack) && shouldQuit == old(shouldQuit) && quit == old(quit) && trace == old(trace)
    {
      var i := 1;
      while i < |argv|
        invariant 1 <= i && (i <= |argv| || i == 1)
        invariant debug == (old(debug) || FlagBefore(argv, "--debug", i))
        invariant ignoreNotFound == if FlagBefore(argv, "--inf", i) then 1 else old(ignoreNotFound)
        invariant stack == old(stack) && shouldQuit == old(shouldQuit) && quit == old(quit) && trace == old(trace)
        decreases |argv| - i
      {
        if argv[i] == "--debug" {
          debug := true;
        } else if argv[i] == "--inf" {
          ignoreNotFound := 1;
        }
        i := i + 1;
      }
    }

    /** One pass through the body of the `while` loop of `main`: call
        `game_update`, clear the screen, then call `game_draw` or show the
        no-script text, then the debug overlay. */
    method RunFrame(env: Env, n: nat)
      requires Registered()
      requires env.ignoreNotFound == ignoreNotFound && env.debug == debug
      modifies this
      ensures Registered() && quit == old(quit) && stack == old(stack)
      ensures env.ignoreNotFound == ignoreNotFound && env.debug == debug
      ensures trace == old(trace) + FrameActions(env, n)
      ensures shouldQuit == (old(shouldQuit) || FrameQuits(env, n))
    {
      if env.loaded {
        CallHook(GameUpdate, env.script.update(n), true);
      }
      trace := trace + [Cleared];
      if env.loaded {
        CallHook(GameDraw, env.script.draw(n), false);
      } else if ignoreNotFound == 0 {
        trace := trace + [NoScriptText];
      }
      if debug {
        trace := trace + [DebugOverlay];
      }
      FrameParts(old(trace), if env.loaded then HookActions(GameUpdate, env.script.update(n)) else [],
        if env.loaded then HookActions(GameDraw, env.script.draw(n)) else if ignoreNotFound == 0 then [NoScriptText] else [],
        if debug then [DebugOverlay] else []);
    }

    /** The `while` loop of `main`, the window closing from frame `closeAt`
        on: frames run until the window closes or `should_quit` is set. */
    method RunLoop(env: Env, closeAt: nat) returns (frames: nat)
      requires Registered()
      requires env.ignoreNotFound == ignoreNotFound && env.debug == debug
      modifies this
      ensures Registered() && quit == old(quit) && stack == old(stack)
      ensures trace == old(trace) + Loop(env, 0, closeAt, old(shouldQuit))
      ensures frames == FramesRun(env, 0, closeAt, old(shouldQuit))
      ensures shouldQuit || frames == closeAt
    {
      frames := 0;
      ghost var start := shouldQuit;
      ghost var done: seq<Action> := [];
      while frames < closeAt && !shouldQuit
        invariant Registered() && quit == old(quit) && stack == old(stack)
        invariant env.ignoreNotFound == ignoreNotFound && env.debug == debug
        invariant frames <= closeAt
        invariant trace == old(trace) + done
        invariant LoopedUpTo(env, closeAt, start, done, frames, shouldQuit)
        decreases closeAt - frames
      {
        done := Advance(env, closeAt, start, old(trace), done, frames);
        frames := frames + 1;
      }
      LoopedEnd(env, closeAt, start, done, frames, shouldQuit);
    }

    /** One iteration of the `while` loop, and how far the loop has got. */
    method Advance(env: Env, closeAt: nat, ghost start: bool, ghost base: seq<Action>, ghost done: seq<Action>, frames: nat)
      returns (ghost next: seq<Action>)
      requires Registered()
      requires env.ignoreNotFound == ignoreNotFound && env.debug == debug
      requires frames < closeAt && !shouldQuit
      requires trace == base + done && LoopedUpTo(env, closeAt, start, done, frames, shouldQuit)
      modifies this
      ensures Registered() && quit == old(quit) && stack == old(stack)
      ensures env.ignoreNotFound == ignoreNotFound && env.debug == debug
      ensures trace == base + next && LoopedUpTo(env, closeAt, start, next, frames + 1, shouldQuit)
    {
      LoopedStep(env, closeAt, start, done, frames);
      ghost var before := trace;
      RunFrame(env, frames);
      next := done + FrameActions(env, frames);
      Associative(base, done, FrameActions(env, frames));
    }
  }

  lemma FrameParts(t: seq<Action>, u: seq<Action>, d: seq<Action>, o: seq<Action>)
    ensures t + u + [Cleared] + d + o == t + (u + [Cleared] + d + o)
  {
  }

  lemma Associative(a: seq<Action>, b: seq<Action>, c: seq<Action>)
    ensures a + b + c == a + (b + c)
  {
  }

  /** The loop so far: `done` is what the first `frames` frames did, and the
      rest of the loop carries on from there. */
  ghost predicate LoopedUpTo(env: Env, closeAt: nat, start: bool, done: seq<Action>, frames: nat, quit: bool) {
    Loop(env, 0, closeAt, start) == done + Loop(env, frames, closeAt, quit)
    && FramesRun(env, 0, closeAt, start) == frames + FramesRun(env, frames, closeAt, quit)
  }

  lemma LoopedStep(env: Env, closeAt: nat, start: bool, done: seq<Action>, frames: nat)
    requires frames < closeAt && LoopedUpTo(env, closeAt, start, done, frames, false)
    ensures LoopedUpTo(env, closeAt, start, done + FrameActions(env, frames), frames + 1, FrameQuits(env, frames))
  {
    LoopStep(env, frames, closeAt);
  }

  lemma LoopedEnd(env: Env, closeAt: nat, start: bool, done: seq<Action>, frames: nat, quit: bool)
    requires frames <= closeAt && (quit || frames == closeAt)
    requires LoopedUpTo(env, closeAt, start, done, frames, quit)
    ensures Loop(env, 0, closeAt, start) == done && FramesRun(env, 0, closeAt, start) == frames
  {
    assert Loop(env, frames, closeAt, quit) == [];
  }

  /** The C closure `l_request_quit` with the engine as its upvalue. */
  class QuitClosure {
    const engine: Engine?

    constructor (engine: Engine?)
      ensures this.engine == engine
    {
      this.engine := engine;
    }

    /** `engine.quit()`: set `should_quit` on the captured engine, if any,
        and touch nothing else. */
    method Call()
      modifies if engine != null then {engine} else {}
      ensures engine != null ==> engine.shouldQuit
      ensures engine != null ==>
        (engine.stack == old(engine.stack) && engine.trace == old(engine.trace) &&
         engine.debug == old(engine.debug) && engine.ignoreNotFound == old(engine.ignoreNotFound) &&
         engine.quit == old(engine.quit))
    {
      if engine != null {
        engine.shouldQuit := true;
      }
    }
  }

  // ------------------------------------------------------------- main

  /** The warnings `main` prints about a configuration it accepts. */
  function Warnings(c: Config): seq<Action> {
    (if c.script == [] then [NoScriptWarning] else [])
    + (if c.apiVersion == [] || c.apiVersion != VERSION then [ApiMismatch] else [])
  }

  /** Opening the window the configuration describes. */
  function Window(c: Config): seq<Action> {
    (if c.resizable || c.vsync then [SetFlags(c.resizable, c.vsync)] else [])
    + [OpenWindow(c.width, c.height, c.title)]
    + (if c.fullscreen then [Fullscreen] else [])
    + [TargetFps(c.fps), ExitKey(c.exitKey)]
  }

  /** Does the script run and load? Only when the configuration names one. */
  predicate Loaded(c: Config, script: Script) {
    c.script != [] && !script.run.fails
  }

  /** The frame loop's fixed parameters for a session. */
  function SessionEnv(argv: seq<string>, c: Config, script: Script): Env {
    Env(Loaded(c, script), if HasFlag(argv, "--inf") then 1 else 0, HasFlag(argv, "--debug"), script)
  }

  /** `should_quit` when the loop starts: the script's top level or
      `game_init` may already have called `engine.quit()`. */
  predicate QuitBeforeLoop(c: Config, script: Script) {
    (c.script != [] && script.run.quits) || (Loaded(c, script) && HookQuits(script.init))
  }

  /** Running the script the configuration names, if it names one. */
  function ScriptActions(c: Config, script: Script): seq<Action> {
    if c.script == [] then [] else [if script.run.fails then ScriptFailed else ScriptLoaded]
  }

  /** `game_init`, called only when the script loaded. */
  function InitActions(c: Config, script: Script): seq<Action> {
    if Loaded(c, script) then HookActions(GameInit, script.init) else []
  }

  /** `game_shutdown`, called only when the script loaded. */
  function ShutdownActions(c: Config, script: Script): seq<Action> {
    if Loaded(c, script) then HookActions(GameShutdown, script.shutdown) else []
  }

  /** Everything from running the script to `game_shutdown`. */
  function Play(argv: seq<string>, c: Config, script: Script, closeAt: nat): seq<Action> {
    ScriptActions(c, script) + InitActions(c, script)
    + Loop(SessionEnv(argv, c, script), 0, closeAt, QuitBeforeLoop(c, script))
    + ShutdownActions(c, script)
  }

  /** `main` once the configuration is loaded. */
  function Launch(argv: seq<string>, c: Config, script: Script, closeAt: nat, allocates: bool): (int, seq<Action>) {
    if c.width <= 0 || c.height <= 0 then (1, [InvalidDimensions])
    else if c.fps <= 0 then (1, [InvalidFps])
    else if !allocates then (1, Warnings(c) + Window(c) + [EngineFailed, WindowClosed])
    else (0, Warnings(c) + Window(c) + Play(argv, c, script, closeAt) + [WindowClosed])
  }

  /** A whole run of `main`: the exit status and the actions, given the
      command line, the files (`None` where a file cannot be opened), what
      the script does, the frame from which the window is closed, and
      whether creating the engine succeeds. */
  function Session(argv: seq<string>, files: string -> Option<string>, script: Script, closeAt: nat, allocates: bool)
    : (int, seq<Action>)
  {
    match ParseCommandLine(argv)
    case Help => (0, [Usage])
    case Version => (0, [VersionText])
    case BadOption(a) => (1, [UnknownOption(a)])
    case Run(path) => Launch(argv, Load(files(path)), script, closeAt, allocates)
  }

  /** The configuration checks of `main` never fail: a loaded configuration
      always has a positive size and frame rate, so `main` exits with 1
      only for an unknown option or when the engine cannot be created. */
  lemma SessionExit(argv: seq<string>, files: string -> Option<string>, script: Script, closeAt: nat, allocates: bool)
    ensures var r := Session(argv, files, script, closeAt, allocates);
      && r.1 != [InvalidDimensions] && r.1 != [InvalidFps]
      && (r.0 == 1 <==> ParseCommandLine(argv).BadOption? || (ParseCommandLine(argv).Run? && !allocates))
      && (r.0 == 0 || r.0 == 1)
  {
    match ParseCommandLine(argv)
    case Run(path) =>
      LoadWellformed(files(path));
    case _ =>
  }

  /** The loop never calls `game_init` or `game_shutdown`. */
  lemma {:induction false} LoopCallsNoInit(env: Env, n: nat, closeAt: nat, quit: bool)
    ensures Count(Loop(env, n, closeAt, quit), Called(GameInit)) == 0
    ensures Count(Loop(env, n, closeAt, quit), Called(GameShutdown)) == 0
    decreases closeAt - n
  {
    if !quit && n < closeAt {
      LoopCallsNoInit(env, n + 1, closeAt, FrameQuits(env, n));
      FrameCallsNoInit(env, n, GameInit);
      FrameCallsNoInit(env, n, GameShutdown);
      LoopCountStep(env, n, closeAt, Called(GameInit));
      LoopCountStep(env, n, closeAt, Called(GameShutdown));
    }
  }

  lemma FrameCallsNoInit(env: Env, n: nat, name: HookName)
    requires name == GameInit || name == GameShutdown
    ensures Count(FrameActions(env, n), Called(name)) == 0
  {
    var u := if env.loaded then HookActions(GameUpdate, env.script.update(n)) else [];
    var d := if env.loaded then HookActions(GameDraw, env.script.draw(n))
      else if env.ignoreNotFound == 0 then [NoScriptText] else [];
    var tail := if env.debug then [DebugOverlay] else [];
    assert FrameActions(env, n) == u + [Cleared] + d + tail;
    HookCallCount(GameUpdate, env.script.update(n), name);
    HookCallCount(GameDraw, env.script.draw(n), name);
    assert multiset(FrameActions(env, n)) == multiset(u) + multiset([Cleared]) + multiset(d) + multiset(tail);
  }

  /** `game_init` and `game_shutdown` are each called at most once in a
      session, and exactly once when the script loaded and defines them. */
  lemma PlayCallCounts(argv: seq<string>, c: Config, script: Script, closeAt: nat)
    ensures Count(Play(argv, c, script, closeAt), Called(GameInit)) == if Loaded(c, script) && script.init.defined then 1 else 0
    ensures Count(Play(argv, c, script, closeAt), Called(GameShutdown)) == if Loaded(c, script) && script.shutdown.defined then 1 else 0
  {
    var env := SessionEnv(argv, c, script);
    PlayParts(argv, c, script, closeAt);
    LoopCallsNoInit(env, 0, closeAt, QuitBeforeLoop(c, script));
    HookCallCount(GameInit, script.init, GameInit);
    HookCallCount(GameInit, script.init, GameShutdown);
    HookCallCount(GameShutdown, script.shutdown, GameInit);
    HookCallCount(GameShutdown, script.shutdown, GameShutdown);
  }

  /** With a loaded script that defines both, `game_init` is the first
      thing after the script runs and `game_shutdown` the last, followed at
      most by the report of its error. */
  lemma HookOrder(argv: seq<string>, c: Config, script: Script, closeAt: nat)
    requires Loaded(c, script) && script.init.defined && script.shutdown.defined
    ensures var p := Play(argv, c, script, closeAt);
      |p| >= 3 && p[0] == ScriptLoaded && p[1] == Called(GameInit)
      && (p[|p| - 1] == Called(GameShutdown)
          || (p[|p| - 2] == Called(GameShutdown) && p[|p| - 1] == Reported(GameShutdown)))
  {
    var head := ScriptActions(c, script) + InitActions(c, script);
    var loop := Loop(SessionEnv(argv, c, script), 0, closeAt, QuitBeforeLoop(c, script));
    var shut := ShutdownActions(c, script);
    assert head[0] == ScriptLoaded && head[1] == Called(GameInit);
    assert Play(argv, c, script, closeAt) == head + loop + shut;
    assert shut[0] == Called(GameShutdown);
  }

  /** The occurrences of each action in a session are those of its parts. */
  lemma PlayParts(argv: seq<string>, c: Config, script: Script, closeAt: nat)
    ensures multiset(Play(argv, c, script, closeAt))
      == multiset(ScriptActions(c, script)) + multiset(InitActions(c, script))
       + multiset(Loop(SessionEnv(argv, c, script), 0, closeAt, QuitBeforeLoop(c, script)))
       + multiset(ShutdownActions(c, script))
  {
  }

  /** Without a loaded script no hook is ever called. */
  lemma NoScriptNoHooks(argv: seq<string>, c: Config, script: Script, closeAt: nat)
    requires !Loaded(c, script)
    ensures forall a :: a in Play(argv, c, script, closeAt) ==> !a.Called?
  {
    UnloadedLoop(SessionEnv(argv, c, script), 0, closeAt);
  }

  /** Without a loaded script and without `--inf`, every frame until the
      window closes shows the no-script text, unless the script's top level
      asked to quit. */
  lemma NoScriptTextEveryFrame(argv: seq<string>, c: Config, script: Script, closeAt: nat)
    requires !Loaded(c, script) && !HasFlag(argv, "--inf") && !QuitBeforeLoop(c, script)
    ensures Count(Play(argv, c, script, closeAt), NoScriptText) == closeAt
  {
    var env := SessionEnv(argv, c, script);
    assert !env.loaded && env.ignoreNotFound == 0;
    PlayUnloaded(argv, c, script, closeAt);
    UnloadedTextCount(env, 0, closeAt, false);
    UnloadedLoop(env, 0, closeAt);
  }

  /** Without a loaded script, a session is the script's run and the loop. */
  lemma PlayUnloaded(argv: seq<string>, c: Config, script: Script, closeAt: nat)
    requires !Loaded(c, script) && !QuitBeforeLoop(c, script)
    ensures multiset(Play(argv, c, script, closeAt))
      == multiset(ScriptActions(c, script)) + multiset(Loop(SessionEnv(argv, c, script), 0, closeAt, false))
    ensures NoScriptText !in ScriptActions(c, script)
  {
    var load := ScriptActions(c, script);
    var loop := Loop(SessionEnv(argv, c, script), 0, closeAt, false);
    assert Play(argv, c, script, closeAt) == load + [] + loop + [];
  }

  /** Each frame without a script, with `ignore_not_found` clear, shows the text once. */
  lemma {:induction false} UnloadedTextCount(env: Env, n: nat, closeAt: nat, quit: bool)
    requires !env.loaded && env.ignoreNotFound == 0
    ensures Count(Loop(env, n, closeAt, quit), NoScriptText) == FramesRun(env, n, closeAt, quit)
    decreases closeAt - n
  {
    if !quit && n < closeAt {
      UnloadedTextCount(env, n + 1, closeAt, FrameQuits(env, n));
      FrameTextCount(env, n);
      LoopCountStep(env, n, closeAt, NoScriptText);
    }
  }

  lemma FrameTextCount(env: Env, n: nat)
    requires !env.loaded && env.ignoreNotFound == 0
    ensures Count(FrameActions(env, n), NoScriptText) == 1
  {
    var tail := if env.debug then [DebugOverlay] else [];
    assert FrameActions(env, n) == [Cleared] + [NoScriptText] + tail;
    assert multiset(FrameActions(env, n)) == multiset([Cleared]) + multiset([NoScriptText]) + multiset(tail);
  }

  /** `main` from its first line to `return 0`. */
  method ProgramMain(argv: seq<string>, files: string -> Option<string>, script: Script, closeAt: nat, allocates: bool)
    returns (exit: int, acts: seq<Action>)
    ensures (exit, acts) == Session(argv, files, script, closeAt, allocates)
  {
    var cmd := ParseArgs(argv);
    match cmd {
      case Help => return 0, [Usage];
      case Version => return 0, [VersionText];
      case BadOption(a) => return 1, [UnknownOption(a)];
      case Run(path) =>
        var c, _ := LoadFromFile(files(path));
        if c.width <= 0 || c.height <= 0 {
          return 1, [InvalidDimensions];
        }
        if c.fps <= 0 {
          return 1, [InvalidFps];
        }
        acts := Warnings(c) + Window(c);
        if !allocates {
          return 1, acts + [EngineFailed, WindowClosed];
        }
        var played := RunEngine(argv, c, script, closeAt);
        return 0, acts + played + [WindowClosed];
    }
  }

  /** `main` from `engine_init` to `engine_shutdown`. */
  method RunEngine(argv: seq<string>, c: Config, script: Script, closeAt: nat) returns (acts: seq<Action>)
    ensures acts == Play(argv, c, script, closeAt)
  {
    var engine := new Engine.Init();
    engine.ReadFlags(argv);
    var loaded := false;
    if c.script != [] {
      loaded := engine.RunScript(script.run);
    }
    assert loaded == Loaded(c, script);
    assert engine.trace == ScriptActions(c, script);
    if loaded {
      engine.CallHook(GameInit, script.init, false);
    }
    assert engine.trace == ScriptActions(c, script) + InitActions(c, script);
    assert engine.shouldQuit == QuitBeforeLoop(c, script);
    var env := Env(loaded, engine.ignoreNotFound, engine.debug, script);
    assert env == SessionEnv(argv, c, script);
    var frames := engine.RunLoop(env, closeAt);
    if loaded {
      engine.CallHook(GameShutdown, script.shutdown, false);
    }
    acts := engine.trace;
  }

  // ------------------------------------- ignore_not_found as written

  /** `ignore_not_found` as `main` leaves it: `engine_init` never sets it,
      so without `--inf` it keeps whatever the `malloc`ed block held. */
  function IgnoreNotFoundAsWritten(argv: seq<string>, leftover: int): (v: int)
    ensures HasFlag(argv, "--inf") ==> v == 1
    ensures !HasFlag(argv, "--inf") ==> v == leftover
  {
    if HasFlag(argv, "--inf") then 1 else leftover
  }

  /** With no script, no `--inf`, and a non-zero value left in the block,
      the frames do not show the no-script text, although `--inf` was never
      given; with the flag cleared at creation they do. */
  lemma LeftoverHidesNoScriptText(script: Script)
    ensures var argv := ["aphelion"];
      var env := Env(false, IgnoreNotFoundAsWritten(argv, 1), false, script);
      !HasFlag(argv, "--inf") && NoScriptText !in FrameActions(env, 0)
      && NoScriptText in FrameActions(SessionEnv(argv, Defaults(), script), 0)
  {
    var argv := ["aphelion"];
    assert !HasFlag(argv, "--inf");
    assert !HasFlag(argv, "--debug");
  }
}
