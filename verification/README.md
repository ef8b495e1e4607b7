# Aphelion and the Orion prototypes, modelled in Dafny

This project models the logic of two codebases.

**Aphelion** (`Aphelion.c`) is a single-file game host. It reads an `.aphdat`
configuration file, opens a raylib window and runs a Lua script by calling
the script's hooks `game_init`, `game_update`, `game_draw` and `game_shutdown`.
The model covers these parts of it:

- **Configuration loader** (`config.dfy`, module `AphConfig`): `trim_inplace`,
  `parse_key_value`, `parse_bool`, the defaults and the per-line key
  dispatch. A file is its text, read in `fgets` chunks of 1024 bytes
  (`cstring.dfy`, module `CString`).
- **Draw bindings** (`bindings.dfy`, module `Bindings`): how each `l_draw_*`
  binding reads its Lua arguments, which positional defaults it uses, and the
  `CLAMP` of every colour channel into [0, 255].
- **Resource handles** (`resources.dfy`, module `Resources`): texture, sound
  and music userdata with their `valid` flag. A failed load returns nil. The
  `__gc` finaliser unloads once and clears the flag. Every use of an invalid
  handle does nothing.
- **Frame driver** (`host.dfy`, module `Host`): the command line, the
  `should_quit` flag and the `quit` closure, and the guarded hook calls that
  leave the Lua stack balanced. It also covers `main` from argument parsing
  to `engine_shutdown`, as an `Engine` class and as a specification
  (`Session`) of the actions a run takes.

**Orion** is a set of SDL game prototypes. The model covers:

- the asset manifest loader `load_assets_yaml` and `search_assets`
  (`src.c`, `src/yaml.c`; `assets.dfy`);
- `read_tilemap` (`src.c`; `tilemap.dfy`);
- player movement and window clamping (`src.c`, `src.cpp`; `movement.dfy`);
- the C++ `AudioManager` and `Game` (`src.cpp`; `game.dfy`);
- the callback list of `src/engine/event_handler.c` (`event_handler.dfy`);
- the font table of `src/engine/ttf.h` (`fonts.dfy`);
- the line interpreter of `src/script.c` (`script_interp.dfy`).

The native libraries are abstract: Lua, raylib, SDL, SDL_mixer, SDL_ttf and
libyaml.

- A native call is recorded as a value, not performed.
- Whether a load, an open, or the allocation of the engine in `engine_init`, succeeds is a parameter.
- A file is its contents, or `None` when it cannot be opened.
- What a Lua script does when a hook is called is a parameter: whether the
  hook is defined, whether it calls `engine.quit()`, and whether it raises.

Where the code and the engine's own description differ, the model follows
the code:

- The default configuration path is `.aphdat`
  (`Aphelion.c:1078`). The usage text says `game.aphdat`.
- `game_shutdown` is called only when the script loaded
  (`Aphelion.c:1207-1210`).
- The "invalid dimensions" and "invalid FPS" exits can never happen. The
  loader keeps width, height and fps positive (`AphConfig.LoadWellformed`,
  `Host.SessionExit`).

## Model

| member | source | states |
|---|---|---|
| `CString.Truncate` | Aphelion.c:146-147 | a bounded copy that keeps at most `room` characters keeps the longest prefix that fits: the whole text when it fits, otherwise its first `room` characters |
| `CString.ToLower` | Aphelion.c:143 | `tolower` moves exactly 'A'..'Z' down to lower case and keeps every other character |
| `CString.Lower` | Aphelion.c:143 | lower-casing a key keeps its length and applies `tolower` to every character |
| `CString.Find` | Aphelion.c:92-93 | `strchr` returns an index at or after the start that holds the character |
| `CString.FindFirst` | Aphelion.c:92-93 | no earlier index holds the character, and `None` means no index from the start on holds it |
| `CString.FindAt` | Aphelion.c:92-93 | the scan returns the first occurrence of the character |
| `CString.SkipSpace` | Aphelion.c:88 | the leading white-space scan stops within the text, at a non-space or at the end |
| `CString.SkipSpaceSkips` | Aphelion.c:88 | every character the scan passes is white space |
| `CString.SkipSpaceAt` | Aphelion.c:88 | the scan stops at the first non-white-space character |
| `CString.BackOverSpace` | Aphelion.c:96 | the trailing white-space scan stays in range and stops after a non-space |
| `CString.BackOverSpaceSkips` | Aphelion.c:96 | every character the backward scan passes is white space |
| `CString.BackOverSpaceAt` | Aphelion.c:96 | the backward scan stops right after the last non-white-space character |
| `CString.DigitsEnd` | Aphelion.c:149 | the digit run `atoi` reads ends at a non-digit or at the end of the text |
| `CString.Decimal` | Aphelion.c:149 | the decimal text of a number is non-empty and all digits |
| `CString.DecimalValue` | Aphelion.c:149 | the digits of the decimal text have the number's value |
| `CString.Strtol` | Aphelion.c:149 | `strtol` yields the numeral's value when it fits a 64-bit `long`, and saturates at `LONG_MAX` or `LONG_MIN` otherwise |
| `CString.CInt` | Aphelion.c:149 | storing a wider integer in an `int` wraps modulo 2^32 into the `int` range, and keeps values already in range |
| `CString.Atoi` | Aphelion.c:149 | `atoi` lies in the `int` range and is the numeral's value whenever that value fits an `int` |
| `CString.AtoiDecimal` | Aphelion.c:149-150 | `atoi` reads back any printed natural number that fits an `int`; a larger one is saturated to a `long` and then wrapped into an `int` |
| `CString.AtoiNegativeDecimal` | Aphelion.c:166 | `atoi` reads back a printed negative number that fits an `int`; a smaller one is saturated and wrapped the same way |
| `CString.ChunkLength` | Aphelion.c:137 | an `fgets` chunk fits the buffer and the remaining text, and is non-empty while text remains |
| `CString.Fgets` | Aphelion.c:134-137 | one `fgets` call returns at most size - 1 characters, and some while the file has text |
| `CString.ChunkLengthStops` | Aphelion.c:137 | `fgets` stops after the first newline or when the buffer is full |
| `CString.FgetsChunk` | Aphelion.c:137 | the chunk is the start of the remaining text |
| `CString.ChunksNext` | Aphelion.c:137 | reading on from a file position yields the next chunk, then the chunks of the rest |
| `CString.ChunksCoverText` | Aphelion.c:137 | the chunks of a file, joined, are exactly its text |
| `CString.ChunksFitBuffer` | Aphelion.c:134-137 | no chunk is empty and none overflows the line buffer |
| `CString.ReadChunk` | Aphelion.c:137 | one `fgets` call returns the next chunk and advances the file position by its length |
| `AphConfig.Defaults` | Aphelion.c:62-74 | the defaults are well formed: positive size and fps, no script, version "alpha6", exit key DELETE |
| `AphConfig.TrimmedTrim` | Aphelion.c:76-84 | a trimmed text has no white space at either end |
| `AphConfig.TrimAt` | Aphelion.c:76-84 | trimming a text padded with white space yields the text between the padding |
| `AphConfig.TrimTrimmed` | Aphelion.c:76-84 | trimming is the identity on a text without white space at either end |
| `AphConfig.TrimSlice` | Aphelion.c:76-84 | trimming a slice yields the slice between its white-space padding |
| `AphConfig.TrimSuffix` | Aphelion.c:76-84 | trimming a suffix yields the part between its white-space padding |
| `AphConfig.TrimInPlace` | Aphelion.c:76-84 | moving the start past leading space and the end back over trailing space yields the trimmed text |
| `AphConfig.KeyValue` | Aphelion.c:86-116 | an accepted line holds an '=', key and value together are shorter than the line, and a blank line is rejected |
| `AphConfig.KeyValueRejects` | Aphelion.c:86-93 | a line is rejected exactly when it is blank, starts with '#' after indentation, or has no '=' |
| `AphConfig.KeyValueFields` | Aphelion.c:95-113 | an accepted key and value are trimmed, and the key holds no '=' |
| `AphConfig.KeyValueFormat` | Aphelion.c:86-116 | parsing the line `key = value` gives back the key and the value |
| `AphConfig.ScanAccepts` | Aphelion.c:95-108 | the key and value ranges the character scans find are the trimmed parts around the first '=' |
| `AphConfig.ParseKeyValue` | Aphelion.c:86-116 | the character-by-character parse accepts exactly the lines `KeyValue` accepts, with the same key and value |
| `AphConfig.ParseBool` | Aphelion.c:118-123 | a value is true exactly when it starts with "1", "on", "yes" or "true", compared character by character and case-sensitively |
| `AphConfig.ParseBoolExtends` | Aphelion.c:118-123 | `parse_bool` is a prefix test, so a true value stays true whatever follows it |
| `AphConfig.ParseBoolExamples` | Aphelion.c:118-123 | "1000", "online" and "yes" are true; "TRUE", "Yes", "false", "0", "off" and "" are false |
| `AphConfig.ExitKey` | Aphelion.c:160-166 | the key code is an `int`; it differs from `atoi` of the value only for one of the five key names, and a value starting with a digit is always read by `atoi` |
| `AphConfig.ExitKeyNumber` | Aphelion.c:160-166 | a number given as `exit_key` becomes the key code when it fits an `int`; a larger one becomes what `atoi` makes of it |
| `AphConfig.ExitKeyNames` | Aphelion.c:160-166 | key names are matched by prefix and case-sensitively: "ENTERING" is Enter, "escape" is 0 |
| `AphConfig.KnownKeysShort` | Aphelion.c:145-178 | every known key has at most 11 characters |
| `AphConfig.SetField` | Aphelion.c:145-181 | an unknown key changes nothing; a known key changes only its field; width, height and fps take `atoi` of the value only when it is positive; title, script, author and api_version take the longest prefix of the value that fits their buffers; exit_key takes the key code of the value; fullscreen, resizable and vsync take `parse_bool` of the value |
| `AphConfig.ApplyLinesWellformed` | Aphelion.c:137-156 | no sequence of lines makes the size or fps non-positive or a string overflow its buffer |
| `AphConfig.LoadWellformed` | Aphelion.c:125-156 | whatever the file holds, or if it is missing, the loaded configuration is well formed |
| `AphConfig.IgnoredLinesKeepConfig` | Aphelion.c:141-181 | lines that are not `key = value`, or whose key is unknown, leave the configuration unchanged |
| `AphConfig.WidthLineSetsWidth` | Aphelion.c:143-150 | a `width = n` line sets the width to any positive n that fits an `int`, whatever the case of the key; a larger n sets it to `atoi`'s wrapped value only when that is positive |
| `AphConfig.WidthOverflowIgnored` | Aphelion.c:148-150 | `width = 3000000000` wraps to a negative `int` and leaves the width unchanged |
| `AphConfig.LowerInPlace` | Aphelion.c:143 | the in-place loop over the key buffer lower-cases every character |
| `AphConfig.LowerKey` | Aphelion.c:139-143 | the key copied to a buffer and lower-cased there is the lower-cased key |
| `AphConfig.HandleLine` | Aphelion.c:139-181 | one chunk updates the configuration as its line says and warns exactly for an unknown key |
| `AphConfig.HandleChunk` | Aphelion.c:137-181 | one loop iteration extends the configuration and the warnings by one chunk |
| `AphConfig.LoadText` | Aphelion.c:134-182 | the read loop applies every chunk in order and warns with the 1-based number of each chunk naming an unknown key |
| `AphConfig.LoadFromFile` | Aphelion.c:125-185 | a missing file yields exactly the defaults and no warning; otherwise the chunks are applied to the defaults |
| `AphConfig.BufferBytesWritten` | Aphelion.c:95-102 | the copies into the key and value buffers write at least the terminator |
| `AphConfig.KeyBufferOverflow` | Aphelion.c:95-98 | a 300-character key fits one 1024-byte chunk and is copied into the 256-byte key buffer past its end |
| `AphConfig.ValueBufferOverflow` | Aphelion.c:100-102 | a 1000-character value fits one chunk and is copied into the 768-byte value buffer past its end |
| `AphConfig.OverlongKeyIsIgnored` | Aphelion.c:179-181 | in the corrected model a key of 256 or more characters only draws the unknown-key warning |
| `Bindings.Clamp` | Aphelion.c:32 | `CLAMP` lies in [lo, hi], is the identity inside it, and yields the nearer bound outside it |
| `Bindings.ClampProperties` | Aphelion.c:32 | clamping is idempotent and monotone |
| `Bindings.CheckString` | Aphelion.c:284 | `luaL_checkstring` accepts exactly strings and numbers, returns a string as is, and otherwise names the argument |
| `Bindings.IntegerText` | Aphelion.c:284 | the text of a number is non-empty |
| `Bindings.StringInteger` | Aphelion.c:203-210 | a string `luaL_checkinteger` converts to an integer holds a digit, and its value fits a `lua_Integer` |
| `Bindings.StringIntegerText` | Aphelion.c:203-210 | a decimal numeral of any `lua_Integer`, with white space around it, converts to that integer |
| `Bindings.ToInteger` | Aphelion.c:203-210 | an argument converts only to an integer within the 64-bit `lua_Integer` range |
| `Bindings.StringIntegerBeyondRange` | Aphelion.c:203-210 | a decimal numeral beyond 2^63 - 1 does not convert to an integer |
| `Bindings.StringIntegerBelowRange` | Aphelion.c:203-210 | a negative decimal numeral from -2^63 - 1 down to -2^63 - 1024 converts to `LONG_MIN`, the integer value of the double it rounds to, and one further below does not convert |
| `Bindings.StringIntegerRefuses` | Aphelion.c:203-210 | "12a", "", "-" and "1 2" do not convert to an integer |
| `Bindings.ReadIntegers` | Aphelion.c:203-210 | a successful read yields one value per parameter, and a failed one names a position among the parameters |
| `Bindings.ReadIntegersOk` | Aphelion.c:203-210 | reading succeeds exactly when every position holds a `lua_Integer` or a string that converts to one, or nil or nothing for an optional one, and yields that integer or the default |
| `Bindings.ReadIntegersFails` | Aphelion.c:203-210 | a failed read names the first position that is refused |
| `Bindings.Channel` | Aphelion.c:213-216 | a channel lies in [0, 255] and equals the argument when the argument does |
| `Bindings.ColorOf` | Aphelion.c:212-217 | the colour handed to raylib has every channel in [0, 255] |
| `Bindings.ColorArgsDefault` | Aphelion.c:207-217 | every channel is in range, and a call that stops before the channels draws with the default colour |
| `Bindings.ShapeParams` | Aphelion.c:203-210 | a shape takes its required coordinates followed by four optional channels |
| `Bindings.ShapeArgs` | Aphelion.c:203-217 | a shape's arguments are read exactly when its coordinates convert to integers and each channel converts or is nil; the values are those integers and the colour is `ColorArgs` of the channels; an error names an argument among them that does not convert |
| `Bindings.DrawRectangle` | Aphelion.c:202-219 | draws the rectangle at x, y, w, h (arguments 1 to 4) stored in `int`s, with the colour from arguments 5 to 8, white by default, each channel clamped without the `int` narrowing (see Findings); an error names an argument among 1 to 8 that is not an integer |
| `Bindings.DrawCircle` | Aphelion.c:221-237 | draws the circle at x, y with the radius (arguments 1 to 3) stored in `int`s, with the colour from arguments 4 to 7, white by default, each channel clamped without the `int` narrowing (see Findings); an error names an argument that is not an integer |
| `Bindings.DrawEllipse` | Aphelion.c:239-256 | draws the ellipse at x, y with both radii (arguments 1 to 4) stored in `int`s, with the colour from arguments 5 to 8, white by default, each channel clamped without the `int` narrowing (see Findings); an error names an argument that is not an integer |
| `Bindings.DrawTriangle` | Aphelion.c:258-281 | draws the triangle through the three points of arguments 1 to 6 stored in `int`s, with the colour from arguments 7 to 10, white by default, each channel clamped without the `int` narrowing (see Findings); an error names an argument that is not an integer |
| `Bindings.DrawLine` | Aphelion.c:322-339 | draws the line between the points of arguments 1 to 4 stored in `int`s, with the colour from arguments 5 to 8, opaque black by default, each channel clamped without the `int` narrowing (see Findings); an error names an argument that is not an integer |
| `Bindings.DrawBackground` | Aphelion.c:341-354 | clears the background with the colour from arguments 1 to 4, white by default, each channel clamped without the `int` narrowing (see Findings); an error names a channel that is not an integer |
| `Bindings.TextParams` | Aphelion.c:285-291 | the text bindings read seven integer parameters after the string |
| `Bindings.DrawText` | Aphelion.c:283-300 | draws the text of argument 1 at x, y (arguments 2, 3) with size argument 4 (20 by default), all stored in `int`s, and the colour from arguments 5 to 8, opaque black by default, each channel clamped without the `int` narrowing (see Findings); an error past argument 1 names one that is not an integer |
| `Bindings.CDiv` | Aphelion.c:313 | C division truncates toward zero |
| `Bindings.DrawTextCentered` | Aphelion.c:302-320 | draws as `l_draw_text` does, with x moved left by half the width `MeasureText` reports for the text at that size, divided as C divides |
| `Bindings.RectangleArgs` | Aphelion.c:202-219 | `l_draw_rectangle` draws exactly when x, y, w, h convert to integers and each channel converts to an integer or is nil |
| `Bindings.CircleArgs` | Aphelion.c:221-237 | `l_draw_circle` draws exactly when x, y and the radius convert to integers and each channel converts to an integer or is nil |
| `Bindings.EllipseArgs` | Aphelion.c:239-256 | `l_draw_ellipse` draws exactly when x, y and both radii convert to integers and each channel converts to an integer or is nil |
| `Bindings.TriangleArgs` | Aphelion.c:258-281 | `l_draw_triangle` draws exactly when the six coordinates convert to integers and each channel converts to an integer or is nil |
| `Bindings.LineArgs` | Aphelion.c:322-339 | `l_draw_line` draws exactly when the four coordinates convert to integers and each channel converts to an integer or is nil |
| `Bindings.BackgroundArgs` | Aphelion.c:341-354 | `l_draw_background` draws exactly when each of its four channels converts to an integer or is nil |
| `Bindings.TextIntegers` | Aphelion.c:285-291 | the integers after the text are read as x, y, size (20 by default) and a colour (opaque black by default), succeeding exactly when x and y convert to integers and the rest convert or are nil; an error names one that does not convert |
| `Bindings.TextArgs` | Aphelion.c:283-300 | `l_draw_text` draws exactly when its text is a string or number, x and y convert to integers and the rest convert or are nil; a string is drawn as given |
| `Bindings.TextCenteredArgs` | Aphelion.c:302-320 | `l_draw_text_centered` accepts what `l_draw_text` accepts and draws at x minus half the measured width |
| `Bindings.DefaultColors` | Aphelion.c:202-354 | calls with only the required arguments draw shapes and the background white, and lines and text opaque black |
| `Bindings.ChannelAsWritten` | Aphelion.c:207-216 | the channel computed after narrowing to `int` is in [0, 255], and agrees with the clamped channel for values in `int` range |
| `Bindings.NarrowingDefeatsClamp` | Aphelion.c:207-216 | a channel of 2^32 is drawn as 0 and one of 2^32 + 5 as 5, where clamping gives 255 |
| `Resources.Step` | Aphelion.c:540-547 | a use keeps the state, finalising releases the handle, and Released is absorbing |
| `Resources.NativeCalls` | Aphelion.c:540-547 | an event reaches the native library exactly while the handle is live |
| `Resources.ReleasedIsFinal` | Aphelion.c:592-599 | after release no event changes the state or reaches the native library |
| `Resources.UnloadedAtMostOnce` | Aphelion.c:649-656 | over any events a resource is unloaded at most once, and exactly once if it is ever finalised |
| `Resources.Handle.constructor` | Aphelion.c:424-427 | a handle is created valid, holding the loaded resource |
| `Resources.Handle.Finalise` | Aphelion.c:540-547 | `*_gc` unloads only while valid, then clears `valid`; the unload count never exceeds one |
| `Resources.Handle.Use` | Aphelion.c:567-573 | a handle of the wrong type is an argument error; a valid handle makes the native call; an invalid one does nothing |
| `Resources.Handle.PlaySound` | Aphelion.c:567-573 | `PlaySound` is called only while the handle is valid |
| `Resources.Handle.StopSound` | Aphelion.c:575-581 | `StopSound` is called only while the handle is valid |
| `Resources.Handle.PlayMusic` | Aphelion.c:619-625 | `PlayMusicStream` is called only while the handle is valid |
| `Resources.Handle.StopMusic` | Aphelion.c:627-633 | `StopMusicStream` is called only while the handle is valid |
| `Resources.Handle.UpdateMusic` | Aphelion.c:635-641 | `UpdateMusicStream` is called only while the handle is valid |
| `Resources.Handle.Size` | Aphelion.c:528-538 | `get_texture_size` gives the texture's size while valid and (0, 0) afterwards |
| `Resources.Handle.DrawTexture` | Aphelion.c:440-458 | the arguments are read either way, and accepted exactly when x and y convert to integers and each channel converts or is nil; only while valid is the texture drawn at x, y stored in `int`s, with the colour from arguments 4 to 7, white by default |
| `Resources.Handle.DrawTextureRec` | Aphelion.c:460-484 | the same for `l_draw_texture_rec`: the source rectangle and destination of arguments 2 to 7, the colour from arguments 8 to 11 |
| `Resources.LoadTexture` | Aphelion.c:422-438 | a texture with id 0 gives nil and no handle; otherwise a fresh valid handle holding that texture |
| `Resources.LoadStream` | Aphelion.c:549-565 | a sound or music load with a NULL buffer gives nil; otherwise a fresh valid handle holding that buffer |
| `Host.StopAt` | Aphelion.c:1083-1097 | an argument that ends the first pass selects help, version or an unknown option, never a run |
| `Host.ParseRuns` | Aphelion.c:1082-1098 | the engine runs exactly when every argument is a path, `--debug` or `--inf`, with the last path given or `.aphdat` |
| `Host.ParseStops` | Aphelion.c:1082-1098 | otherwise the first other argument decides: help, version or an unknown option |
| `Host.ParseArgs` | Aphelion.c:1078-1098 | the first `for` loop of `main` computes the command the argument list selects |
| `Host.HookActions` | Aphelion.c:1012-1024 | a hook is called exactly when it is a function, and an error is reported exactly when a called hook raises |
| `Host.FramesRun` | Aphelion.c:1178 | the loop runs no more frames than remain before the window closes |
| `Host.LoopStep` | Aphelion.c:1178-1205 | a frame of the loop is followed by the loop from the next frame, with `should_quit` as the frame left it |
| `Host.LoopStopsAfterQuit` | Aphelion.c:1178-1205 | the frame whose hook calls `engine.quit()` is the last frame |
| `Host.UnloadedLoop` | Aphelion.c:1178-1193 | without a loaded script the loop runs until the window closes and calls no hook |
| `Host.UpdateBeforeDraw` | Aphelion.c:1179-1188 | within a frame `game_update` is called before `game_draw` |
| `Host.LoopCallCounts` | Aphelion.c:1178-1205 | the loop calls `game_update` and `game_draw` once per frame run, and never `game_init` or `game_shutdown` |
| `Host.HookCallCount` | Aphelion.c:1012-1024 | a guarded call calls its own hook once if it is a function, and no other hook |
| `Host.FrameCallCounts` | Aphelion.c:1179-1188 | a frame calls `game_update` and `game_draw` once each |
| `Host.Engine.Init` | Aphelion.c:967-988 | a new engine has an empty stack, `should_quit` and `debug` clear, and the `quit` closure registered on itself |
| `Host.Engine.CallHook` | Aphelion.c:1012-1039 | a guarded hook call leaves the Lua stack as it was, records the call and any error report, and sets `should_quit` only if the hook quits |
| `Host.Engine.RunScript` | Aphelion.c:998-1010 | the script loads exactly when it does not fail, the stack stays balanced, and `should_quit` is set if its top level quits |
| `Host.Engine.ReadFlags` | Aphelion.c:1148-1156 | `--debug` sets `debug` and `--inf` sets `ignore_not_found`; nothing else changes |
| `Host.Engine.RunFrame` | Aphelion.c:1179-1202 | one pass through the loop body takes the actions of the frame specification and sets `should_quit` as the frame's hooks ask |
| `Host.Engine.RunLoop` | Aphelion.c:1178-1205 | the `while` loop takes the actions of the loop specification and runs until the window closes or `should_quit` is set |
| `Host.QuitClosure.constructor` | Aphelion.c:863-864 | the closure captures the engine as its upvalue |
| `Host.QuitClosure.Call` | Aphelion.c:689-693 | `engine.quit()` sets `should_quit` on the captured engine and touches nothing else |
| `Host.SessionExit` | Aphelion.c:1100-1146 | the dimension and fps checks never fail; `main` exits with 1 only for an unknown option or a failed engine creation |
| `Host.LoopCallsNoInit` | Aphelion.c:1178-1205 | whatever the script does, the loop never calls `game_init` or `game_shutdown` |
| `Host.PlayCallCounts` | Aphelion.c:1161-1210 | `game_init` and `game_shutdown` are each called at most once, and exactly once when the script loaded and defines them |
| `Host.HookOrder` | Aphelion.c:1161-1210 | `game_init` comes right after the script loads; `game_shutdown` comes last, followed at most by its error report |
| `Host.NoScriptNoHooks` | Aphelion.c:1161-1210 | without a loaded script no hook is ever called |
| `Host.NoScriptTextEveryFrame` | Aphelion.c:1187-1193 | without a loaded script and without `--inf`, every frame until the window closes shows the no-script text |
| `Host.UnloadedTextCount` | Aphelion.c:1187-1193 | without a script and with `ignore_not_found` clear, the no-script text appears once per frame run |
| `Host.FrameTextCount` | Aphelion.c:1187-1193 | one frame without a script shows the text once |
| `Host.ProgramMain` | Aphelion.c:1077-1218 | `main` returns the exit status and takes the actions of the session specification |
| `Host.RunEngine` | Aphelion.c:1141-1213 | from `engine_init` to `engine_shutdown`, the engine takes the actions of the play specification |
| `Host.IgnoreNotFoundAsWritten` | Aphelion.c:967-988 | as written, `ignore_not_found` is 1 with `--inf` and otherwise whatever the allocated block held |
| `Host.LeftoverHidesNoScriptText` | Aphelion.c:1187-1193 | a non-zero leftover hides the no-script text with no `--inf`; a cleared flag shows it |
| `Assets.Step` | src/yaml.c:45-63 | non-scalar events change nothing; an entry is stored exactly for a non-keyword scalar inside a section with an array and a pending name, at the current index, holding the name and path cut to their buffers, after which the index moves on and the name is cleared; otherwise a non-keyword scalar at most takes the pending name |
| `Assets.KeywordResets` | src/yaml.c:45-52 | a section keyword resets the index and retargets the array, `sfx` turns collection off, and no entry is stored |
| `Assets.IgnoredOutsideSection` | src/yaml.c:53-54 | while no section is active, every scalar but a keyword is ignored |
| `Assets.NoSfxWrites` | src.c:199-203 | entries go only to the array of the active section, never to `sfx_assets` |
| `Assets.SfxNeverFilled` | src.c:199-211 | no file stores an entry in `sfx_assets` |
| `Assets.PairsBecomeEntries` | src/yaml.c:55-63 | inside a section, scalar pairs become (name, path) entries at consecutive indices, with `last_key` cleared after each |
| `Assets.PairStep` | src.c:204-211 | one name and one path store one entry and advance the index |
| `Assets.SectionEntries` | src.c:193-211 | a section followed by pairs stores them from index 0 |
| `Assets.IndexPassesCapacity` | src.c:207-209 | as written, the 513th pair of a section is stored at index 512, past the end of the array |
| `Assets.Put` | src.c:207-208 | a store within bounds replaces that slot alone; one out of bounds changes nothing |
| `Assets.CommitSlot` | src/yaml.c:59-60 | arrays keep their length, a slot no entry names keeps its value, and the last entry stored at a slot wins |
| `Assets.CommitUntargeted` | src/yaml.c:59-60 | an array no entry targets keeps its contents |
| `Assets.SfxKept` | src.c:199-211 | loading any file leaves `sfx_assets` as it was |
| `Assets.Manifest.constructor` | src/yaml.c:11-15 | the four global arrays hold `MAX_ASSETS` empty entries each |
| `Assets.Manifest.Store` | src.c:207-208 | `strncpy` into `current_array[asset_idx]` updates the arrays as the bounded store says |
| `Assets.Manifest.Handle` | src.c:185-213 | one loop iteration moves to the next loop state and stores the entry the step specification stores |
| `Assets.Manifest.Load` | src.c:165-221 | returns false only when the file cannot be opened, and then changes nothing; otherwise stores the file's entries in order |
| `Assets.Manifest.Search` | src.c:223-232 | returns the path of the first of the 512 entries with that name, or NULL when none has it |
| `Tilemap.MapSize` | src.c:84-85 | the map is `WINDOW_WIDTH / TILE_SIZE` by `WINDOW_HEIGHT / TILE_SIZE` |
| `Tilemap.Cell` | src.c:84-86 | with rows as the outer loop, cell (x, y) takes an integer of row y's block |
| `Tilemap.CellsDistinct` | src.c:84-86 | every cell takes its own integer, among the first 1200 |
| `Tilemap.ReadTilemap` | src.c:77-95 | succeeds exactly when the file opens and holds 1200 integers; every cell whose integer was read holds it, the rest keep their values |
| `Tilemap.FillCell` | src.c:86 | reading one integer fills the next cell in order |
| `Movement.Velocity` | src.c:261-269 | the positive key wins over the negative one; with neither the velocity is 0 |
| `Movement.ClampAxis` | src.c:327-332 | after the clamp a coordinate lies in [0, limit - size] when the size fits, and an in-range coordinate is kept |
| `Movement.ClampAxisIdempotent` | src.c:329-332 | clamping twice is clamping once |
| `Movement.Player.constructor` | src.cpp:87-88 | a new player has the given position, size and speed, and no velocity |
| `Movement.Player.HandleInput` | src.cpp:90-96 | both velocities are reset, then S overrides W and D overrides A; position and size are unchanged |
| `Movement.Player.Update` | src.cpp:98-105 | the player moves by its velocity and is clamped into the window |
| `Movement.FramesRun` | src.c:317-341 | the loop runs at most as many frames as it is given |
| `Movement.FramesRunStops` | src.c:317-341 | every frame before the last ran on, and the last is the first frame with a quit or Escape event |
| `Movement.PollEvents` | src.c:318-325 | `running` is cleared exactly when a quit or Escape event comes, and nothing sets it again |
| `Movement.RunFrames` | src.c:317-332 | the C main loop runs until the first stopping frame, and the player stays inside the window |
| `Game.StopCalls` | src.cpp:73-79 | `stopMusic` halts and frees a held track, and does nothing without one |
| `Game.AudioManager.constructor` | src.cpp:53-56 | a new audio manager holds no track |
| `Game.AudioManager.StopMusic` | src.cpp:73-79 | `stopMusic` is idempotent: it frees a held track once and leaves none held |
| `Game.AudioManager.Play` | src.cpp:63-71 | `playMusic` releases the previous track before loading; a failed load throws with no track held; a failed play throws with the track held |
| `Game.AudioManager.Close` | src.cpp:58-61 | the destructor releases any held track before closing audio, so every loaded track is freed exactly once |
| `Game.Game.constructor` | src.cpp:132 | a new game has the player at (0, 0), one tile in size, speed 2, and is running |
| `Game.Game.HandleEvents` | src.cpp:150-156 | `running` becomes false on a quit or Escape event and never becomes true |
| `Game.Game.Run` | src.cpp:134-147 | the frames run until the first stopping frame, and the player stays inside the window |
| `EventHandling.Node.constructor` | src/engine/event_handler.c:25-29 | a node holds the registration and the old head as its successor |
| `EventHandling.Dispatched` | src/engine/event_handler.c:33-41 | a dispatch makes at most one call per node |
| `EventHandling.DispatchedReverse` | src/engine/event_handler.c:24-41 | walking the list built by prepending reaches the callbacks in reverse registration order |
| `EventHandling.DispatchedCount` | src/engine/event_handler.c:24-39 | each registration for the event's type gives one call, so a callback registered twice is called twice |
| `EventHandling.EventHandler.constructor` | src/engine/event_handler.c:17-22 | a new handler has an empty list and stores the given `app` |
| `EventHandling.EventHandler.Register` | src/engine/event_handler.c:24-31 | the new node becomes the head, and the nodes already in the list stay in the same order |
| `EventHandling.EventHandler.Dispatch` | src/engine/event_handler.c:33-41 | calls exactly the callbacks registered for the type, newest first, and leaves the list unchanged |
| `EventHandling.EventHandler.Destroy` | src/engine/event_handler.c:43-51 | every node of the list is freed in list order, none twice, and the handler itself last |
| `Fonts.AppendAccounted` | src/engine/ttf.h:23-26 | appending a newly opened font keeps every opened font accounted for, as held or closed |
| `Fonts.FontTable.constructor` | src/engine/ttf.h:11-12 | the table starts with every slot NULL and no font loaded |
| `Fonts.FontTable.Load` | src/engine/ttf.h:14-34 | a failed open returns 0 and changes nothing; a fitting font is appended and 1 returned; when full the font is closed, 0 returned and the table unchanged |
| `Fonts.FontTable.Append` | src/engine/ttf.h:25 | the font is stored at index `num_loaded_fonts` and the count goes up by one |
| `Fonts.FontTable.FontFor` | src/engine/ttf.h:36-44 | `render_text` uses a font exactly when the index is in [0, `num_loaded_fonts`) |
| `Fonts.FontTable.FreeFonts` | src/engine/ttf.h:67-78 | every held font is closed once, in order, its slot NULLed and the count reset to 0, so every font opened has been closed exactly once |
| `Fonts.FontTable.Release` | src/engine/ttf.h:71-75 | one iteration closes and NULLs its slot if it holds a font |
| `Script.LTrim` | src/script.c:10-13 | `ltrim` returns a suffix that does not start with white space |
| `Script.LTrimDropsSpace` | src/script.c:10-13 | everything `ltrim` drops is white space |
| `Script.LTrimUnique` | src/script.c:10-13 | white space followed by text that does not start with it trims to that text |
| `Script.FirstWord` | src/script.c:16-20 | `grab_first_word` is NULL exactly for blank lines and comments, and otherwise the trimmed line |
| `Script.StripNewline` | src/script.c:33-34 | exactly one trailing newline, if present, is dropped |
| `Script.FindBlank` | src/script.c:48 | `strcspn(s, " \t")` stops at a space, a tab or the end |
| `Script.FindBlankSkips` | src/script.c:48 | no space or tab comes before where `strcspn` stops |
| `Script.FindBlankAt` | src/script.c:48 | `strcspn` stops at the first space or tab |
| `Script.Classify` | src/script.c:36-48 | a line is skipped exactly when `grab_first_word` returns NULL |
| `Script.ClassifyCases` | src/script.c:39-48 | `PRINT` counts only before a space or the end of the line, the message is the rest trimmed, and anything else is unknown with its first token |
| `Script.Emitted` | src/script.c:33-48 | one line writes at most one output |
| `Script.Interpreted` | src/script.c:31-49 | reading on from a point keeps what was written before as the start of the output |
| `Script.Run` | src/script.c:22-53 | `read_script` returns false exactly when the file cannot be opened, and then writes nothing |
| `Script.Interpret` | src/script.c:33-48 | the loop body writes the output the line specification gives |
| `Script.ReadScript` | src/script.c:22-53 | `read_script` returns and writes what the run specification gives |
| `Script.ReadText` | src/script.c:30-49 | the `fgets` loop writes the outputs of every chunk in order |
| `Script.LTrimSpace` | src/script.c:42 | a leading space trims away like any other white space |
| `Script.ClassifyWord` | src/script.c:36-48 | a line is classified by its first word, whatever its indentation |
| `Script.PrintCommand` | src/script.c:39-44 | `PRINT`, a space and a message prints the message with its leading white space trimmed |
| `Script.BarePrint` | src/script.c:39-45 | a bare `PRINT` is the print command with an empty message |
| `Script.PrintNeedsSpace` | src/script.c:39-40 | `PRINT` followed by anything but a space is not the print command |
| `Script.PrintThenTab` | src/script.c:39-48 | `PRINT` and a tab is the unknown command `PRINT` |
| `Script.ChunkLengthOfLine` | src/script.c:31 | `fgets` stops right after the newline of a line that fits the buffer |
| `Script.PrintLineChunk` | src/script.c:30-31 | a `PRINT` line of a printable message is read as one chunk |
| `Script.PrintLineOutput` | src/script.c:33-44 | a `PRINT` line of a printable message prints that message |
| `Script.PrintLineThen` | src/script.c:31-46 | reading a `PRINT` line prints its message, then reading goes on with the rest |
| `Script.PrintedAll` | src/script.c:44 | one printed output per message, in order |
| `Script.ScriptOutputs` | src/script.c:31-49 | reading a script of `PRINT` lines appends their messages in order |
| `Script.ScriptRoundTrip` | src/script.c:22-53 | a script written as `PRINT` lines of printable messages prints exactly those messages, in order |

## Left out

- Native libraries: the raylib, SDL, SDL_image, SDL_mixer and SDL_ttf calls are recorded or given as outcomes. Nothing is drawn or played.
- Lua itself: `luaL_dofile`, `lua_pcall`, metatables and the collector are given as outcomes. A hook's effect is limited to quitting and failing, so scripts that register callbacks or re-enter the host are not modelled. The order in which the collector finalises handles is not modelled either.
- The closing of the Lua state at shutdown is not modelled: `lua_close` finalising the remaining handles, and `engine_shutdown` freeing the engine.
- Console text: `printf`/`fprintf` messages are reduced to an action or a warning record, without their text.
- The floating-point bindings are left out: the math and collision helpers, the volume setters, the scaled and rotated texture draws, and the debug overlay's numbers.
- The input query bindings (`l_is_key_pressed` and the others) are left out. They only forward an integer to raylib.
- `src/engine.c`, the window, app, render, audio and JSON wrappers, `noise` in `src.c`, and the header-only files are not part of this model.
- Files are modelled without NUL characters, so a C string is its whole text.
- `read_tilemap` reads a file as the integers `fscanf("%d")` finds. A token that is not an integer ends the read like the end of the file, and its text is not modelled.
- `load_assets_yaml` takes a file as the libyaml events it yields. A parse error, on which the C loop keeps asking for events, is not modelled.
- `Assets.Step`: a scalar of 64 or more bytes is kept as its first 64 characters in `last_key` and in an entry's `name`, and a path of 256 or more bytes as its first 256 characters in `path`. As written, `strncpy` with the full buffer size leaves such a copy without a terminator, so a later read of it, including the path `search_assets` returns, runs past the buffer; the model does not capture that over-read.
- `Bindings.StringInteger`: Lua's string coercion is modelled for decimal numerals only. Hexadecimal numerals such as "0x10" and numerals in float notation with an integral value such as "1e2" or "3.0", which Lua converts, are refused by the model. Decimal numerals outside the 64-bit range are read as the nearest double, as Lua does: those from -2^63 - 1 down to -2^63 - 1024 round to -2^63 and give `LONG_MIN`, and all others are refused.
- `EventHandling.EventHandler.constructor` and `EventHandling.EventHandler.Register`: their `malloc`s are unchecked, and the model assumes they succeed; the NULL dereference a failed allocation leads to is not modelled.
- `Tilemap.ReadTilemap`: the integers `fscanf("%d")` reads are taken as given; a numeral outside the `int` range, whose conversion C leaves undefined, is not modelled.
- Lua numbers of the float subtype are not modelled: `luaL_checkinteger` accepts a float with an exact 64-bit integer value and refuses any other, and the model's arguments are `lua_Integer`s, strings, nil or other values only.
- `Movement.Player.Update`: integers are unbounded, so the 32-bit overflow of `x + velx` near `INT_MAX` is not modelled.
- `Game.AudioManager.constructor`: the `Mix_OpenAudio` failure that throws out of the constructor is not modelled. Neither are the `App` constructor and the window, renderer and `renderFrame` steps.
- `Fonts.FontTable.FontFor`: models only the index check of `render_text`. The surface and texture steps after it are native calls.
- `Bindings.CheckString`: a number is converted to text only for integers. Float arguments are out of scope.
- `Host.Engine.RunScript`: the `!engine->L` guard is not modelled, since `engine_init` never returns an engine without a Lua state.
- `Host.ProgramMain`: `WindowShouldClose` is given as the frame number from which the window is closed. `GetFrameTime` is not passed to `game_update`.

## Findings

| source | as written | input that shows it | evidently intended | confidence | as-written member | corrected member |
|---|---|---|---|---|---|---|
| Aphelion.c:207-216 | each colour channel is read as a 64-bit `lua_Integer`, stored in an `int`, and only then clamped | a channel of 4294967296 (2^32) wraps to 0 and is drawn as 0 | the channel the script gave, clamped: 255 | medium, not executed | `Bindings.NarrowingDefeatsClamp` (over `Bindings.ChannelAsWritten`) | `Bindings.Channel` |
| Aphelion.c:95-102 | the key is copied into `key[256]` with a length taken from the line, and the value into `val[768]` with `strcpy` | the line of 300 `k`s followed by `=1` fits one 1024-byte `fgets` chunk and writes 301 bytes into `key` | keys and values longer than their buffers are bounded, and an overlong key is ignored as unknown | high, not executed | `AphConfig.KeyBufferOverflow` (and `AphConfig.ValueBufferOverflow`) | `AphConfig.OverlongKeyIsIgnored` |
| src.c:207-209 | `asset_idx` is never checked against `MAX_ASSETS` | a `tiles` section with 513 name/path pairs stores its last entry at index 512 | entries past the end of the array are not stored | high, not executed | `Assets.IndexPassesCapacity` | `Assets.Put` (through `Assets.Manifest.Store`) |
| Aphelion.c:967-988 | `engine_init` allocates the engine with `malloc` and never sets `ignore_not_found`; only `--inf` sets it | no script, no `--inf`, and a non-zero value left in the allocated block: the no-script text is never shown | the flag is 0 unless `--inf` is given | medium, not executed | `Host.LeftoverHidesNoScriptText` (over `Host.IgnoreNotFoundAsWritten`) | `Host.Engine.Init` (used by `Host.NoScriptTextEveryFrame`) |
