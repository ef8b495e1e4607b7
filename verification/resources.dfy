/** The texture, sound and music handles a script holds: a full userdata
    holding the native resource and a `valid` flag. A load that fails
    returns nil; the `__gc` finaliser releases the native resource only
    while the handle is valid and then clears the flag, and every use of an
    invalid handle does nothing. */
module Resources {
  import opened CString
  import opened Bindings

  datatype Kind = TextureKind | SoundKind | MusicKind

  /** A native call made through a handle, recorded instead of performed. */
  datatype Native =
    | PlaySound(id: nat) | StopSound(id: nat)
    | PlayMusic(id: nat) | StopMusic(id: nat) | UpdateMusic(id: nat)
    | Unload(kind: Kind, id: nat)

  // -------------------------------------------------- the state machine

  /** The life of a handle: `Live` while `valid` is set, then `Released`. */
  datatype State = Live | Released

  /** What a script or the collector does to a handle: use it, or finalise it. */
  datatype Event = Use | Finalise

  /** One event: finalising releases a live handle; nothing else changes the state. */
  function Step(s: State, e: Event): (t: State)
    ensures e == Use ==> t == s
    ensures s == Released ==> t == Released
    ensures e == Finalise ==> t == Released
  {
    if e == Finalise then Released else s
  }

  /** Native calls an event makes: a use touches the resource only while it
      is live, and finalising unloads it only while it is live. */
  function NativeCalls(s: State, e: Event): (n: nat)
    ensures s == Released ==> n == 0
    ensures s == Live ==> n == 1
  {
    if s == Live then 1 else 0
  }

  function Run(s: State, events: seq<Event>): State
    decreases |events|
  {
    if events == [] then s else Run(Step(s, events[0]), events[1..])
  }

  /** The number of native unloads along a run. */
  function Unloads(s: State, events: seq<Event>): nat
    decreases |events|
  {
    if events == [] then 0
    else (if s == Live && events[0] == Finalise then 1 else 0) + Unloads(Step(s, events[0]), events[1..])
  }

  /** The native calls along a run. */
  function Calls(s: State, events: seq<Event>): nat
    decreases |events|
  {
    if events == [] then 0 else NativeCalls(s, events[0]) + Calls(Step(s, events[0]), events[1..])
  }

  /** `Released` is absorbing: nothing after it reaches the native library. */
  lemma {:induction false} ReleasedIsFinal(events: seq<Event>)
    ensures Run(Released, events) == Released
    ensures Calls(Released, events) == 0 && Unloads(Released, events) == 0
  {
    if events != [] {
      ReleasedIsFinal(events[1..]);
    }
  }

  /** However many times a handle is used and finalised, its resource is
      unloaded at most once, and exactly once if it is ever finalised. */
  lemma {:induction false} UnloadedAtMostOnce(events: seq<Event>)
    ensures Unloads(Live, events) <= 1
    ensures Unloads(Live, events) == 1 <==> Finalise in events
    ensures Run(Live, events) == (if Finalise in events then Released else Live)
  {
    if events != [] {
      if events[0] == Finalise {
        ReleasedIsFinal(events[1..]);
      } else {
        UnloadedAtMostOnce(events[1..]);
        assert Finalise in events <==> Finalise in events[1..] by {
          assert events == [events[0]] + events[1..];
        }
      }
    }
  }

  // ------------------------------------------------------------ handles

  /** `LuaTexture`, `LuaSound` or `LuaMusic`: the native resource (`id` is
      the texture id or the stream buffer, `width`/`height` the texture's
      size) and the `valid` flag. `unloads` counts the native unloads. */
  class Handle {
    const kind: Kind
    const id: nat
    const width: int
    const height: int
    var valid: bool
    ghost var unloads: nat

    ghost function State(): State
      reads this
    {
      if valid then Live else Released
    }

    /** The flag tells whether the resource is still loaded. */
    ghost predicate Valid()
      reads this
    {
      id != 0 && (valid <==> unloads == 0) && unloads <= 1
    }

    /** The userdata a successful load returns. */
    constructor (kind: Kind, id: nat, width: int, height: int)
      requires id != 0
      ensures Valid() && valid && unloads == 0
      ensures this.kind == kind && this.id == id && this.width == width && this.height == height
    {
      this.kind, this.id, this.width, this.height := kind, id, width, height;
      valid, unloads := true, 0;
    }

    /** `l_texture_gc`, `l_sound_gc`, `l_music_gc`: unload while valid, then
        clear the flag. */
    method Finalise() returns (call: Option<Native>)
      requires Valid()
      modifies this
      ensures Valid() && !valid
      ensures State() == Step(old(State()), Event.Finalise)
      ensures call == (if old(valid) then Some(Unload(kind, id)) else None)
      ensures unloads == old(unloads) + NativeCalls(old(State()), Event.Finalise)
    {
      call := None;
      if valid {
        call := Some(Unload(kind, id));
        valid := false;
        unloads := unloads + 1;
      }
    }

    /** An argument-free use of a sound or music handle: the native call is
        made only while the handle is valid. */
    function Use(expected: Kind, call: Native): (r: Outcome<Option<Native>>)
      reads this
      ensures r.Ok? <==> kind == expected
      ensures r.Ok? ==> (r.value.Some? <==> valid) && (valid ==> r.value == Some(call))
      ensures r.Ok? ==> (if r.value.Some? then 1 else 0) == NativeCalls(State(), Event.Use)
    {
      if kind != expected then BadArgument(1)
      else if valid then Ok(Some(call)) else Ok(None)
    }

    function PlaySound(): (r: Outcome<Option<Native>>)
      reads this
      ensures r.Ok? <==> kind == SoundKind
      ensures r.Ok? ==> r.value == (if valid then Some(Native.PlaySound(id)) else None)
    {
      Use(SoundKind, Native.PlaySound(id))
    }

    function StopSound(): (r: Outcome<Option<Native>>)
      reads this
      ensures r.Ok? <==> kind == SoundKind
      ensures r.Ok? ==> r.value == (if valid then Some(Native.StopSound(id)) else None)
    {
      Use(SoundKind, Native.StopSound(id))
    }

    function PlayMusic(): (r: Outcome<Option<Native>>)
      reads this
      ensures r.Ok? <==> kind == MusicKind
      ensures r.Ok? ==> r.value == (if valid then Some(Native.PlayMusic(id)) else None)
    {
      Use(MusicKind, Native.PlayMusic(id))
    }

    function StopMusic(): (r: Outcome<Option<Native>>)
      reads this
      ensures r.Ok? <==> kind == MusicKind
      ensures r.Ok? ==> r.value == (if valid then Some(Native.StopMusic(id)) else None)
    {
      Use(MusicKind, Native.StopMusic(id))
    }

    function UpdateMusic(): (r: Outcome<Option<Native>>)
      reads this
      ensures r.Ok? <==> kind == MusicKind
      ensures r.Ok? ==> r.value == (if valid then Some(Native.UpdateMusic(id)) else None)
    {
      Use(MusicKind, Native.UpdateMusic(id))
    }

    /** `l_get_texture_size`: the texture's size while valid, (0, 0) after. */
    function Size(): (r: Outcome<(int, int)>)
      reads this
      ensures r.Ok? <==> kind == TextureKind
      ensures r.Ok? && !valid ==> r.value == (0, 0)
      ensures r.Ok? && valid ==> r.value == (width, height)
    {
      if kind != TextureKind then BadArgument(1)
      else if valid then Ok((width, height)) else Ok((0, 0))
    }

    /** `l_draw_texture(tex, x, y [, r, g, b, a])`; `args[0]` stands for the
        handle itself. The arguments are read even when the handle is no
        longer valid; only the draw call is skipped. */
    function DrawTexture(args: seq<Arg>): (r: Outcome<Option<DrawCall>>)
      reads this
      ensures r.Ok? ==> (r.value.Some? <==> valid)
      ensures r.Ok? <==>
        (kind == TextureKind && IsIntegerAt(args, 2) && IsIntegerAt(args, 3) &&
         forall k :: 4 <= k <= 7 ==> IsOptionalAt(args, k))
      ensures r.Ok? && valid ==>
        (r.value.value == Texture(id, CInt(IntegerAt(args, 2)), CInt(IntegerAt(args, 3)), ColorArgs(args, 4, WHITE)))
      ensures r.BadArgument? && r.index > 1 ==> r.index <= 7 && !IsIntegerAt(args, r.index)
    {
      if kind != TextureKind then BadArgument(1)
      else
        ShapeArgs(args, 2, 2, WHITE);
        match ReadIntegers(args, 2, ShapeParams(2, WHITE))
        case BadArgument(i) => BadArgument(i)
        case Ok(v) =>
          if valid then Ok(Some(Texture(id, CInt(v[0]), CInt(v[1]), ColorOf(v[2..])))) else Ok(None)
    }

    /** `l_draw_texture_rec(tex, sx, sy, sw, sh, dx, dy [, r, g, b, a])`. */
    function DrawTextureRec(args: seq<Arg>): (r: Outcome<Option<DrawCall>>)
      reads this
      ensures r.Ok? ==> (r.value.Some? <==> valid)
      ensures r.Ok? <==>
        (kind == TextureKind && (forall k :: 2 <= k <= 7 ==> IsIntegerAt(args, k)) &&
         forall k :: 8 <= k <= 11 ==> IsOptionalAt(args, k))
      ensures r.Ok? && valid ==>
        (r.value.value == TextureRec(id, CInt(IntegerAt(args, 2)), CInt(IntegerAt(args, 3)),
                                     CInt(IntegerAt(args, 4)), CInt(IntegerAt(args, 5)),
                                     CInt(IntegerAt(args, 6)), CInt(IntegerAt(args, 7)), ColorArgs(args, 8, WHITE)))
      ensures r.BadArgument? && r.index > 1 ==> r.index <= 11 && !IsIntegerAt(args, r.index)
    {
      if kind != TextureKind then BadArgument(1)
      else
        ShapeArgs(args, 2, 6, WHITE);
        match ReadIntegers(args, 2, ShapeParams(6, WHITE))
        case BadArgument(i) => BadArgument(i)
        case Ok(v) =>
          if valid then
            Ok(Some(TextureRec(id, CInt(v[0]), CInt(v[1]), CInt(v[2]), CInt(v[3]), CInt(v[4]), CInt(v[5]), ColorOf(v[6..]))))
          else Ok(None)
    }
  }

  /** What raylib's `LoadTexture` returns: id 0 when loading failed. */
  datatype NativeTexture = NativeTexture(id: nat, width: int, height: int)

  /** `l_load_texture(filename)`: a handle on success, nil (and no
      finaliser) when `LoadTexture` reports id 0. */
  method LoadTexture(args: seq<Arg>, load: string -> NativeTexture) returns (r: Outcome<Option<Handle>>)
    ensures r.Ok? <==> CheckString(args, 1).Ok?
    ensures r.Ok? ==> (r.value.None? <==> load(CheckString(args, 1).value).id == 0)
    ensures r.Ok? && r.value.Some? ==>
      var h := r.value.value; var t := load(CheckString(args, 1).value);
      fresh(h) && h.Valid() && h.valid && h.kind == TextureKind &&
      h.id == t.id && h.width == t.width && h.height == t.height
  {
    match CheckString(args, 1) {
      case BadArgument(i) =>
        return BadArgument(i);
      case Ok(filename) =>
        var t := load(filename);
        if t.id == 0 {
          return Ok(None);
        }
        var h := new Handle(TextureKind, t.id, t.width, t.height);
        return Ok(Some(h));
    }
  }

  /** `l_load_sound` (`kind` is `SoundKind`) and `l_load_music` (`MusicKind`):
      `load` returns the stream buffer, 0 standing for NULL. */
  method LoadStream(args: seq<Arg>, kind: Kind, load: string -> nat) returns (r: Outcome<Option<Handle>>)
    requires kind != TextureKind
    ensures r.Ok? <==> CheckString(args, 1).Ok?
    ensures r.Ok? ==> (r.value.None? <==> load(CheckString(args, 1).value) == 0)
    ensures r.Ok? && r.value.Some? ==>
      var h := r.value.value;
      fresh(h) && h.Valid() && h.valid && h.kind == kind && h.id == load(CheckString(args, 1).value)
  {
    match CheckString(args, 1) {
      case BadArgument(i) =>
        return BadArgument(i);
      case Ok(filename) =>
        var buffer := load(filename);
        if buffer == 0 {
          return Ok(None);
        }
        var h := new Handle(kind, buffer, 0, 0);
        return Ok(Some(h));
    }
  }
}
