/** The C++ game: an `AudioManager` that owns at most one music track at a
    time, and a `Game` that runs the frame loop until a quit event or the
    Escape key. SDL_mixer is abstract: its calls are recorded, and whether
    loading or playing a track succeeds is given. */
module Game {
  import opened CString
  import opened Movement

  /** The SDL_mixer calls the audio manager makes. */
  datatype MixCall = HaltMusic | FreeMusic(track: string) | LoadMusic(file: string) | PlayMusic(track: string, loops: int) | CloseAudio

  /** The calls `stopMusic` makes for the track it holds. */
  function StopCalls(music: Option<string>): (calls: seq<MixCall>)
    ensures music.None? <==> calls == []
    ensures music.Some? ==> FreeMusic(music.value) in calls && calls[|calls| - 1] == FreeMusic(music.value)
  {
    if music.Some? then [HaltMusic, FreeMusic(music.value)] else []
  }

  /** `AudioManager`: `music` is the track it holds (`None` for nullptr).
      `loads` and `frees` count the tracks loaded and freed. */
  class AudioManager {
    var music: Option<string>
    var calls: seq<MixCall>
    ghost var loads: nat
    ghost var frees: nat

    /** Every loaded track is either held or freed, and none is freed twice. */
    ghost predicate Valid()
      reads this
    {
      frees + (if music.Some? then 1 else 0) == loads
    }

    /** The constructor once `Mix_OpenAudio` has succeeded. */
    constructor ()
      ensures Valid() && music.None? && calls == [] && loads == 0
    {
      music, calls := None, [];
      loads, frees := 0, 0;
    }

    /** `stopMusic`: halt and free the track if one is held; idempotent. */
    method StopMusic()
      requires Valid()
      modifies this
      ensures Valid() && music.None?
      ensures calls == old(calls) + StopCalls(old(music))
      ensures loads == old(loads) && frees == old(frees) + (if old(music).Some? then 1 else 0)
    {
      if music.Some? {
        calls := calls + [HaltMusic, FreeMusic(music.value)];
        frees := frees + 1;
        music := None;
      }
    }

    /** `playMusic(file, loops)`, where `loops` defaults to -1 (repeat
        forever) in the C++ declaration: release the previous track, then
        load and play the new one. A failed load throws with no track held; a failed
        play throws with the track held. Returns whether it threw. */
    method Play(file: string, loops: int, loadOk: bool, playOk: bool) returns (thrown: bool)
      requires Valid()
      modifies this
      ensures Valid()
      ensures music == (if loadOk then Some(file) else None)
      ensures thrown == !(loadOk && playOk)
      ensures calls == old(calls) + StopCalls(old(music)) + [LoadMusic(file)] + (if loadOk then [PlayMusic(file, loops)] else [])
      ensures loads == old(loads) + (if loadOk then 1 else 0)
    {
      StopMusic();
      calls := calls + [LoadMusic(file)];
      if !loadOk {
        return true;
      }
      music := Some(file);
      loads := loads + 1;
      calls := calls + [PlayMusic(file, loops)];
      return !playOk;
    }

    /** The destructor: release any held track, then close the audio device.
        Afterwards every track ever loaded has been freed exactly once. */
    method Close()
      requires Valid()
      modifies this
      ensures music.None? && frees == loads
      ensures calls == old(calls) + StopCalls(old(music)) + [CloseAudio]
    {
      StopMusic();
      calls := calls + [CloseAudio];
    }
  }

  /** `Game`: the player, the audio manager and the `running` flag (the
      window and renderer are left out). */
  class Game {
    const player: Player
    const audio: AudioManager
    var running: bool

    /** `Game()`: the player at (0, 0), one tile in size, speed 2, running. */
    constructor ()
      ensures running && fresh(player) && fresh(audio) && audio.Valid() && audio.music.None?
      ensures player.x == 0 && player.y == 0 && player.w == TILE_SIZE && player.h == TILE_SIZE && player.speed == 2
    {
      player := new Player(0, 0, TILE_SIZE, TILE_SIZE, 2);
      audio := new AudioManager();
      running := true;
    }

    /** `handleEvents`: a quit event or Escape clears `running`; nothing sets it. */
    method HandleEvents(events: seq<SdlEvent>)
      modifies this
      ensures running == (old(running) && forall k :: 0 <= k < |events| ==> !Stops(events[k]))
    {
      running := PollEvents(events, running);
    }

    /** `run`: handle the events, the keys and the movement of each frame
        while `running`, over a finite list of frames. */
    method Run(frames: seq<Frame>) returns (n: nat)
      requires running
      modifies this, player
      ensures n == FramesRun(frames)
      ensures running <==> n == |frames| && forall k :: 0 <= k < n ==> !FrameStops(frames[k])
      ensures player.w == old(player.w) && player.h == old(player.h)
      ensures n > 0 && FitsWindow(player.w, player.h) ==> InWindow(player.x, player.y, player.w, player.h)
    {
      n := 0;
      while running && n < |frames|
        invariant n <= |frames|
        invariant running ==> FramesRun(frames) == n + FramesRun(frames[n..])
        invariant running <==> forall k :: 0 <= k < n ==> !FrameStops(frames[k])
        invariant !running ==> n > 0 && FramesRun(frames) == n
        invariant player.w == old(player.w) && player.h == old(player.h)
        invariant n > 0 && FitsWindow(player.w, player.h) ==> InWindow(player.x, player.y, player.w, player.h)
        decreases |frames| - n, running
      {
        assert frames[n..][1..] == frames[n + 1..];
        HandleEvents(frames[n].events);
        player.HandleInput(frames[n].keys);
        player.Update();
        n := n + 1;
      }
    }
  }
}
