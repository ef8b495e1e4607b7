/** The player of the game and how it moves: a rectangle at (`x`, `y`) of
    size `w` x `h` with a speed; the held keys set its velocity, and each
    frame moves it by that velocity and pushes it back inside the window.
    The C game keeps it in a `Player` struct updated through a pointer
    (`player_controller` and the clamp in `main`), the C++ game in a
    `Player` class (`handleInput` and `update`); both do the same. */
module Movement {

  const WINDOW_WIDTH := 1280
  const WINDOW_HEIGHT := 960
  const TILE_SIZE := 32

  /** The state of the W, A, S and D keys in SDL's keyboard state array. */
  datatype Keys = Keys(w: bool, a: bool, s: bool, d: bool)

  /** The velocity along one axis: the later assignment wins, so the
      positive key overrides the negative one. */
  function Velocity(negative: bool, positive: bool, speed: int): (v: int)
    ensures positive ==> v == speed
    ensures negative && !positive ==> v == -speed
    ensures !negative && !positive ==> v == 0
  {
    if positive then speed else if negative then -speed else 0
  }

  /** The clamp along one axis: first at 0, then at `limit - size`. */
  function ClampAxis(p: int, size: int, limit: int): (r: int)
    ensures 0 < size <= limit ==> 0 <= r <= limit - size
    ensures 0 <= p <= limit - size ==> r == p
    ensures p < 0 && size <= limit ==> r == 0
    ensures p > limit - size ==> r == limit - size
  {
    var q := if p < 0 then 0 else p;
    if q + size > limit then limit - size else q
  }

  /** A second clamp changes nothing once the size fits the window. */
  lemma ClampAxisIdempotent(p: int, size: int, limit: int)
    requires 0 < size <= limit
    ensures ClampAxis(ClampAxis(p, size, limit), size, limit) == ClampAxis(p, size, limit)
  {
  }

  predicate InWindow(x: int, y: int, w: int, h: int) {
    0 <= x <= WINDOW_WIDTH - w && 0 <= y <= WINDOW_HEIGHT - h
  }

  predicate FitsWindow(w: int, h: int) {
    0 < w <= WINDOW_WIDTH && 0 < h <= WINDOW_HEIGHT
  }

  class Player {
    var x: int
    var y: int
    var w: int
    var h: int
    var speed: int
    var velx: int
    var vely: int

    /** `Player(px, py, pw, ph, pspeed)`, or the C initialiser. */
    constructor (px: int, py: int, pw: int, ph: int, pspeed: int)
      ensures x == px && y == py && w == pw && h == ph && speed == pspeed
      ensures velx == 0 && vely == 0
    {
      x, y, w, h, speed := px, py, pw, ph, pspeed;
      velx, vely := 0, 0;
    }

    /** `player_controller` / `handleInput`: both velocities are reset, then
        W, S, A and D are applied in that order. */
    method HandleInput(keys: Keys)
      modifies this
      ensures velx == Velocity(keys.a, keys.d, speed) && vely == Velocity(keys.w, keys.s, speed)
      ensures x == old(x) && y == old(y) && w == old(w) && h == old(h) && speed == old(speed)
    {
      velx := 0;
      vely := 0;
      if keys.w {
        vely := -speed;
      }
      if keys.s {
        vely := speed;
      }
      if keys.a {
        velx := -speed;
      }
      if keys.d {
        velx := speed;
      }
    }

    /** `update` / the movement step of the C `main` loop: move by the
        velocity, then clamp into the window. */
    method Update()
      modifies this
      ensures x == ClampAxis(old(x) + velx, w, WINDOW_WIDTH)
      ensures y == ClampAxis(old(y) + vely, h, WINDOW_HEIGHT)
      ensures FitsWindow(w, h) ==> InWindow(x, y, w, h)
      ensures w == old(w) && h == old(h) && speed == old(speed) && velx == old(velx) && vely == old(vely)
    {
      x := x + velx;
      y := y + vely;
      if x < 0 {
        x := 0;
      }
      if y < 0 {
        y := 0;
      }
      if x + w > WINDOW_WIDTH {
        x := WINDOW_WIDTH - w;
      }
      if y + h > WINDOW_HEIGHT {
        y := WINDOW_HEIGHT - h;
      }
    }
  }

  /** The SDL events the main loops look at. */
  datatype SdlEvent = QuitEvent | KeyDown(sym: int) | OtherEvent

  const SDLK_ESCAPE := 27

  /** A window close or the Escape key ends the game. */
  predicate Stops(e: SdlEvent) {
    e == QuitEvent || e == KeyDown(SDLK_ESCAPE)
  }

  /** What one frame of the main loop gets: the queued events and the held keys. */
  datatype Frame = Frame(events: seq<SdlEvent>, keys: Keys)

  predicate FrameStops(f: Frame) {
    exists k :: 0 <= k < |f.events| && Stops(f.events[k])
  }

  /** The number of frames the loop runs: up to and including the first
      frame whose events stop the game. */
  function FramesRun(frames: seq<Frame>): (n: nat)
    ensures n <= |frames|
    decreases |frames|
  {
    if frames == [] then 0 else if FrameStops(frames[0]) then 1 else 1 + FramesRun(frames[1..])
  }

  /** The loop stops at the first stopping frame: all frames before it ran
      on, and it is the last. */
  lemma {:induction false} FramesRunStops(frames: seq<Frame>)
    ensures forall k :: 0 <= k < FramesRun(frames) - 1 ==> !FrameStops(frames[k])
    ensures 0 < FramesRun(frames) < |frames| ==> FrameStops(frames[FramesRun(frames) - 1])
    ensures FramesRun(frames) == 0 <==> frames == []
    decreases |frames|
  {
    if frames != [] && !FrameStops(frames[0]) {
      FramesRunStops(frames[1..]);
    }
  }

  /** The event loop of a frame: `running` is cleared by a stopping event
      and nothing sets it again. */
  method PollEvents(events: seq<SdlEvent>, running: bool) returns (stillRunning: bool)
    ensures stillRunning == (running && forall k :: 0 <= k < |events| ==> !Stops(events[k]))
  {
    stillRunning := running;
    var i := 0;
    while i < |events|
      invariant i <= |events|
      invariant stillRunning == (running && forall k :: 0 <= k < i ==> !Stops(events[k]))
    {
      if events[i] == QuitEvent {
        stillRunning := false;
      }
      if events[i] == KeyDown(SDLK_ESCAPE) {
        stillRunning := false;
      }
      i := i + 1;
    }
  }

  /** `while (running)`: poll the events, apply the keys, move. The loop is
      given a finite list of frames; it ends early once a frame's events
      stop the game, after finishing that frame. */
  method RunFrames(player: Player, frames: seq<Frame>) returns (n: nat, running: bool)
    modifies player
    ensures n == FramesRun(frames)
    ensures running <==> n == |frames| && forall k :: 0 <= k < n ==> !FrameStops(frames[k])
    ensures player.w == old(player.w) && player.h == old(player.h) && player.speed == old(player.speed)
    ensures n > 0 && FitsWindow(player.w, player.h) ==> InWindow(player.x, player.y, player.w, player.h)
  {
    n := 0;
    running := true;
    while running && n < |frames|
      invariant n <= |frames|
      invariant running ==> FramesRun(frames) == n + FramesRun(frames[n..])
      invariant running <==> forall k :: 0 <= k < n ==> !FrameStops(frames[k])
      invariant !running ==> n > 0 && FramesRun(frames) == n
      invariant player.w == old(player.w) && player.h == old(player.h) && player.speed == old(player.speed)
      invariant n > 0 && FitsWindow(player.w, player.h) ==> InWindow(player.x, player.y, player.w, player.h)
      decreases |frames| - n, running
    {
      assert frames[n..][1..] == frames[n + 1..];
      running := PollEvents(frames[n].events, running);
      player.HandleInput(frames[n].keys);
      player.Update();
      n := n + 1;
    }
  }
}
