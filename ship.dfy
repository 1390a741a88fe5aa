/** The player's ship, its lasers and the explosions they cause (scripts/objects/ship.py).
    Group membership and the laser/meteor collision step belong to the shooter screen; here
    each sprite only updates its own fields and reports whether it asked to be killed. */
module ShipSprites {
  import opened Geometry

  /** The movement keys currently held. */
  datatype Keys = Keys(up: bool, down: bool, left: bool, right: bool)

  /** One direction component: int(keys[positive]) - int(keys[negative]). */
  function Axis(positive: bool, negative: bool): (d: int)
    ensures -1 <= d <= 1
    ensures d == 0 <==> positive == negative
    ensures d == 1 <==> positive && !negative
  {
    (if positive then 1 else 0) - (if negative then 1 else 0)
  }

  /** `direction.normalize() if direction else direction` for a direction whose components are
      in {-1, 0, 1}. The diagonal case divides by the square root of 2; `diag` is that factor
      (the positive real whose square is one half). */
  function Normalized(dx: int, dy: int, diag: real): (v: Vec)
    requires -1 <= dx <= 1 && -1 <= dy <= 1
    requires diag > 0.0
    ensures dx == 0 && dy == 0 ==> v == Vec(0.0, 0.0)
    ensures (v.x > 0.0 <==> dx > 0) && (v.x < 0.0 <==> dx < 0)
    ensures (v.y > 0.0 <==> dy > 0) && (v.y < 0.0 <==> dy < 0)
    ensures v.x * dy as real == v.y * dx as real
  {
    if dx != 0 && dy != 0 then Vec(dx as real * diag, dy as real * diag)
    else Vec(dx as real, dy as real)
  }

  /** With diag the positive square root of one half, every non-zero direction is normalized
      to unit length. */
  lemma NormalizedIsUnit(dx: int, dy: int, diag: real)
    requires -1 <= dx <= 1 && -1 <= dy <= 1
    requires diag > 0.0 && diag * diag == 0.5
    ensures var v := Normalized(dx, dy, diag);
            dx != 0 || dy != 0 ==> v.x * v.x + v.y * v.y == 1.0
  {
    if dx != 0 && dy != 0 {
      var v := Normalized(dx, dy, diag);
      assert v.x * v.x == diag * diag && v.y * v.y == diag * diag;
    }
  }

  /** The four edge clamps of Ship.update, in the source's order: top, bottom, left, right. */
  function ClampToScreen(r: FRect): FRect {
    var a := if r.Top() <= 0.0 then r.WithTop(0.0) else r;
    var b := if a.Bottom() >= HEIGHT as real then a.WithBottom(HEIGHT as real) else a;
    var c := if b.Left() <= 0.0 then b.WithLeft(0.0) else b;
    if c.Right() >= WIDTH as real then c.WithRight(WIDTH as real) else c
  }

  /** The clamp of one axis: a low edge pushed up to 0, then a high edge pulled back to `limit`. */
  function ClampAxis(start: real, size: real, limit: real): real {
    var s := if start <= 0.0 then 0.0 else start;
    if s + size >= limit then limit - size else s
  }

  predicate OnScreen(r: FRect) {
    0.0 <= r.Top() && r.Bottom() <= HEIGHT as real && 0.0 <= r.Left() && r.Right() <= WIDTH as real
  }

  /** The clamps treat the two axes independently, and keep the size. */
  lemma ClampPerAxis(r: FRect)
    ensures ClampToScreen(r) == FRect(ClampAxis(r.x, r.w, WIDTH as real), ClampAxis(r.y, r.h, HEIGHT as real), r.w, r.h)
  {
  }

  /** Whatever the displacement, the clamped rectangle never pokes out at the bottom or right,
      and, when the ship fits on the screen, not at the top or left either. */
  lemma ClampKeepsShipOnScreen(r: FRect)
    ensures ClampToScreen(r).Bottom() <= HEIGHT as real && ClampToScreen(r).Right() <= WIDTH as real
    ensures r.h <= HEIGHT as real ==> ClampToScreen(r).Top() >= 0.0
    ensures r.w <= WIDTH as real ==> ClampToScreen(r).Left() >= 0.0
    ensures 0.0 <= r.h <= HEIGHT as real && 0.0 <= r.w <= WIDTH as real ==> OnScreen(ClampToScreen(r))
  {
  }

  /** A rectangle already on the screen is left where it is, so clamping twice is clamping once. */
  lemma ClampIdempotent(r: FRect)
    requires 0.0 <= r.h <= HEIGHT as real && 0.0 <= r.w <= WIDTH as real
    ensures OnScreen(r) ==> ClampToScreen(r) == r
    ensures ClampToScreen(ClampToScreen(r)) == ClampToScreen(r)
  {
    ClampKeepsShipOnScreen(r);
  }

  /** No key held means no displacement, for any delta time. */
  lemma NoInputNoMovement(r: FRect, speed: real, dt: real, diag: real)
    requires diag > 0.0
    ensures var d := Normalized(Axis(false, false), Axis(false, false), diag);
            Moved(r, d, speed, dt) == r
  {
  }

  /** The fire state: `shoot` (ready to fire) and `shoot_time` (tick of the last shot). */
  datatype Cooldown = Cooldown(shoot: bool, shootTime: int)

  /** Ship.shoot_timer: re-arm once `duration` ticks have passed since the last shot. */
  function Timer(c: Cooldown, duration: int, now: int): Cooldown {
    if !c.shoot && now - c.shootTime >= duration then c.(shoot := true) else c
  }

  /** The fire step at the end of Ship.update: fire when the shoot key was just pressed and the
      gun is ready, then run shoot_timer with the same tick. Returns the new state and whether
      a laser was fired. */
  function Fire(c: Cooldown, duration: int, justPressed: bool, now: int): (Cooldown, bool) {
    var fired := justPressed && c.shoot;
    var c1 := if fired then Cooldown(false, now) else c;
    (Timer(c1, duration, now), fired)
  }

  /** shoot_timer never disarms the gun and never moves shoot_time; it re-arms exactly when the
      gun was cold and the cooldown has elapsed. */
  lemma TimerOnlyRearms(c: Cooldown, duration: int, now: int)
    ensures Timer(c, duration, now).shootTime == c.shootTime
    ensures Timer(c, duration, now).shoot <==> c.shoot || now - c.shootTime >= duration
  {
  }

  /** A laser is fired exactly when the key was just pressed and the gun was ready; firing
      leaves the gun cold with shoot_time at the firing tick, since the same-update
      shoot_timer sees no time elapsed. */
  lemma FireLeavesGunCold(c: Cooldown, duration: int, justPressed: bool, now: int)
    requires duration > 0
    ensures Fire(c, duration, justPressed, now).1 <==> justPressed && c.shoot
    ensures Fire(c, duration, justPressed, now).1 ==> Fire(c, duration, justPressed, now).0 == Cooldown(false, now)
    ensures !Fire(c, duration, justPressed, now).1 ==> Fire(c, duration, justPressed, now).0 == Timer(c, duration, now)
  {
  }

  /** The ticks at which lasers are fired over a sequence of updates, each given as
      (shoot key just pressed, tick). */
  function Shots(c: Cooldown, duration: int, frames: seq<(bool, int)>): seq<int>
    decreases |frames|
  {
    if frames == [] then []
    else
      var step := Fire(c, duration, frames[0].0, frames[0].1);
      (if step.1 then [frames[0].1] else []) + Shots(step.0, duration, frames[1..])
  }

  /** Ticks never go backwards from one update to the next. */
  ghost predicate Ticking(frames: seq<(bool, int)>) {
    forall i :: 0 < i < |frames| ==> frames[i - 1].1 <= frames[i].1
  }

  /** Consecutive entries are at least `gap` apart. */
  ghost predicate Spaced(s: seq<int>, gap: int) {
    forall i :: 0 < i < |s| ==> s[i] - s[i - 1] >= gap
  }

  ghost predicate AllAtLeast(s: seq<int>, t: int) {
    forall i :: 0 <= i < |s| ==> s[i] >= t
  }

  /** Consecutive shots are at least `duration` ticks apart; from a cold gun the first shot
      comes `duration` ticks after the last one; and no shot is earlier than the first update. */
  lemma {:induction false} ShotsSpacedByCooldown(c: Cooldown, duration: int, frames: seq<(bool, int)>)
    requires duration > 0 && Ticking(frames)
    ensures Spaced(Shots(c, duration, frames), duration)
    ensures !c.shoot ==> AllAtLeast(Shots(c, duration, frames), c.shootTime + duration)
    ensures frames != [] ==> AllAtLeast(Shots(c, duration, frames), frames[0].1)
    decreases |frames|
  {
    if frames != [] {
      var now := frames[0].1;
      var step := Fire(c, duration, frames[0].0, now);
      var rest := frames[1..];
      assert Ticking(rest) by {
        forall i | 0 < i < |rest| ensures rest[i - 1].1 <= rest[i].1 {
          assert rest[i - 1] == frames[i] && rest[i] == frames[i + 1];
        }
      }
      ShotsSpacedByCooldown(step.0, duration, rest);
      var tail := Shots(step.0, duration, rest);
      var s := Shots(c, duration, frames);
      if rest == [] {
        assert tail == [];
      } else {
        assert rest[0] == frames[1];
        assert AllAtLeast(tail, rest[0].1);
      }
      assert AllAtLeast(tail, now);
      if step.1 {
        assert step.0 == Cooldown(false, now);
        assert AllAtLeast(tail, now + duration);
        assert s == [now] + tail;
        forall i | 0 < i < |s| ensures s[i] - s[i - 1] >= duration {
          if i > 1 {
            assert s[i] == tail[i - 1] && s[i - 1] == tail[i - 2];
          } else {
            assert s[i] == tail[0] && s[0] == now;
          }
        }
        assert AllAtLeast(s, now);
      } else {
        assert s == tail;
        if !c.shoot && step.0.shoot {
          assert now - c.shootTime >= duration;
          assert AllAtLeast(s, c.shootTime + duration);
        }
      }
    }
  }

  /** Two presses 100 ms apart fire once; the gun re-arms in the first update at least 400 ms
      after the shot (after that update's fire check), and the next press fires again. */
  lemma DoubleTapFiresOnce()
    ensures Shots(Cooldown(true, 0), 400, [(true, 1000), (true, 1100), (true, 1400), (true, 1416)]) == [1000, 1416]
  {
  }

  /** The player's ship. */
  class Ship {
    const image: Size
    var rect: FRect
    var direction: Vec
    const speed: int
    var shoot: bool
    var shootTime: int
    const shootDuration: int
    var meteorsDestroyed: int

    /** A new ship sits at the centre of the playfield, ready to fire, with no score. */
    constructor (image: Size)
      ensures this.image == image
      ensures rect == RectAtCenter(image, Vec(WIDTH as real / 2.0, HEIGHT as real / 2.0))
      ensures direction == Vec(0.0, 0.0) && speed == 300
      ensures shoot && shootTime == 0 && shootDuration == 400 && meteorsDestroyed == 0
    {
      this.image := image;
      rect := RectAtCenter(image, Vec(WIDTH as real / 2.0, HEIGHT as real / 2.0));
      direction := Vec(0.0, 0.0);
      speed := 300;
      shoot := true;
      shootTime := 0;
      shootDuration := 400;
      meteorsDestroyed := 0;
    }

    function Gun(): Cooldown
      reads this
    {
      Cooldown(shoot, shootTime)
    }

    /** What one update does to the ship's own state: the direction read from the keys and
        normalised, the move along it clamped to the playfield, and the gun after the fire
        check and shoot_timer. */
    twostate predicate Stepped(dt: real, keys: Keys, shootJustPressed: bool, now: int, diag: real)
      requires diag > 0.0
      reads this`direction, this`rect, this`shoot, this`shootTime
    {
      direction == Normalized(Axis(keys.right, keys.left), Axis(keys.down, keys.up), diag)
      && rect == ClampToScreen(Moved(old(rect), direction, speed as real, dt))
      && Cooldown(shoot, shootTime) == Fire(Cooldown(old(shoot), old(shootTime)), shootDuration, shootJustPressed, now).0
    }

    method ShootTimer(now: int)
      modifies this`shoot
      ensures Gun() == Timer(old(Gun()), shootDuration, now)
    {
      if !shoot {
        if now - shootTime >= shootDuration {
          shoot := true;
        }
      }
    }

    /** The movement part of Ship.update: read the direction keys, move by speed * dt along
        the normalised direction, then clamp the rectangle to the playfield edge by edge. */
    method Move(dt: real, keys: Keys, diag: real)
      requires diag > 0.0
      modifies this`direction, this`rect
      ensures direction == Normalized(Axis(keys.right, keys.left), Axis(keys.down, keys.up), diag)
      ensures rect == ClampToScreen(Moved(old(rect), direction, speed as real, dt))
    {
      direction := Normalized(Axis(keys.right, keys.left), Axis(keys.down, keys.up), diag);
      var r := Moved(rect, direction, speed as real, dt);
      ghost var moved := r;

      if r.Top() <= 0.0 {
        r := r.WithTop(0.0);
      }
      if r.Bottom() >= HEIGHT as real {
        r := r.WithBottom(HEIGHT as real);
      }
      if r.Left() <= 0.0 {
        r := r.WithLeft(0.0);
      }
      if r.Right() >= WIDTH as real {
        r := r.WithRight(WIDTH as real);
      }
      assert r == ClampToScreen(moved);
      rect := r;
    }

    /** One frame: move, then fire when the shoot key was just pressed. Returns the point
        where a new laser is to be spawned (the ship's mid-top), if one is fired. */
    method Update(dt: real, keys: Keys, shootJustPressed: bool, now: int, diag: real) returns (laser: Option<Vec>)
      requires diag > 0.0
      modifies this`direction, this`rect, this`shoot, this`shootTime
      ensures Stepped(dt, keys, shootJustPressed, now, diag)
      ensures (Gun(), laser.Some?) == Fire(old(Gun()), shootDuration, shootJustPressed, now)
      ensures laser.Some? ==> laser.value == rect.MidTop()
    {
      Move(dt, keys, diag);

      laser := None;
      if shootJustPressed && shoot {
        laser := Some(rect.MidTop());
        shootTime := now;
        shoot := false;
      }

      ShootTimer(now);
    }
  }

  /** A laser shot. */
  class Laser {
    const image: Size
    var rect: FRect
    const speed: int

    /** The laser starts with its mid-bottom at the given point (the ship's mid-top). */
    constructor (image: Size, shipPos: Vec)
      ensures this.image == image && rect == RectAtMidBottom(image, shipPos) && speed == 500
    {
      this.image := image;
      rect := RectAtMidBottom(image, shipPos);
      speed := 500;
    }

    /** Where one update moves a laser that was at r: up by speed * dt. */
    function MovedUp(r: FRect, dt: real): FRect {
      r.(y := r.y - speed as real * dt)
    }

    /** The motion part of Laser.update: move up by speed * dt; report whether it has left
        the top of the screen (and is to be killed). */
    method Update(dt: real) returns (offTop: bool)
      modifies this`rect
      ensures rect == MovedUp(old(rect), dt)
      ensures offTop <==> rect.Bottom() <= 0.0
    {
      rect := rect.(y := rect.y - speed as real * dt);
      offTop := rect.Bottom() <= 0.0;
    }
  }

  /** The frame shown for a frame index: int(frame_index) % len(frames). */
  function ShownFrame(frameIndex: real, n: nat): (k: nat)
    requires n > 0
    ensures k < n
  {
    Trunc(frameIndex) % n
  }

  /** Adding one to a number moves its residue to the next one, wrapping at n. */
  lemma ModSucc(f: int, n: nat)
    requires n > 0
    ensures (f + 1) % n == (f % n + 1) % n
  {
    var q, r := f / n, f % n;
    if r + 1 < n {
      DivModUnique(f + 1, n, q, r + 1);
      DivModUnique(r + 1, n, 0, r + 1);
    } else {
      DivModUnique(f + 1, n, q + 1, 0);
      DivModUnique(r + 1, n, 1, 0);
    }
  }

  /** With a step of at most one frame per update the animation never skips a frame: it shows
      the same frame again or the next one (wrapping to 0 after the last). */
  lemma FrameAdvancesByAtMostOne(frameIndex: real, step: real, n: nat)
    requires n > 0 && frameIndex >= 0.0 && 0.0 <= step <= 1.0
    ensures ShownFrame(frameIndex + step, n) == ShownFrame(frameIndex, n)
         || ShownFrame(frameIndex + step, n) == (ShownFrame(frameIndex, n) + 1) % n
  {
    var f := Trunc(frameIndex);
    var g := Trunc(frameIndex + step);
    assert f as real <= frameIndex < f as real + 1.0;
    assert g as real <= frameIndex + step < g as real + 1.0;
    assert f <= g <= f + 1;
    if g == f + 1 {
      ModSucc(f, n);
    }
  }

  /** With exactly one frame per update (frame_index 0, 1, 2, ...), the k-th index shows frame k,
      so the explosion shows every frame once, in order, and finishes on the last. */
  lemma {:induction false} UnitStepsShowEveryFrame(n: nat, k: nat)
    requires k < n
    ensures ShownFrame(k as real, n) == k
    ensures ShownFrame(k as real, n) == n - 1 <==> k == n - 1
  {
    assert (k as real).Floor == k;
    DivModUnique(k, n, 0, k);
  }

  /** A step larger than one frame can jump over the last frame: with 21 frames, going from
      index 18 to 21 shows frame 0, so the explosion is not killed and starts another cycle. */
  lemma LastFrameCanBeSkipped()
    ensures ShownFrame(18.0, 21) == 18 && ShownFrame(21.0, 21) == 0
    ensures ShownFrame(21.0, 21) != 21 - 1
  {
    assert (21.0).Floor == 21;
    assert (18.0).Floor == 18;
  }

  /** At a steady 1.5 frames per update (a 30 ms tick at 50 frames per second), an explosion of
      21 frames that starts at index 0 never shows its last frame, so it is never killed:
      int(1.5 * k) is 0 or 1 modulo 3, and 3 divides 21. */
  lemma SteadyStepNeverFinishes(k: nat)
    ensures ShownFrame(1.5 * k as real, 21) != 21 - 1
  {
    var j := k / 2;
    var t := Trunc(1.5 * k as real);
    if k % 2 == 0 {
      assert 1.5 * k as real == (3 * j) as real;
      DivModUnique(t, 3, j, 0);
    } else {
      assert 1.5 * k as real == (3 * j + 1) as real + 0.5;
      DivModUnique(t, 3, j, 1);
    }
    var q, r := t / 21, t % 21;
    DivModUnique(t, 3, 7 * q + r / 3, r % 3);
  }

  /** An explosion animation. */
  class Explosion {
    const frames: seq<Rect>
    var image: Rect
    var rect: FRect
    const framesSpeed: int
    var frameIndex: real

    /** A new explosion shows its first frame, centred on `pos`. Indexing an empty frame list
        raises in the source, so at least one frame is required. */
    constructor (frames: seq<Rect>, pos: Vec)
      requires |frames| > 0
      ensures this.frames == frames && image == frames[0]
      ensures rect == RectAtCenter(Size(frames[0].w as real, frames[0].h as real), pos)
      ensures framesSpeed == 50 && frameIndex == 0.0
    {
      this.frames := frames;
      image := frames[0];
      rect := RectAtCenter(Size(frames[0].w as real, frames[0].h as real), pos);
      framesSpeed := 50;
      frameIndex := 0.0;
    }

    /** The frame index and image one update gives an explosion whose index was i: the
        index advances by frames_speed * dt and the image is the frame it selects. */
    function After(i: real, dt: real): (real, Rect)
      requires |frames| > 0
    {
      var j := i + framesSpeed as real * dt;
      (j, frames[ShownFrame(j, |frames|)])
    }

    /** The shown frame is the last one: the explosion is then killed. */
    predicate Finished()
      reads this
    {
      |frames| > 0 && ShownFrame(frameIndex, |frames|) == |frames| - 1
    }

    /** Advance the frame index by frames_speed * dt, show the matching frame, and report
        whether the shown frame is the last one (the explosion is then killed). */
    method Update(dt: real) returns (finished: bool)
      requires |frames| > 0
      modifies this`frameIndex, this`image
      ensures (frameIndex, image) == After(old(frameIndex), dt)
      ensures finished <==> Finished()
    {
      frameIndex := frameIndex + framesSpeed as real * dt;
      image := frames[Trunc(frameIndex) % |frames|];
      finished := |frames| == Trunc(frameIndex) % |frames| + 1;
    }
  }
}
