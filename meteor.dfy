/** Falling, spinning meteors (scripts/objects/meteor.py). The random draws of the
    constructor are its parameters; rotozoom's effect on the image size is a function of the
    accumulated angle, supplied by the caller. */
module MeteorSprite {
  import opened Geometry

  /** The rotation-speed draw: a coin randint(0, 1), then randint(-100, -50) on 0 and
      randint(50, 100) on 1. */
  predicate SpinDraw(coin: int, spin: int) {
    0 <= coin <= 1
    && (coin == 0 ==> -100 <= spin <= -50)
    && (coin == 1 ==> 50 <= spin <= 100)
  }

  /** A meteor always spins, at 50 to 100 degrees per second, in either direction. */
  lemma SpinAwayFromZero(coin: int, spin: int)
    requires SpinDraw(coin, spin)
    ensures -100 <= spin <= -50 || 50 <= spin <= 100
    ensures !(-50 < spin < 50)
  {
  }

  /** The meteor's direction (u, 1) is never normalised (the normalised vector is discarded),
      so each update moves the centre down by exactly speed * dt and sideways by u * speed * dt. */
  lemma FallsBySpeed(r: FRect, u: real, speed: real, dt: real)
    ensures Moved(r, Vec(u, 1.0), speed, dt).Center().y == r.Center().y + speed * dt
    ensures Moved(r, Vec(u, 1.0), speed, dt).Center().x == r.Center().x + u * speed * dt
  {
  }

  class Meteor {
    const originalImage: Size
    var image: Size
    var rect: FRect
    const speed: int
    const direction: Vec
    const creationTime: int
    var rotation: real
    const rotationSpeed: int

    /** A meteor spawned with its mid-bottom at (x, 0) on the top edge, given the draws
        x in [0, WIDTH], speed in [50, 300], horizontal drift u in [-0.5, 0.5] and the spin. */
    constructor (image: Size, x: int, speed: int, u: real, now: int, coin: int, spin: int)
      requires 0 <= x <= WIDTH && 50 <= speed <= 300 && -0.5 <= u <= 0.5 && SpinDraw(coin, spin)
      ensures originalImage == image && this.image == image
      ensures rect == RectAtMidBottom(image, Vec(x as real, 0.0))
      ensures this.speed == speed && direction == Vec(u, 1.0)
      ensures creationTime == now && rotation == 0.0 && rotationSpeed == spin
    {
      originalImage := image;
      this.image := image;
      rect := RectAtMidBottom(image, Vec(x as real, 0.0));
      this.speed := speed;
      direction := Vec(u, 1.0);
      creationTime := now;
      rotation := 0.0;
      rotationSpeed := spin;
    }

    /** The rectangle, angle and image one update gives a meteor that was at r with angle a:
        the angle grows by rotation_speed * dt, the image is the original rotated by it, and
        the rectangle is rebuilt from that image around the centre moved by
        speed * direction * dt. */
    function After(r: FRect, a: real, dt: real, rotated: real -> Size): (FRect, real, Size) {
      var angle := a + rotationSpeed as real * dt;
      (RectAtCenter(rotated(angle), Moved(r, direction, speed as real, dt).Center()), angle, rotated(angle))
    }

    /** One update of a meteor that was at r moves its top to the bottom edge of the screen
        or below it (the meteor is then killed). */
    predicate FallsOff(r: FRect, dt: real) {
      Moved(r, direction, speed as real, dt).Top() >= HEIGHT as real
    }

    /** One frame: move by speed * direction * dt, report whether the moved rectangle's top
        has reached the bottom of the screen (the meteor is then killed, but the update goes
        on), add rotation_speed * dt to the angle, and rebuild the rectangle around the same
        centre from the rotated image. */
    method Update(dt: real, rotated: real -> Size) returns (offBottom: bool)
      modifies this`rect, this`rotation, this`image
      ensures (rect, rotation, image) == After(old(rect), old(rotation), dt, rotated)
      ensures offBottom <==> FallsOff(old(rect), dt)
      ensures rect.Center().y == old(rect).Center().y + speed as real * direction.y * dt
    {
      rect := Moved(rect, direction, speed as real, dt);
      offBottom := rect.Top() >= HEIGHT as real;
      rotation := rotation + rotationSpeed as real * dt;
      image := rotated(rotation);
      rect := RectAtCenter(image, rect.Center());
    }
  }
}
