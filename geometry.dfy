/** Small value types shared by the sprites: pygame's float rectangle (FRect), its integer
    rectangle (Rect), image sizes, and Python's int() and round() on exact reals. */
module Geometry {

  /** The fixed logical playfield (Screen.WIDTH and Screen.HEIGHT); resizing the window
      never changes it. */
  const WIDTH: int := 1280
  const HEIGHT: int := 720

  datatype Option<T> = None | Some(value: T)

  /** The size of a surface (image). */
  datatype Size = Size(w: real, h: real)

  /** A point, or a 2D vector. */
  datatype Vec = Vec(x: real, y: real)

  /** pygame.FRect: top-left corner and size, all floats. Assigning to a derived attribute
      (center, top, bottom, ...) moves the rectangle and keeps its size. */
  datatype FRect = FRect(x: real, y: real, w: real, h: real) {
    function Top(): real { y }
    function Bottom(): real { y + h }
    function Left(): real { x }
    function Right(): real { x + w }
    function Center(): Vec { Vec(x + w / 2.0, y + h / 2.0) }
    function MidTop(): Vec { Vec(x + w / 2.0, y) }
    function MidBottom(): Vec { Vec(x + w / 2.0, y + h) }

    function WithCenter(c: Vec): (r: FRect)
      ensures r.Center() == c && r.w == w && r.h == h
    {
      FRect(c.x - w / 2.0, c.y - h / 2.0, w, h)
    }
    function WithTop(t: real): (r: FRect)
      ensures r.Top() == t && r.x == x && r.w == w && r.h == h
    {
      this.(y := t)
    }
    function WithBottom(b: real): (r: FRect)
      ensures r.Bottom() == b && r.x == x && r.w == w && r.h == h
    {
      this.(y := b - h)
    }
    function WithLeft(l: real): (r: FRect)
      ensures r.Left() == l && r.y == y && r.w == w && r.h == h
    {
      this.(x := l)
    }
    function WithRight(rt: real): (r: FRect)
      ensures r.Right() == rt && r.y == y && r.w == w && r.h == h
    {
      this.(x := rt - w)
    }
  }

  /** image.get_frect(center = c) */
  function RectAtCenter(s: Size, c: Vec): (r: FRect)
    ensures r.Center() == c && r.w == s.w && r.h == s.h
  {
    FRect(c.x - s.w / 2.0, c.y - s.h / 2.0, s.w, s.h)
  }

  /** image.get_frect(midbottom = p) */
  function RectAtMidBottom(s: Size, p: Vec): (r: FRect)
    ensures r.MidBottom() == p && r.w == s.w && r.h == s.h
  {
    FRect(p.x - s.w / 2.0, p.y - s.h, s.w, s.h)
  }

  /** `rect.center += direction * speed * delta_time`: the centre moves, the size is kept. */
  function Moved(r: FRect, direction: Vec, speed: real, dt: real): (m: FRect)
    ensures m.w == r.w && m.h == r.h
    ensures m.Center() == Vec(r.Center().x + direction.x * speed * dt, r.Center().y + direction.y * speed * dt)
  {
    r.WithCenter(Vec(r.Center().x + direction.x * speed * dt, r.Center().y + direction.y * speed * dt))
  }

  /** pygame.Rect: integer top-left corner and size. Setting its centre uses the integer half
      of the size, as pygame does. */
  datatype Rect = Rect(x: int, y: int, w: int, h: int) {
    function Center(): (int, int) { (x + w / 2, y + h / 2) }
    function WithCenter(cx: int, cy: int): (r: Rect)
      ensures r.Center() == (cx, cy) && r.w == w && r.h == h
    {
      Rect(cx - w / 2, cy - h / 2, w, h)
    }
  }

  /** Quotient and remainder are determined by any decomposition a == q * n + r with
      0 <= r < n. */
  lemma DivModUnique(a: int, n: int, q: int, r: int)
    requires n > 0 && 0 <= r < n && a == q * n + r
    ensures a / n == q && a % n == r
  {
    var d := q - a / n;
    assert d * n == a % n - r;
  }

  /** Python's int() on a float: truncation toward zero. */
  function Trunc(r: real): (n: int)
    ensures r >= 0.0 ==> n as real <= r < n as real + 1.0
    ensures r < 0.0 ==> n as real - 1.0 < r <= n as real
  {
    if r >= 0.0 then r.Floor else -((-r).Floor)
  }

  /** Python's round() on a float: to the nearest integer, halves to the even neighbour. */
  function RoundHalfEven(r: real): (n: int)
    ensures n as real - 0.5 <= r <= n as real + 0.5
    ensures r - r.Floor as real == 0.5 ==> n % 2 == 0
  {
    var f := r.Floor;
    var frac := r - f as real;
    if frac < 0.5 then f
    else if frac > 0.5 then f + 1
    else if f % 2 == 0 then f
    else f + 1
  }
}
