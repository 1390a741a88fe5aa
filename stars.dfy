/** Background stars (scripts/objects/stars.py): placed once, never updated. */
module StarSprite {
  import opened Geometry

  class Stars {
    /** Neither field is ever reassigned after construction. */
    const image: Size
    const rect: FRect

    /** A star shows the given image centred on the drawn integer point of the playfield. */
    constructor (image: Size, cx: int, cy: int)
      requires 0 <= cx <= WIDTH && 0 <= cy <= HEIGHT
      ensures this.image == image && rect == RectAtCenter(image, Vec(cx as real, cy as real))
      ensures 0.0 <= rect.Center().x <= WIDTH as real && 0.0 <= rect.Center().y <= HEIGHT as real
    {
      this.image := image;
      rect := RectAtCenter(image, Vec(cx as real, cy as real));
    }

    /** Stars.update does nothing, whatever the delta time. */
    method Update(dt: real)
      ensures unchanged(this)
    {
    }
  }
}
