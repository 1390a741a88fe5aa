/** Loaded images and the sprite groups (scripts/basics/assets.py). Images are represented by
    their sizes; a sprite group is the set of ids of the sprites registered in it. */
module AssetStore {
  import opened Geometry

  function Min(a: int, b: int): int { if a <= b then a else b }
  function Max(a: int, b: int): int { if a >= b then a else b }

  /** How many rectangles animated_sprites emits: `frames` of them, but no more than the grid holds. */
  function FrameCount(frames: int, rows: nat, cols: nat): nat {
    Min(Max(frames, 0), rows * cols)
  }

  /** The k-th cell of a grid with `cols` columns of w-by-h cells, in row-major order. */
  function GridRect(k: nat, cols: nat, w: nat, h: nat): Rect
    requires cols > 0
  {
    Rect((k % cols) * w, (k / cols) * h, w, h)
  }

  /** Surface.subsurface accepts a rectangle only if it lies within the surface. */
  predicate InsideSurface(r: Rect, sheetW: int, sheetH: int) {
    0 <= r.x && 0 <= r.y && r.x + r.w <= sheetW && r.y + r.h <= sheetH
  }

  /** The result of slicing a sheet: its frames, or the first rectangle that subsurface
      rejected (a ValueError in the source). */
  datatype Slicing = Frames(rects: seq<Rect>) | OutsideSurface(rect: Rect)

  /** Cell (row y, column x) is cell number y * cols + x of the row-major order. */
  lemma GridIndex(y: nat, x: nat, cols: nat, w: nat, h: nat)
    requires x < cols
    ensures GridRect(y * cols + x, cols, w, h) == Rect(x * w, y * h, w, h)
  {
    DivModUnique(y * cols + x, cols, y, x);
  }

  /** Multiplying by a natural number keeps an order. */
  lemma MulLe(a: nat, b: nat, c: nat)
    requires a <= b
    ensures a * c <= b * c
  {
    assert b * c - a * c == (b - a) * c;
  }

  /** Every cell of a rows-by-cols grid lies inside a sheet of cols*w by rows*h. */
  lemma GridInsideSheet(k: nat, rows: nat, cols: nat, w: nat, h: nat)
    requires cols > 0 && k < rows * cols
    ensures InsideSurface(GridRect(k, cols, w, h), cols * w, rows * h)
  {
    var x, y := k % cols, k / cols;
    assert k == y * cols + x;
    if y >= rows {
      MulLe(rows, y, cols);
      assert false;
    }
    MulLe(x + 1, cols, w);
    MulLe(y + 1, rows, h);
    assert x * w + w == (x + 1) * w;
    assert y * h + h == (y + 1) * h;
  }

  /** The explosion sheet: 21 frames from a 5-by-5 grid of 50-by-50 cells, all inside any
      sheet of at least 250 by 250 pixels. */
  lemma ExplosionSheet(sheetW: int, sheetH: int)
    requires sheetW >= 250 && sheetH >= 250
    ensures FrameCount(21, 5, 5) == 21
    ensures forall k :: 0 <= k < 21 ==> InsideSurface(GridRect(k, 5, 50, 50), sheetW, sheetH)
  {
    forall k | 0 <= k < 21 ensures InsideSurface(GridRect(k, 5, 50, 50), sheetW, sheetH) {
      GridInsideSheet(k, 5, 5, 50, 50);
    }
  }

  class Assets {
    const shipImage: Size
    const starImage: Size
    const meteorImage: Size
    const laserImage: Size
    const explosionFrames: seq<Rect>

    var allSprites: set<nat>
    var meteorSprites: set<nat>
    var laserSprites: set<nat>

    /** Load the images; the explosion sheet is sliced into 21 frames of a 5-by-5 grid of
        50-by-50 cells. Slicing raises unless the sheet is at least 250 by 250, and a failed
        load is fatal, so the sheet is required to be that large. The source creates the
        groups only in groups(); here they start empty. */
    constructor (ship: Size, star: Size, meteor: Size, laser: Size, sheetW: int, sheetH: int)
      requires sheetW >= 250 && sheetH >= 250
      ensures shipImage == ship && starImage == star && meteorImage == meteor && laserImage == laser
      ensures |explosionFrames| == 21
      ensures forall k :: 0 <= k < 21 ==> explosionFrames[k] == GridRect(k, 5, 50, 50)
      ensures allSprites == {} && meteorSprites == {} && laserSprites == {}
    {
      shipImage, starImage, meteorImage, laserImage := ship, star, meteor, laser;
      ExplosionSheet(sheetW, sheetH);
      var sliced := AnimatedSprites(21, 5, 5, 50, 50, sheetW, sheetH);
      explosionFrames := sliced.rects;
      allSprites, meteorSprites, laserSprites := {}, {}, {};
    }

    /** Replace the three groups with fresh, empty ones. */
    method Groups()
      modifies this`allSprites, this`meteorSprites, this`laserSprites
      ensures allSprites == {} && meteorSprites == {} && laserSprites == {}
    {
      allSprites := {};
      meteorSprites := {};
      laserSprites := {};
    }

    /** Slice a sheet into `frames` cells of a rows-by-cols grid of w-by-h cells, row by row,
        stopping once `frames` cells have been taken. */
    static method AnimatedSprites(frames: int, rows: nat, cols: nat, w: nat, h: nat, sheetW: int, sheetH: int)
      returns (result: Slicing)
      ensures result.Frames? <==>
                forall k :: 0 <= k < FrameCount(frames, rows, cols) ==>
                  cols > 0 && InsideSurface(GridRect(k, cols, w, h), sheetW, sheetH)
      ensures result.Frames? ==> |result.rects| == FrameCount(frames, rows, cols)
      ensures result.Frames? ==>
                forall k :: 0 <= k < |result.rects| ==> cols > 0 && result.rects[k] == GridRect(k, cols, w, h)
      ensures result.OutsideSurface? ==>
                !InsideSurface(result.rect, sheetW, sheetH)
                && exists k :: 0 <= k < FrameCount(frames, rows, cols) && cols > 0 && result.rect == GridRect(k, cols, w, h)
    {
      var imagesFrames: seq<Rect> := [];
      var count := 1;
      for y := 0 to rows
        invariant count == |imagesFrames| + 1
        invariant |imagesFrames| == Min(Max(frames, 0), y * cols)
        invariant forall k :: 0 <= k < |imagesFrames| ==>
                    cols > 0 && imagesFrames[k] == GridRect(k, cols, w, h) && InsideSurface(imagesFrames[k], sheetW, sheetH)
      {
        for x := 0 to cols
          invariant count == |imagesFrames| + 1
          invariant |imagesFrames| == Min(Max(frames, 0), y * cols + x)
          invariant forall k :: 0 <= k < |imagesFrames| ==>
                      cols > 0 && imagesFrames[k] == GridRect(k, cols, w, h) && InsideSurface(imagesFrames[k], sheetW, sheetH)
        {
          if count <= frames {
            var cell := Rect(x * w, y * h, w, h);
            GridIndex(y, x, cols, w, h);
            assert |imagesFrames| == y * cols + x;
            if !InsideSurface(cell, sheetW, sheetH) {
              assert y * cols + x < FrameCount(frames, rows, cols) by {
                MulLe(y + 1, rows, cols);
                assert y * cols + x < y * cols + cols == (y + 1) * cols;
              }
              return OutsideSurface(cell);
            }
            imagesFrames := imagesFrames + [cell];
            count := count + 1;
          }
        }
        assert y * cols + cols == (y + 1) * cols;
      }
      assert |imagesFrames| == FrameCount(frames, rows, cols);
      return Frames(imagesFrames);
    }
  }
}
