/** `SideScrollBitmap`: a bitmap shown through a row of one-column tiles,
    so that scrolling moves the tile map instead of the pixels. Screen
    column `i` shows bitmap column `(origin + i) % width`. */
module SideScroll {
  import opened PyOps

  /** The bitmap column that screen column `col` shows. */
  function TileOf(origin: int, width: int, col: int): (t: int)
    requires width > 0
    ensures 0 <= t < width
  {
    (origin + col) % width
  }

  /** No two screen columns show the same bitmap column. */
  lemma TilesAreDistinct(origin: int, width: int, i: int, j: int)
    requires width > 0 && 0 <= i < j < width
    ensures TileOf(origin, width, i) != TileOf(origin, width, j)
  {
    var a, b := origin + i, origin + j;
    if a % width == b % width {
      assert b - a == (b / width - a / width) * width;
      var k := b / width - a / width;
      if k >= 1 {
        MulNonneg(k - 1, width);
      } else {
        MulNonneg(-k, width);
      }
    }
  }

  /** Every bitmap column is on screen, at column `(c - origin) % width`. */
  lemma EveryColumnShown(origin: int, width: int, c: int)
    requires width > 0 && 0 <= c < width
    ensures 0 <= (c - origin) % width < width
    ensures TileOf(origin, width, (c - origin) % width) == c
  {
    var k := (c - origin) % width;
    var q := (c - origin) / width;
    assert c - origin == q * width + k;
    DivModUnique(origin + k, width, -q, c);
  }

  /** The column `set_rh_pixel` writes, `(origin - 1 + width) % width`, is
      the one the rightmost screen column shows; after the origin moves on
      by one, it is the column the leftmost screen column showed. */
  lemma RightHandColumn(origin: int, width: int)
    requires width > 0
    ensures (origin - 1 + width) % width == TileOf(origin, width, width - 1)
    ensures (origin + 1 - 1 + width) % width == TileOf(origin, width, 0)
  {
    DivModUnique(origin + width, width, origin / width + 1, origin % width);
  }

  /** Scrolling left by one: each screen column shows what its right-hand
      neighbour showed, and the rightmost shows what the leftmost did. */
  lemma ScrollShiftsTiles(origin: int, width: int, col: int)
    requires width > 0 && 0 <= col < width
    ensures col < width - 1 ==> TileOf(origin + 1, width, col) == TileOf(origin, width, col + 1)
    ensures col == width - 1 ==> TileOf(origin + 1, width, col) == TileOf(origin, width, 0)
  {
    if col == width - 1 {
      DivModUnique(origin + width, width, origin / width + 1, origin % width);
    }
  }

  class SideScrollBitmap {
    const x: int
    const y: int
    const width: int
    const height: int
    var origin: int
    /** The tile grid: the bitmap column each screen column shows. */
    const tiles: array<int>
    const bitmap: array2<int>

    /** The sizes of the tile grid and the bitmap. */
    ghost predicate Shape()
    {
      width > 0 && tiles.Length == width && bitmap.Length0 == width && bitmap.Length1 == height
    }

    ghost predicate Valid()
      reads this, tiles
    {
      Shape() && forall i :: 0 <= i < width ==> tiles[i] == TileOf(origin, width, i)
    }

    /** The value on screen at column `col`, row `row`. */
    ghost function Screen(col: int, row: int): int
      reads this, tiles, bitmap
      requires Valid() && 0 <= col < width && 0 <= row < height
    {
      bitmap[tiles[col], row]
    }

    /** `__init__`: a cleared bitmap shown from origin 0. */
    constructor (x: int, y: int, width: int, height: int)
      requires width > 0 && height >= 0
      ensures Valid() && origin == 0
      ensures this.width == width && this.height == height
      ensures fresh(tiles) && fresh(bitmap)
      ensures forall c, r :: 0 <= c < width && 0 <= r < height ==> bitmap[c, r] == 0
    {
      this.x := x;
      this.y := y;
      this.width := width;
      this.height := height;
      tiles := new int[width];
      bitmap := new int[width, height]((_, _) => 0);
      new;
      DisplayAt(0);
    }

    /** `display_at(origin)`: point screen column i at bitmap column
        `(origin + i) % width`. */
    method DisplayAt(newOrigin: int)
      requires Shape()
      modifies this`origin, tiles
      ensures Valid() && origin == newOrigin
    {
      origin := newOrigin;
      for tile := 0 to width
        invariant Shape() && origin == newOrigin
        invariant forall i :: 0 <= i < tile ==> tiles[i] == TileOf(origin, width, i)
      {
        tiles[tile] := (newOrigin + tile) % width;
      }
    }

    /** `set_rh_pixel(y, val)`: set the pixel on the rightmost screen
        column; nothing else on screen changes. `raised` reports the
        IndexError of a row outside the bitmap, which changes nothing. */
    method SetRhPixel(row: int, val: int := 1) returns (raised: bool)
      requires Valid()
      modifies bitmap
      ensures Valid()
      ensures raised <==> !(0 <= row < height)
      ensures raised ==> unchanged(bitmap)
      ensures !raised ==> Screen(width - 1, row) == val
      ensures !raised ==> forall c, r :: 0 <= c < width && 0 <= r < height && (c, r) != (width - 1, row) ==>
                Screen(c, r) == old(bitmap[tiles[c], r])
    {
      var col := (origin - 1 + width) % width;
      if !(0 <= row < height) {
        return true;
      }
      raised := false;
      RightHandColumn(origin, width);
      bitmap[col, row] := val;
      forall c | 0 <= c < width - 1
        ensures tiles[c] != col
      {
        TilesAreDistinct(origin, width, c, width - 1);
      }
    }

    /** `scroll_left(steps)`: move the origin on by one column (the step
        count is not used) and clear the column that comes in on the
        right. */
    method ScrollLeft(steps: int := 1)
      requires Valid()
      modifies this`origin, tiles, bitmap
      ensures Valid() && origin == old(origin) + 1
      ensures forall c, r :: 0 <= c < width && 0 <= r < height ==>
                Screen(c, r) == if c < width - 1 then old(bitmap[tiles[c + 1], r]) else 0
    {
      ghost var oldOrigin := origin;
      DisplayAt(origin + 1);
      var col := (origin - 1 + width) % width;
      RightHandColumn(oldOrigin, width);
      for row := 0 to height
        invariant Valid() && origin == oldOrigin + 1
        invariant forall r :: 0 <= r < row ==> bitmap[col, r] == 0
        invariant forall c, r :: 0 <= c < width && 0 <= r < height && (c != col || r >= row) ==>
                    bitmap[c, r] == old(bitmap[c, r])
      {
        bitmap[col, row] := 0;
      }
      forall c | 0 <= c < width
        ensures tiles[c] == TileOf(oldOrigin + 1, width, c)
        ensures c < width - 1 ==> tiles[c] == old(tiles[c + 1]) && tiles[c] != col
        ensures c == width - 1 ==> tiles[c] == col
      {
        ScrollShiftsTiles(oldOrigin, width, c);
        if c < width - 1 {
          TilesAreDistinct(oldOrigin + 1, width, c, width - 1);
          ScrollShiftsTiles(oldOrigin, width, width - 1);
        }
      }
    }
  }
}
