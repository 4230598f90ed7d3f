/** Direct rendering of bitmap-font text onto a cell array: a glyph is a
    grid of booleans, a font maps characters to glyphs, and the cell array
    is indexed `[x, y]` with `x` across and `y` down. */
module Glyphs {

  /** A glyph of a bitmap font; `bits[gx][gy]` is set where it has ink. */
  datatype Glyph = Glyph(width: nat, height: nat, bits: seq<seq<bool>>)

  predicate WellFormed(g: Glyph)
  {
    |g.bits| == g.width && forall gx :: 0 <= gx < g.width ==> |g.bits[gx]| == g.height
  }

  /** A font: the glyph `get_glyph` returns for each character it has. */
  type Font = map<char, Glyph>

  /** Every character of `text` has a well-formed glyph in `font`. */
  predicate Covers(font: Font, text: string)
  {
    forall i :: 0 <= i < |text| ==> text[i] in font && WellFormed(font[text[i]])
  }

  /** Whether the glyph, placed with its top-left corner at (x, y), inks
      the cell (px, py). */
  predicate Inks(g: Glyph, x: int, y: int, px: int, py: int)
    requires WellFormed(g)
  {
    x <= px < x + g.width && y <= py < y + g.height && g.bits[px - x][py - y]
  }

  /** The value of cell (px, py), previously `v`, after the glyph is
      pasted at (x, y) in `color`. */
  function PastedCell(v: int, g: Glyph, x: int, y: int, color: int, px: int, py: int): int
    requires WellFormed(g)
  {
    if Inks(g, x, y, px, py) then color else v
  }

  /** The horizontal space `text` takes: each glyph's width plus one
      column of spacing. */
  function TextWidth(text: string, font: Font): (w: nat)
    requires Covers(font, text)
    ensures text != [] ==> w >= |text|
  {
    if text == [] then 0 else font[text[0]].width + 1 + TextWidth(text[1..], font)
  }

  /** The value of cell (px, py), previously `v`, after `text` is printed
      from (x, y) in `color`. */
  function PrintedCell(v: int, x: int, y: int, text: string, font: Font, color: int, px: int, py: int): int
    requires Covers(font, text)
    decreases |text|
  {
    if text == [] then v
    else
      var g := font[text[0]];
      PrintedCell(PastedCell(v, g, x, y, color, px, py), x + g.width + 1, y, text[1..], font, color, px, py)
  }

  /** `paste_bitmap`: every inked cell of the glyph that falls inside the
      bitmap takes `color`; the rest of the bitmap is left alone. */
  method PasteBitmap(glyph: Glyph, x: int, y: int, bitmap: array2<int>, color: int)
    requires WellFormed(glyph) && x >= 0 && y >= 0
    modifies bitmap
    ensures forall px, py :: 0 <= px < bitmap.Length0 && 0 <= py < bitmap.Length1 ==>
              bitmap[px, py] == PastedCell(old(bitmap[px, py]), glyph, x, y, color, px, py)
  {
    for gx := 0 to glyph.width
      invariant forall px, py :: 0 <= px < bitmap.Length0 && 0 <= py < bitmap.Length1 ==>
                  bitmap[px, py] == (if px < x + gx then PastedCell(old(bitmap[px, py]), glyph, x, y, color, px, py)
                                     else old(bitmap[px, py]))
    {
      for gy := 0 to glyph.height
        invariant forall px, py :: 0 <= px < bitmap.Length0 && 0 <= py < bitmap.Length1 ==>
                    bitmap[px, py] == (if px < x + gx || (px == x + gx && py < y + gy)
                                       then PastedCell(old(bitmap[px, py]), glyph, x, y, color, px, py)
                                       else old(bitmap[px, py]))
      {
        if glyph.bits[gx][gy] && x + gx < bitmap.Length0 && y + gy < bitmap.Length1 {
          bitmap[x + gx, y + gy] := color;
        }
      }
    }
  }

  /** `print_on_bitmap`: paste each character's glyph in turn, moving right
      by the glyph's width plus one after each. */
  method PrintOnBitmap(bitmap: array2<int>, x: int, y: int, text: string, font: Font, color: int)
    requires x >= 0 && y >= 0 && Covers(font, text)
    modifies bitmap
    ensures forall px, py :: 0 <= px < bitmap.Length0 && 0 <= py < bitmap.Length1 ==>
              bitmap[px, py] == PrintedCell(old(bitmap[px, py]), x, y, text, font, color, px, py)
  {
    var cx := x;
    for i := 0 to |text|
      invariant cx >= 0
      invariant forall px, py :: 0 <= px < bitmap.Length0 && 0 <= py < bitmap.Length1 ==>
                  PrintedCell(old(bitmap[px, py]), x, y, text, font, color, px, py)
                  == PrintedCell(bitmap[px, py], cx, y, text[i..], font, color, px, py)
    {
      var glyph := font[text[i]];
      assert text[i..][0] == text[i] && text[i..][1..] == text[i + 1..];
      PasteBitmap(glyph, cx, y, bitmap, color);
      cx := cx + glyph.width + 1;
    }
  }

  /** A printed cell keeps its value or takes the text's colour. */
  lemma {:induction false} PrintedCellIsOldOrColor(v: int, x: int, y: int, text: string, font: Font, color: int, px: int, py: int)
    requires Covers(font, text)
    ensures PrintedCell(v, x, y, text, font, color, px, py) in {v, color}
    decreases |text|
  {
    if text != [] {
      var g := font[text[0]];
      var v' := PastedCell(v, g, x, y, color, px, py);
      PrintedCellIsOldOrColor(v', x + g.width + 1, y, text[1..], font, color, px, py);
    }
  }

  /** Cells left of the start or right of the text's width keep their
      value. */
  lemma {:induction false} PrintedCellOutsideText(v: int, x: int, y: int, text: string, font: Font, color: int, px: int, py: int)
    requires Covers(font, text)
    requires px < x || px >= x + TextWidth(text, font)
    ensures PrintedCell(v, x, y, text, font, color, px, py) == v
    decreases |text|
  {
    if text != [] {
      var g := font[text[0]];
      assert !Inks(g, x, y, px, py);
      PrintedCellOutsideText(v, x + g.width + 1, y, text[1..], font, color, px, py);
    }
  }

  /** The glyphs of a text do not overlap: a cell in the columns of the
      k-th character gets exactly what that character's glyph, pasted at
      the text start plus the width of the characters before it, gives it. */
  lemma {:induction false} PrintedCellInGlyph(v: int, x: int, y: int, text: string, font: Font, color: int,
                                              px: int, py: int, k: nat)
    requires Covers(font, text) && k < |text|
    requires x + TextWidth(text[..k], font) <= px < x + TextWidth(text[..k], font) + font[text[k]].width
    ensures PrintedCell(v, x, y, text, font, color, px, py)
            == PastedCell(v, font[text[k]], x + TextWidth(text[..k], font), y, color, px, py)
    decreases k
  {
    var g := font[text[0]];
    var x' := x + g.width + 1;
    if k == 0 {
      assert text[..0] == [];
      PrintedCellOutsideText(PastedCell(v, g, x, y, color, px, py), x', y, text[1..], font, color, px, py);
    } else {
      assert text[..k][0] == text[0] && text[..k][1..] == text[1..][..k - 1];
      assert TextWidth(text[..k], font) == g.width + 1 + TextWidth(text[1..][..k - 1], font);
      assert !Inks(g, x, y, px, py);
      PrintedCellInGlyph(v, x', y, text[1..], font, color, px, py, k - 1);
    }
  }
}
