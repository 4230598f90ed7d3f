/** The chart rasteriser of `DataDisplay`: one channel of the log drawn
    into a `plot_w` by `h` cell array. Colour 0 and 1 are the two
    alternating background bands (one band per time legend), which also
    serve as the colours of the hour legends; colour 2 is the trace.

    `Setup` collects the display's fixed parameters; the functions below
    give the value of every cell after `display`, and the class
    `DataDisplay` draws it in place, loop by loop as the source does. */
module Chart {
  import opened PyOps
  import opened Glyphs
  import Calendar
  import Logging

  /** Columns at the left reserved for the value labels. */
  const LegendW: int := 8

  datatype Setup = Setup(plotW: int, h: int, secsPerPixel: int, secsPerLegend: int,
                         parity: int, showTimeLegend: bool, numData: int)

  function PixelsPerLegend(s: Setup): int
    requires s.secsPerPixel > 0
  {
    FloorDiv(s.secsPerLegend, s.secsPerPixel)
  }

  /** The size a chart needs to be drawn at all: a column and a row to
      draw in, a positive time per pixel and at least one pixel per
      legend band (its modulus). */
  predicate Drawable(s: Setup)
  {
    s.plotW > 0 && s.h > 0 && s.secsPerPixel > 0 && PixelsPerLegend(s) > 0
  }

  // ---------------------------------------------------------------------
  // Value range

  function SeqMin(xs: seq<real>): (m: real)
    requires xs != []
    ensures forall i :: 0 <= i < |xs| ==> m <= xs[i]
    ensures exists i :: 0 <= i < |xs| && m == xs[i]
  {
    if |xs| == 1 then xs[0]
    else
      var m := SeqMin(xs[1..]);
      assert forall i :: 1 <= i < |xs| ==> xs[i] == xs[1..][i - 1];
      if xs[0] <= m then xs[0] else m
  }

  function SeqMax(xs: seq<real>): (m: real)
    requires xs != []
    ensures forall i :: 0 <= i < |xs| ==> xs[i] <= m
    ensures exists i :: 0 <= i < |xs| && m == xs[i]
  {
    if |xs| == 1 then xs[0]
    else
      var m := SeqMax(xs[1..]);
      assert forall i :: 1 <= i < |xs| ==> xs[i] == xs[1..][i - 1];
      if xs[0] >= m then xs[0] else m
  }

  /** `data_min` after widening: floor of the minimum, lowered so that
      the range is at least one. */
  function DataMin(xs: seq<real>): int
    requires xs != []
  {
    Min(Floor(SeqMin(xs)), Ceil(SeqMax(xs)) - 1)
  }

  /** `data_max` after widening. */
  function DataMax(xs: seq<real>): int
    requires xs != []
  {
    Max(DataMin(xs) + 1, Ceil(SeqMax(xs)))
  }

  /** The widened range encloses every value, reaches at least the floor
      of the minimum and the ceiling of the maximum, and is never empty. */
  lemma RangeWidening(xs: seq<real>)
    requires xs != []
    ensures DataMin(xs) <= Floor(SeqMin(xs)) && DataMax(xs) >= Ceil(SeqMax(xs))
    ensures DataMax(xs) - DataMin(xs) >= 1
    ensures forall i :: 0 <= i < |xs| ==> DataMin(xs) as real <= xs[i] <= DataMax(xs) as real
  {
  }

  /** When every value is the same whole number n the range is [n-1, n]. */
  lemma RangeOfConstantData(xs: seq<real>, n: int)
    requires xs != [] && forall i :: 0 <= i < |xs| ==> xs[i] == n as real
    ensures DataMin(xs) == n - 1 && DataMax(xs) == n
  {
    assert SeqMin(xs) == n as real && SeqMax(xs) == n as real;
  }

  // ---------------------------------------------------------------------
  // Rows and columns of the trace

  /** `data_x`: the column a sample at time `t` is drawn in. */
  function DataColumn(s: Setup, latest: int, t: int): int
    requires s.secsPerPixel > 0
  {
    s.plotW - 1 - FloorDiv(latest - t, s.secsPerPixel)
  }

  /** `data_y`: the row of value `v` in a range [lo, hi]. */
  function DataRow(h: int, lo: int, hi: int, v: real): int
    requires lo < hi
  {
    Round((h - 1) as real * (1.0 - (v - lo as real) / (hi - lo) as real))
  }

  /** The newest sample is drawn in the last column, no sample at or
      before it lies further right, an older sample never lies right of a
      newer one, and a sample k whole pixel periods old lies k columns to
      the left. */
  lemma ColumnsOfSamples(s: Setup, latest: int, t1: int, t2: int)
    requires s.secsPerPixel > 0
    ensures DataColumn(s, latest, latest) == s.plotW - 1
    ensures t1 <= latest ==> DataColumn(s, latest, t1) <= s.plotW - 1
    ensures t1 <= t2 ==> DataColumn(s, latest, t1) <= DataColumn(s, latest, t2)
  {
    var p := s.secsPerPixel;
    DivModUnique(0, p, 0, 0);
    if t1 <= latest {
      FloorDivMonotone(0, latest - t1, p);
    }
    if t1 <= t2 {
      FloorDivMonotone(latest - t2, latest - t1, p);
    }
  }

  lemma ColumnOfAge(s: Setup, latest: int, k: int, r: int)
    requires s.secsPerPixel > 0 && 0 <= r < s.secsPerPixel
    ensures DataColumn(s, latest, latest - k * s.secsPerPixel - r) == s.plotW - 1 - k
  {
    DivModUnique(k * s.secsPerPixel + r, s.secsPerPixel, k, r);
  }

  /** Every value of the range lands in a row of the plot: the top of the
      range in row 0, its bottom in row h - 1. */
  lemma RowInRange(h: int, lo: int, hi: int, v: real)
    requires h >= 1 && lo < hi && lo as real <= v <= hi as real
    ensures 0 <= DataRow(h, lo, hi, v) <= h - 1
    ensures v == hi as real ==> DataRow(h, lo, hi, v) == 0
    ensures v == lo as real ==> DataRow(h, lo, hi, v) == h - 1
  {
    RatioInUnit(v - lo as real, (hi - lo) as real);
    RowOfFraction(h, (v - lo as real) / (hi - lo) as real);
  }

  /** Rounding `(h - 1) * (1 - f)` for a fraction `f` of the range gives a
      row in `0..h-1`, row 0 for the whole range and `h - 1` for none. */
  lemma RowOfFraction(h: int, f: real)
    requires h >= 1 && 0.0 <= f <= 1.0
    ensures 0 <= Round((h - 1) as real * (1.0 - f)) <= h - 1
    ensures f == 1.0 ==> Round((h - 1) as real * (1.0 - f)) == 0
    ensures f == 0.0 ==> Round((h - 1) as real * (1.0 - f)) == h - 1
  {
    ScaleInRange((h - 1) as real, 1.0 - f);
    RoundWithin((h - 1) as real * (1.0 - f), h - 1);
    if f == 1.0 {
      RoundOfInteger(0);
    } else if f == 0.0 {
      RoundOfInteger(h - 1);
    }
  }

  lemma RatioInUnit(num: real, den: real)
    requires den > 0.0 && 0.0 <= num <= den
    ensures 0.0 <= num / den <= 1.0
    ensures num == den ==> num / den == 1.0
    ensures num == 0.0 ==> num / den == 0.0
  {
    assert (num / den) * den == num;
  }

  lemma ScaleInRange(a: real, g: real)
    requires a >= 0.0 && 0.0 <= g <= 1.0
    ensures 0.0 <= a * g <= a
  {
    assert a * g <= a * 1.0;
  }

  // ---------------------------------------------------------------------
  // Background bands

  /** `local_time_in_pixels` of plot column x, with the offset
      `x - plot_w - 1` the background loop uses. */
  function LocalTimeInPixels(s: Setup, latest: int, x: int): int
    requires s.secsPerPixel > 0
  {
    FloorDiv(latest + 3600 * Calendar.TzHours + (x - s.plotW - 1) * s.secsPerPixel, s.secsPerPixel)
  }

  /** The band a column belongs to. */
  function Band(s: Setup, latest: int, x: int): int
    requires Drawable(s)
  {
    FloorDiv(LocalTimeInPixels(s, latest, x), PixelsPerLegend(s))
  }

  /** `pixel_within_legend`. */
  function PixelWithinLegend(s: Setup, latest: int, x: int): int
    requires Drawable(s)
  {
    LocalTimeInPixels(s, latest, x) % PixelsPerLegend(s)
  }

  /** `bg_pixel`: the colour of a column's background band. */
  function BgPixel(s: Setup, latest: int, x: int): (b: int)
    requires Drawable(s)
    ensures b == 0 || b == 1
  {
    (Band(s, latest, x) + s.parity) % 2
  }

  /** Moving one column right moves local time on by one pixel. */
  lemma LocalTimeIsLinear(s: Setup, latest: int, x: int)
    requires s.secsPerPixel > 0
    ensures LocalTimeInPixels(s, latest, x) == LocalTimeInPixels(s, latest, 0) + x
  {
    var p := s.secsPerPixel;
    var a := latest + 3600 * Calendar.TzHours + (0 - s.plotW - 1) * p;
    assert (x - s.plotW - 1) * p == (0 - s.plotW - 1) * p + x * p;
    DivModUnique(a + x * p, p, a / p + x, a % p);
  }

  /** Swapping `legend_parity` between 0 and 1 inverts every background
      cell. */
  lemma ParityInverts(s: Setup, latest: int, x: int)
    requires Drawable(s) && (s.parity == 0 || s.parity == 1)
    ensures BgPixel(s.(parity := 1 - s.parity), latest, x) == 1 - BgPixel(s, latest, x)
  {
    var b := Band(s, latest, x);
    DivModUnique(b + s.parity, 2, (b + s.parity) / 2, (b + s.parity) % 2);
    if (b + s.parity) % 2 == 0 {
      DivModUnique(b + 1 - s.parity, 2, (b + s.parity) / 2 - s.parity, 1);
    } else {
      DivModUnique(b + 1 - s.parity, 2, (b + s.parity) / 2 + 1 - s.parity, 0);
    }
  }

  // ---------------------------------------------------------------------
  // Time legends

  /** The first column at which a band starts; the source computes it as
      the last (leftmost) column of the background loop with
      `pixel_within_legend == 0`, and this is the closed form its
      commented-out line gives, `(-ltp0) mod ppl`. */
  function EarliestLegendX(s: Setup, latest: int): (e: int)
    requires Drawable(s)
    ensures 0 <= e < PixelsPerLegend(s)
  {
    (-LocalTimeInPixels(s, latest, 0)) % PixelsPerLegend(s)
  }

  /** The closed form is the smallest column at which a band starts, and
      it starts band number `Band(s, latest, 0)` or the next one. */
  lemma EarliestLegendIsFirst(s: Setup, latest: int)
    requires Drawable(s)
    ensures PixelWithinLegend(s, latest, EarliestLegendX(s, latest)) == 0
    ensures forall x :: 0 <= x < EarliestLegendX(s, latest) ==> PixelWithinLegend(s, latest, x) != 0
  {
    var p := PixelsPerLegend(s);
    var l0 := LocalTimeInPixels(s, latest, 0);
    var e := EarliestLegendX(s, latest);
    var k := (-l0) / p;
    assert -l0 == k * p + e;
    LocalTimeIsLinear(s, latest, e);
    DivModUnique(l0 + e, p, -k, 0);
    forall x | 0 <= x < e
      ensures PixelWithinLegend(s, latest, x) != 0
    {
      LocalTimeIsLinear(s, latest, x);
      DivModUnique(l0 + x, p, -k - 1, p + x - e);
    }
  }

  /** The legends sit on band boundaries: the i-th legend column starts a
      band, i bands after the first legend's. */
  lemma LegendsOnBandStarts(s: Setup, latest: int, i: nat)
    requires Drawable(s)
    ensures PixelWithinLegend(s, latest, EarliestLegendX(s, latest) + i * PixelsPerLegend(s)) == 0
    ensures Band(s, latest, EarliestLegendX(s, latest) + i * PixelsPerLegend(s)) == Band(s, latest, EarliestLegendX(s, latest)) + i
  {
    var p := PixelsPerLegend(s);
    var l0 := LocalTimeInPixels(s, latest, 0);
    var e := EarliestLegendX(s, latest);
    var k := (-l0) / p;
    assert -l0 == k * p + e;
    LocalTimeIsLinear(s, latest, e);
    LocalTimeIsLinear(s, latest, e + i * p);
    DivModUnique(l0 + e, p, -k, 0);
    DivModUnique(l0 + e + i * p, p, -k + i, 0);
  }

  /** `'{:02d}'.format(n)` for 0 <= n < 100. */
  function TwoDigits(n: int): (t: string)
    requires 0 <= n < 100
    ensures |t| == 2 && forall i :: 0 <= i < 2 ==> '0' <= t[i] <= '9'
    ensures 10 * (t[0] as int - '0' as int) + (t[1] as int - '0' as int) == n
  {
    [('0' as int + n / 10) as char, ('0' as int + n % 10) as char]
  }

  /** The font has a glyph for every decimal digit. */
  predicate HasDigits(font: Font)
  {
    forall c: char :: '0' <= c <= '9' ==> c in font && WellFormed(font[c])
  }

  /** The hour printed at legend column `lx`: the local hour of the
      column's pixel, `((ltp0 + lx) * spp // 3600) % 24`. */
  function LegendHour(s: Setup, latest: int, lx: int): (hour: int)
    requires s.secsPerPixel > 0
    ensures 0 <= hour < 24
  {
    FloorDiv((LocalTimeInPixels(s, latest, 0) + lx) * s.secsPerPixel, 3600) % 24
  }

  /** The colour the i-th legend is printed in, as written. */
  function LegendColor(s: Setup, i: int): (c: int)
    ensures c == 0 || c == 1
  {
    (s.parity + i + 1) % 2
  }

  /** The value of cell (px, py), previously `v`, after the legends from
      column `lx` on (the i-th onwards) are printed. */
  function LegendsCell(s: Setup, latest: int, font: Font, v: int, lx: int, i: int, px: int, py: int): int
    requires Drawable(s) && HasDigits(font) && lx >= 0
    decreases s.plotW - lx
  {
    if lx >= s.plotW then v
    else
      var text := TwoDigits(LegendHour(s, latest, lx));
      LegendsCell(s, latest, font, PrintedCell(v, lx + 1, 0, text, font, LegendColor(s, i), px, py),
                  lx + PixelsPerLegend(s), i + 1, px, py)
  }

  /** Printing legends over a band colour leaves a band colour. */
  lemma {:induction false} LegendsCellIsBinary(s: Setup, latest: int, font: Font, v: int, lx: int, i: int, px: int, py: int)
    requires Drawable(s) && HasDigits(font) && lx >= 0 && (v == 0 || v == 1)
    ensures LegendsCell(s, latest, font, v, lx, i, px, py) in {0, 1}
    decreases s.plotW - lx
  {
    if lx < s.plotW {
      var text := TwoDigits(LegendHour(s, latest, lx));
      PrintedCellIsOldOrColor(v, lx + 1, 0, text, font, LegendColor(s, i), px, py);
      var v' := PrintedCell(v, lx + 1, 0, text, font, LegendColor(s, i), px, py);
      LegendsCellIsBinary(s, latest, font, v', lx + PixelsPerLegend(s), i + 1, px, py);
    }
  }

  /** As written the i-th legend's colour is chosen by i alone, so it
      differs from the band it is printed on (for bands wider than one
      column) exactly when the first legend's band has an even number. */
  lemma LegendContrast(s: Setup, latest: int, i: nat)
    requires Drawable(s) && PixelsPerLegend(s) >= 2
    ensures var lx := EarliestLegendX(s, latest) + i * PixelsPerLegend(s);
      LegendColor(s, i) != BgPixel(s, latest, lx + 1) <==> Band(s, latest, EarliestLegendX(s, latest)) % 2 == 0
  {
    var lx := EarliestLegendX(s, latest) + i * PixelsPerLegend(s);
    LegendsOnBandStarts(s, latest, i);
    BandStartNeighbour(s, latest, lx);
    ParityShift(s.parity + i, Band(s, latest, EarliestLegendX(s, latest)));
  }

  lemma ParityShift(a: int, b: int)
    ensures (a + 1) % 2 != (a + b) % 2 <==> b % 2 == 0
  {
  }

  /** A concrete chart where the first legend is invisible: with the
      default 12-minute pixels and 6-hour bands, a 120-column plot and the
      newest sample at 126720 s, the first legend is at column 0 and its
      text has the colour of its band. */
  lemma FirstLegendInvisible()
    ensures var s := Setup(120, 15, 720, 21600, 0, true, 120);
      && EarliestLegendX(s, 126720) == 0
      && LegendColor(s, 0) == BgPixel(s, 126720, 1)
  {
    var s := Setup(120, 15, 720, 21600, 0, true, 120);
    DivModUnique(21600, 720, 30, 0);
    DivModUnique(126720 - 18000 - 121 * 720, 720, 30, 0);
    DivModUnique(126720 - 18000 - 120 * 720, 720, 31, 0);
    DivModUnique(31, 30, 1, 1);
  }

  /** The colour the legends were evidently meant to have: the opposite of
      the band they are printed on. */
  function IntendedLegendColor(s: Setup, latest: int, lx: int): int
    requires Drawable(s)
  {
    1 - BgPixel(s, latest, lx)
  }

  /** With the intended colour every legend stands out from its band. */
  lemma IntendedLegendContrast(s: Setup, latest: int, i: nat)
    requires Drawable(s) && PixelsPerLegend(s) >= 2
    ensures var lx := EarliestLegendX(s, latest) + i * PixelsPerLegend(s);
      && IntendedLegendColor(s, latest, lx) in {0, 1}
      && IntendedLegendColor(s, latest, lx) != BgPixel(s, latest, lx + 1)
  {
    var lx := EarliestLegendX(s, latest) + i * PixelsPerLegend(s);
    LegendsOnBandStarts(s, latest, i);
    BandStartNeighbour(s, latest, lx);
  }

  /** The column after a band start is in the same band, when bands are
      wider than one column. */
  lemma BandStartNeighbour(s: Setup, latest: int, lx: int)
    requires Drawable(s) && PixelsPerLegend(s) >= 2 && PixelWithinLegend(s, latest, lx) == 0
    ensures Band(s, latest, lx + 1) == Band(s, latest, lx)
  {
    var p := PixelsPerLegend(s);
    var l := LocalTimeInPixels(s, latest, lx);
    LocalTimeIsLinear(s, latest, lx);
    LocalTimeIsLinear(s, latest, lx + 1);
    assert l == (l / p) * p;
    DivModUnique(l + 1, p, l / p, 1);
  }

  // ---------------------------------------------------------------------
  // The whole chart

  /** The legends can be drawn when they are asked for: some column starts
      a band (otherwise `earliest_legend_x` is never bound) and the font
      has the digits. */
  predicate LegendsFit(s: Setup, font: Font, latest: int)
    requires Drawable(s)
  {
    s.showTimeLegend ==> EarliestLegendX(s, latest) < s.plotW && HasDigits(font)
  }

  /** A cell after the background loop and the legends. */
  function BackgroundCell(s: Setup, font: Font, latest: int, px: int, py: int): int
    requires Drawable(s) && LegendsFit(s, font, latest)
  {
    if s.showTimeLegend then LegendsCell(s, latest, font, BgPixel(s, latest, px), EarliestLegendX(s, latest), 0, px, py)
    else BgPixel(s, latest, px)
  }

  /** The background and legends use only the two band colours. */
  lemma BackgroundCellIsBinary(s: Setup, font: Font, latest: int, px: int, py: int)
    requires Drawable(s) && LegendsFit(s, font, latest)
    ensures BackgroundCell(s, font, latest, px, py) in {0, 1}
  {
    if s.showTimeLegend {
      LegendsCellIsBinary(s, latest, font, BgPixel(s, latest, px), EarliestLegendX(s, latest), 0, px, py);
    }
  }

  /** Sample j of the window lands on cell (px, py). */
  predicate Hit(s: Setup, times: seq<int>, data: seq<real>, lo: int, hi: int, j: int, px: int, py: int)
    requires Drawable(s) && |times| == |data| && 0 <= j < |times| && lo < hi
  {
    var c := DataColumn(s, times[|times| - 1], times[j]);
    c >= 0 && px == c && py == DataRow(s.h, lo, hi, data[j])
  }

  /** Some sample from index m on lands on cell (px, py). */
  predicate HitFrom(s: Setup, times: seq<int>, data: seq<real>, lo: int, hi: int, m: nat, px: int, py: int)
    requires Drawable(s) && |times| == |data| && lo < hi
    decreases |times| - m
  {
    m < |times| && (Hit(s, times, data, lo, hi, m, px, py) || HitFrom(s, times, data, lo, hi, m + 1, px, py))
  }

  lemma {:induction false} HitFromIff(s: Setup, times: seq<int>, data: seq<real>, lo: int, hi: int, m: nat, px: int, py: int)
    requires Drawable(s) && |times| == |data| && lo < hi
    ensures HitFrom(s, times, data, lo, hi, m, px, py) <==>
              exists j :: m <= j < |times| && Hit(s, times, data, lo, hi, j, px, py)
    decreases |times| - m
  {
    if m < |times| {
      HitFromIff(s, times, data, lo, hi, m + 1, px, py);
    }
  }

  /** What `display` demands: a drawable chart, parallel non-empty windows
      whose samples are no newer than the last, and legends that fit. */
  predicate CanDisplay(s: Setup, font: Font, times: seq<int>, data: seq<real>)
  {
    var t := PySuffix(times, s.numData);
    var d := PySuffix(data, s.numData);
    && Drawable(s) && |times| == |data| && d != []
    && (forall i :: 0 <= i < |t| ==> t[i] <= t[|t| - 1])
    && LegendsFit(s, font, t[|t| - 1])
  }

  /** A window the drawing loops can chart: parallel non-empty sequences,
      no sample newer than the last, values inside [lo, hi], and legends
      that fit. */
  predicate DrawableWindow(s: Setup, font: Font, t: seq<int>, d: seq<real>, lo: int, hi: int)
  {
    && Drawable(s) && |t| == |d| && t != []
    && (forall i :: 0 <= i < |t| ==> t[i] <= t[|t| - 1])
    && lo < hi && (forall i :: 0 <= i < |d| ==> lo as real <= d[i] <= hi as real)
    && LegendsFit(s, font, t[|t| - 1])
  }

  /** The value of cell (px, py) after the window (t, d) is charted over
      the range [lo, hi]: the trace colour where a sample lands, the
      background and legends elsewhere. */
  function WindowCell(s: Setup, font: Font, t: seq<int>, d: seq<real>, lo: int, hi: int, px: int, py: int): int
    requires Drawable(s) && |t| == |d| && t != [] && lo < hi && LegendsFit(s, font, t[|t| - 1])
  {
    if HitFrom(s, t, d, lo, hi, 0, px, py) then 2 else BackgroundCell(s, font, t[|t| - 1], px, py)
  }

  /** The value of cell (px, py) after `display(times, data)`. */
  function ChartCell(s: Setup, font: Font, times: seq<int>, data: seq<real>, px: int, py: int): int
    requires CanDisplay(s, font, times, data)
  {
    var t := PySuffix(times, s.numData);
    var d := PySuffix(data, s.numData);
    WindowCell(s, font, t, d, DataMin(d), DataMax(d), px, py)
  }

  /** The window `display` charts can be drawn with the widened range. */
  lemma WindowIsDrawable(s: Setup, font: Font, times: seq<int>, data: seq<real>)
    requires CanDisplay(s, font, times, data)
    ensures var t := PySuffix(times, s.numData); var d := PySuffix(data, s.numData);
      DrawableWindow(s, font, t, d, DataMin(d), DataMax(d))
  {
    RangeWidening(PySuffix(data, s.numData));
  }

  /** Every cell of the chart is a band colour or the trace colour, and it
      is the trace colour exactly where a sample of the window lands. The
      previous contents of the cell array play no part. */
  lemma ChartCellValues(s: Setup, font: Font, times: seq<int>, data: seq<real>, px: int, py: int)
    requires CanDisplay(s, font, times, data)
    ensures ChartCell(s, font, times, data, px, py) in {0, 1, 2}
    ensures var t := PySuffix(times, s.numData); var d := PySuffix(data, s.numData);
      ChartCell(s, font, times, data, px, py) == 2 <==>
        exists j :: 0 <= j < |t| && Hit(s, t, d, DataMin(d), DataMax(d), j, px, py)
  {
    var t := PySuffix(times, s.numData);
    var d := PySuffix(data, s.numData);
    HitFromIff(s, t, d, DataMin(d), DataMax(d), 0, px, py);
    BackgroundCellIsBinary(s, font, t[|t| - 1], px, py);
  }

  /** Started without a data file (or with an empty one), the log holds no
      record, so every channel fetched from it is empty and `display`
      charts an empty window: `min([])` raises ValueError on the first
      `update_displays` of the start-up sequence. */
  lemma BootWithoutFileHasEmptyWindow(maxLen: int, channel: nat, numData: int)
    ensures Logging.LoadOutcome(Logging.EmptyLog, [], maxLen) == Logging.Loaded(Logging.EmptyLog)
    ensures var log := Logging.LoadOutcome(Logging.EmptyLog, [], maxLen).log;
      && Logging.HasChannel(log.data, channel)
      && PySuffix(Logging.ChannelValues(log.data, channel), numData) == []
  {
    Logging.LoadEmptyFile(Logging.EmptyLog, maxLen);
  }

  // ---------------------------------------------------------------------
  // The object

  /** `DataDisplay`: a chart of one channel of a log. The text labels are
      kept as the numbers they show. */
  class DataDisplay {
    const x: int
    const y: int
    const w: int
    const h: int
    const logger: Logging.LogData
    const channel: nat
    /** The number under which the log knows this display. */
    const id: nat
    const secsPerPixel: int
    const secsPerLegend: int
    const legendParity: int
    const showTimeLegend: bool
    const numData: int
    const plotW: int
    const bitmap: array2<int>
    const font: Font
    var minLabel: int
    var maxLabel: int
    var valueLabel: real

    function Config(): Setup
    {
      Setup(plotW, h, secsPerPixel, secsPerLegend, legendParity, showTimeLegend, numData)
    }

    ghost predicate Valid()
    {
      plotW == w - LegendW && bitmap.Length0 == plotW && bitmap.Length1 == h
    }

    /** `__init__`: register with the log and allocate a cleared
        `plot_w` by `h` cell array. */
    constructor (x: int, y: int, w: int, h: int, logger: Logging.LogData, channel: nat, id: nat, font: Font,
                 secsPerPixel: int := 12 * 60, secsPerLegend: int := 6 * 60 * 60, legendParity: int := 0,
                 showTimeLegend: bool := false)
      requires w >= LegendW && h >= 0
      modifies logger`registeredDisplays
      ensures Valid()
      ensures this.logger == logger && this.channel == channel && this.id == id && this.font == font
      ensures Config() == Setup(w - LegendW, h, secsPerPixel, secsPerLegend, legendParity, showTimeLegend, logger.maxLen)
      ensures fresh(bitmap) && forall px, py :: 0 <= px < plotW && 0 <= py < h ==> bitmap[px, py] == 0
      ensures logger.registeredDisplays == old(logger.registeredDisplays) + [id]
    {
      this.x := x;
      this.y := y;
      this.w := w;
      this.h := h;
      this.logger := logger;
      this.channel := channel;
      this.id := id;
      this.secsPerPixel := secsPerPixel;
      this.secsPerLegend := secsPerLegend;
      this.legendParity := legendParity;
      this.showTimeLegend := showTimeLegend;
      this.numData := logger.maxLen;
      this.plotW := w - LegendW;
      this.bitmap := new int[w - LegendW, h]((_, _) => 0);
      this.font := font;
      minLabel, maxLabel, valueLabel := 0, 0, 0.0;
      new;
      logger.RegisterDisplay(id);
    }

    /** The background loop: every column, right to left, is filled with
        its band colour; the leftmost column that starts a band is
        remembered (`bound` says whether there was one), and so is the
        last `local_time_in_pixels`, that of column 0. */
    method FillBackground(latest: int, ppl: int) returns (earliest: int, bound: bool, ltp: int)
      requires Valid() && Drawable(Config()) && ppl == PixelsPerLegend(Config())
      modifies bitmap
      ensures forall px, py :: 0 <= px < plotW && 0 <= py < h ==> bitmap[px, py] == BgPixel(Config(), latest, px)
      ensures ltp == LocalTimeInPixels(Config(), latest, 0)
      ensures bound <==> EarliestLegendX(Config(), latest) < plotW
      ensures bound ==> earliest == EarliestLegendX(Config(), latest)
    {
      earliest, bound, ltp := 0, false, 0;
      for xx := 0 to plotW
        invariant forall px, py :: plotW - xx <= px < plotW && 0 <= py < h ==> bitmap[px, py] == BgPixel(Config(), latest, px)
        invariant xx > 0 ==> ltp == LocalTimeInPixels(Config(), latest, plotW - xx)
        invariant bound ==> plotW - xx <= earliest < plotW && PixelWithinLegend(Config(), latest, earliest) == 0
        invariant bound ==> forall c :: plotW - xx <= c < earliest ==> PixelWithinLegend(Config(), latest, c) != 0
        invariant !bound ==> forall c :: plotW - xx <= c < plotW ==> PixelWithinLegend(Config(), latest, c) != 0
      {
        var col := plotW - 1 - xx;
        var localTime := latest + 3600 * Calendar.TzHours + (col - plotW - 1) * secsPerPixel;
        ltp := FloorDiv(localTime, secsPerPixel);
        var bgPixel := (FloorDiv(ltp, ppl) + legendParity) % 2;
        var pixelWithinLegend := ltp % ppl;
        assert ltp == LocalTimeInPixels(Config(), latest, col);
        assert bgPixel == BgPixel(Config(), latest, col);
        assert pixelWithinLegend == PixelWithinLegend(Config(), latest, col);
        if pixelWithinLegend == 0 {
          earliest, bound := col, true;
        }
        FillColumn(col, bgPixel);
      }
      EarliestLegendIsFirst(Config(), latest);
    }

    /** The inner background loop: one column takes the value `v`. */
    method FillColumn(col: int, v: int)
      requires Valid() && 0 <= col < plotW
      modifies bitmap
      ensures forall px, py :: 0 <= px < plotW && 0 <= py < h ==>
                bitmap[px, py] == if px == col then v else old(bitmap[px, py])
    {
      for row := 0 to h
        invariant forall px, py :: 0 <= px < plotW && 0 <= py < h ==>
                    bitmap[px, py] == if px == col && py < row then v else old(bitmap[px, py])
      {
        bitmap[col, row] := v;
      }
    }

    /** The legend loop: the hour of each band start from `earliest` on,
        printed one column to its right, in alternating colours. */
    method DrawTimeLegends(latest: int, earliest: int, ltp: int, ppl: int)
      requires Valid() && Drawable(Config()) && HasDigits(font)
      requires ppl == PixelsPerLegend(Config()) && ltp == LocalTimeInPixels(Config(), latest, 0)
      requires earliest == EarliestLegendX(Config(), latest)
      modifies bitmap
      ensures forall px, py :: 0 <= px < plotW && 0 <= py < h ==>
                bitmap[px, py] == LegendsCell(Config(), latest, font, old(bitmap[px, py]), earliest, 0, px, py)
    {
      var i, legendX := 0, earliest;
      while legendX < plotW
        invariant legendX >= 0
        invariant forall px, py :: 0 <= px < plotW && 0 <= py < h ==>
                    LegendsCell(Config(), latest, font, old(bitmap[px, py]), earliest, 0, px, py)
                    == LegendsCell(Config(), latest, font, bitmap[px, py], legendX, i, px, py)
        decreases plotW - legendX
      {
        var text := TwoDigits(FloorDiv((ltp + legendX) * secsPerPixel, 3600) % 24);
        PrintOnBitmap(bitmap, legendX + 1, 0, text, font, (legendParity + i + 1) % 2);
        i, legendX := i + 1, legendX + ppl;
      }
    }

    /** The trace loop: newest sample first, each sample that falls in a
        column of the plot sets its cell to 2. */
    method DrawTrace(times: seq<int>, data: seq<real>, latest: int, lo: int, hi: int)
      requires Valid() && Drawable(Config()) && |times| == |data| && times != []
      requires latest == times[|times| - 1] && forall i :: 0 <= i < |times| ==> times[i] <= latest
      requires lo < hi && forall i :: 0 <= i < |data| ==> lo as real <= data[i] <= hi as real
      modifies bitmap
      ensures forall px, py :: 0 <= px < plotW && 0 <= py < h ==>
                bitmap[px, py] == if HitFrom(Config(), times, data, lo, hi, 0, px, py) then 2 else old(bitmap[px, py])
    {
      for index := 0 to |data|
        invariant forall px, py :: 0 <= px < plotW && 0 <= py < h ==>
                    bitmap[px, py] == if HitFrom(Config(), times, data, lo, hi, |data| - index, px, py) then 2 else old(bitmap[px, py])
      {
        var datum := data[|data| - (index + 1)];
        var time := times[|times| - (index + 1)];
        var dataX := DataColumn(Config(), latest, time);
        ColumnsOfSamples(Config(), latest, time, latest);
        if dataX >= 0 {
          var dataY := DataRow(h, lo, hi, datum);
          RowInRange(h, lo, hi, datum);
          bitmap[dataX, dataY] := 2;
        }
      }
    }

    /** The background loop followed, when asked for, by the legend loop. */
    method DrawBackground(latest: int)
      requires Valid() && Drawable(Config()) && LegendsFit(Config(), font, latest)
      modifies bitmap
      ensures forall px, py :: 0 <= px < plotW && 0 <= py < h ==> bitmap[px, py] == BackgroundCell(Config(), font, latest, px, py)
    {
      var ppl := FloorDiv(secsPerLegend, secsPerPixel);
      var earliest, bound, ltp := FillBackground(latest, ppl);
      if showTimeLegend {
        DrawTimeLegends(latest, earliest, ltp, ppl);
      }
    }

    /** The three drawing loops over a window of samples whose values lie
        in [lo, hi]. */
    method DrawWindow(t: seq<int>, d: seq<real>, lo: int, hi: int)
      requires Valid() && DrawableWindow(Config(), font, t, d, lo, hi)
      modifies bitmap
      ensures forall px, py :: 0 <= px < plotW && 0 <= py < h ==>
                bitmap[px, py] == WindowCell(Config(), font, t, d, lo, hi, px, py)
    {
      var latest := t[|t| - 1];
      DrawBackground(latest);
      DrawTrace(t, d, latest, lo, hi);
    }

    /** `display(times, data)`: the last `num_data` samples are charted
        over the whole cell array, and the labels show the range and the
        newest value. `raised` reports the ValueError `min` raises when
        that window is empty; nothing is drawn then. */
    method Display(times: seq<int>, data: seq<real>) returns (raised: bool)
      requires Valid() && (PySuffix(data, numData) != [] ==> CanDisplay(Config(), font, times, data))
      modifies bitmap, this`minLabel, this`maxLabel, this`valueLabel
      ensures raised <==> PySuffix(data, numData) == []
      ensures raised ==> unchanged(bitmap) && unchanged(this)
      ensures !raised ==> forall px, py :: 0 <= px < plotW && 0 <= py < h ==>
                bitmap[px, py] == ChartCell(Config(), font, times, data, px, py)
      ensures var d := PySuffix(data, numData);
        !raised ==> minLabel == DataMin(d) && maxLabel == DataMax(d) && valueLabel == d[|d| - 1]
    {
      var d := PySuffix(data, Config().numData);
      if d == [] {
        return true;
      }
      raised := false;
      var t := PySuffix(times, Config().numData);
      var dataMin, dataMax := WidenedRange(d);
      WindowIsDrawable(Config(), font, times, data);
      DrawWindow(t, d, dataMin, dataMax);
      minLabel, maxLabel, valueLabel := dataMin, dataMax, d[|d| - 1];
    }

    /** The range computation of `display`: floor of the minimum and
        ceiling of the maximum, widened to a span of at least one. */
    method WidenedRange(d: seq<real>) returns (dataMin: int, dataMax: int)
      requires d != []
      ensures dataMin == DataMin(d) && dataMax == DataMax(d)
    {
      dataMin := Floor(SeqMin(d));
      dataMax := Ceil(SeqMax(d));
      dataMin := Min(dataMin, dataMax - 1);
      dataMax := Max(dataMin + 1, dataMax);
    }

    /** `display_log`: chart this display's channel of the log. `raised`
        reports the IndexError `fetch_data` raises on a record without the
        channel, or the ValueError of `display` on an empty window; the
        chart and its labels are then left as they were. */
    method DisplayLog() returns (raised: bool)
      requires Valid() && logger.Valid()
      requires Logging.HasChannel(logger.data, channel) &&
               PySuffix(Logging.ChannelValues(logger.data, channel), numData) != [] ==>
                 CanDisplay(Config(), font, logger.times, Logging.ChannelValues(logger.data, channel))
      modifies bitmap, this`minLabel, this`maxLabel, this`valueLabel
      ensures raised <==> !Logging.HasChannel(logger.data, channel) ||
                          PySuffix(Logging.ChannelValues(logger.data, channel), numData) == []
      ensures raised ==> unchanged(bitmap) && unchanged(this)
      ensures !raised ==> forall px, py :: 0 <= px < plotW && 0 <= py < h ==>
                bitmap[px, py] == ChartCell(Config(), font, logger.times, Logging.ChannelValues(logger.data, channel), px, py)
    {
      var fetchRaised, ts, channelData := logger.FetchData(channel);
      if fetchRaised {
        return true;
      }
      raised := Display(ts, channelData);
    }

    /** `display_log` as evidently intended: an empty log is not charted,
        so the display only fails on a record without its channel. */
    method DisplayLogSkippingEmpty() returns (raised: bool)
      requires Valid() && logger.Valid()
      requires Logging.HasChannel(logger.data, channel) &&
               PySuffix(Logging.ChannelValues(logger.data, channel), numData) != [] ==>
                 CanDisplay(Config(), font, logger.times, Logging.ChannelValues(logger.data, channel))
      modifies bitmap, this`minLabel, this`maxLabel, this`valueLabel
      ensures raised <==> !Logging.HasChannel(logger.data, channel)
      ensures logger.data == [] ==> unchanged(bitmap) && unchanged(this)
      ensures !raised && PySuffix(Logging.ChannelValues(logger.data, channel), numData) != [] ==>
                forall px, py :: 0 <= px < plotW && 0 <= py < h ==>
                  bitmap[px, py] == ChartCell(Config(), font, logger.times, Logging.ChannelValues(logger.data, channel), px, py)
    {
      var fetchRaised, ts, channelData := logger.FetchData(channel);
      if fetchRaised {
        return true;
      }
      if PySuffix(channelData, Config().numData) != [] {
        var displayRaised := Display(ts, channelData);
      }
      raised := false;
    }
  }
}
