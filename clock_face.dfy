/** The integer part of the clock face (`update_time_display`): the
    blinking colon and the seconds bar, which fills from the left during
    one minute and empties towards the right during the next. */
module ClockFace {
  import opened PyOps
  import Calendar

  /** The colon's text for local second `sec`: blank on odd seconds
      (`tm_sec & 1`). */
  function ColonText(sec: int): (t: string)
    ensures |t| == 1
  {
    if sec % 2 == 1 then " " else ":"
  }

  /** The colon shows on every other second. */
  lemma ColonBlinks(sec: int)
    ensures ColonText(sec) == ":" <==> sec % 2 == 0
    ensures ColonText(sec + 1) != ColonText(sec)
  {
  }

  /** `bar_secs = 1 + ((tm_sec + 59) % 60)`: second 0 reads as 60. */
  function BarSecs(sec: int): (b: int)
    ensures 1 <= b <= 60
  {
    1 + (sec + 59) % 60
  }

  lemma BarSecsOfSecond(sec: int)
    requires 0 <= sec < 60
    ensures BarSecs(sec) == if sec == 0 then 60 else sec
  {
    if sec == 0 {
      assert (sec + 59) % 60 == 59;
    } else {
      DivModUnique(sec + 59, 60, 1, sec - 1);
    }
  }

  /** `sec_mid_x = int(round(sec_total_w * bar_secs / 60))`. */
  function SecMidX(totalW: int, barSecs: int): int
  {
    Round((totalW * barSecs) as real / 60.0)
  }

  /** The middle point lies within the bar's frame, and with the clock's
      60-pixel bar it is the seconds count itself. */
  lemma SecMidXInFrame(totalW: int, barSecs: int)
    requires totalW >= 0 && 1 <= barSecs <= 60
    ensures 0 <= SecMidX(totalW, barSecs) <= totalW
    ensures totalW == 60 ==> SecMidX(totalW, barSecs) == barSecs
  {
    var p := totalW * barSecs;
    MulNonneg(totalW, barSecs);
    MulNonneg(totalW, 60 - barSecs);
    var r := p as real / 60.0;
    assert 0.0 <= r <= totalW as real;
    RoundWithin(r, totalW);
    if totalW == 60 {
      assert r == barSecs as real;
      RoundOfInteger(barSecs);
    }
  }

  /** The filled part of the bar: its left edge and width. */
  datatype Fill = Fill(x: int, w: int)

  /** Whether the fill is anchored on the right: in odd minutes counted
      from `secs - 1`, `((secs - 1) // 60) & 1`. */
  predicate RightAnchored(secsInUtc: int)
  {
    FloorDiv(secsInUtc - 1, 60) % 2 == 1
  }

  /** `sec_x`, `sec_w`: from `sec_mid_x` to the right end when right
      anchored, from the left end to `sec_mid_x` otherwise. */
  function BarFill(secsInUtc: int, totalW: int, mid: int): (f: Fill)
    requires 0 <= mid <= totalW
    ensures 0 <= f.x && 0 <= f.w && f.x + f.w <= totalW
    ensures RightAnchored(secsInUtc) ==> f.x + f.w == totalW
    ensures !RightAnchored(secsInUtc) ==> f.x == 0
  {
    if RightAnchored(secsInUtc) then Fill(mid, totalW - mid) else Fill(0, mid)
  }

  /** The fill of the clock's bar for an instant, given its local second. */
  function SecondsBar(secsInUtc: int, tmSec: int, totalW: int): Fill
    requires totalW >= 0
  {
    var mid := SecMidX(totalW, BarSecs(tmSec));
    SecMidXInFrame(totalW, BarSecs(tmSec));
    BarFill(secsInUtc, totalW, mid)
  }

  /** The anchoring changes every 60 seconds. */
  lemma AnchorAlternates(secsInUtc: int)
    ensures RightAnchored(secsInUtc + 60) <==> !RightAnchored(secsInUtc)
  {
    var k := FloorDiv(secsInUtc - 1, 60);
    DivModUnique(secsInUtc + 59, 60, k + 1, secsInUtc - 1 - 60 * k);
  }

  /** Local time differs from UTC by whole hours, so the local second is
      the UTC second of the minute. */
  lemma LocalSecondIsUtcSecond(secsInUtc: int, year: int)
    ensures Calendar.LocalSeconds(secsInUtc, year) % 60 == secsInUtc % 60
  {
    var q := secsInUtc / 60;
    var r := secsInUtc % 60;
    if Calendar.IsDst(secsInUtc, year) {
      DivModUnique(secsInUtc + 3600 * (Calendar.TzHours + 1), 60, q - 240, r);
    } else {
      DivModUnique(secsInUtc + 3600 * Calendar.TzHours, 60, q - 300, r);
    }
  }

  /** The sweep of the 60-pixel bar: in the block of seconds
      60k+1 .. 60k+60 the count n = secs - 60k runs from 1 to 60; a left
      anchored block fills [0, n), a right anchored one fills [n, 60), so
      the bar grows to full in one minute and shrinks to empty in the
      next. */
  lemma BarSweep(secsInUtc: int)
    ensures var n := secsInUtc - 60 * FloorDiv(secsInUtc - 1, 60);
      && 1 <= n <= 60
      && SecondsBar(secsInUtc, secsInUtc % 60, 60) ==
           if RightAnchored(secsInUtc) then Fill(n, 60 - n) else Fill(0, n)
  {
    var k := FloorDiv(secsInUtc - 1, 60);
    var n := secsInUtc - 60 * k;
    var sec := secsInUtc % 60;
    if n == 60 {
      DivModUnique(secsInUtc, 60, k + 1, 0);
    } else {
      DivModUnique(secsInUtc, 60, k, n);
    }
    BarSecsOfSecond(sec);
    assert BarSecs(sec) == n;
    SecMidXInFrame(60, n);
  }
}
