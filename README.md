# data_logger_clock in Dafny

A model of the logic of `data_logger_clock.py`, a CircuitPython environmental data logger and desk clock. The board samples a temperature/humidity/pressure/gas sensor every 12 minutes. It keeps the readings in a log that it appends to a CSV file, draws one strip chart per channel next to a clock face, and blanks the screen after five idle minutes. A button toggles the screen and a motion sensor (PIR) turns it on.

The model is split into one module per component:

- `PyOps` (py_ops.dfy): Python's `//`, `s[-k:]`, `math.floor`/`math.ceil` and `round`, written out because Dafny's operators differ.
- `Calendar` (calendar.dfy): `day_of_century`, `day_of_week` and `first_sunday` under the clock's every-fourth-year leap rule, plus the day-of-month choice and the interval test of `is_dst`.
- `Logging` (log_data.dfy): `LogData`. Each operation is first a function on a `Log` value, and lemmas state what it promises. The class `LogData` then keeps `times`, `data` and `unsaved_lines` as mutable fields, and each method is proved to update them exactly as its function says. The data file is a sequence of lines. Each line is either a parsed record, a line whose time `int` rejects, or a line whose time parses but one of whose values `float` rejects. A write failure is modelled as a filesystem that accepts only `room` more lines.
- `Glyphs` (glyphs.dfy): `paste_bitmap` and `print_on_bitmap` on an `array2<int>` cell array.
- `Chart` (chart.dfy): `DataDisplay.display`. Functions give the value of every cell of the `plot_w` × `h` array after a call. The class redraws the array loop by loop, in the source's order (background, time legends, trace), and is proved to produce that value.
- `SideScroll` (side_scroll.dfy): the circular column buffer `SideScrollBitmap`.
- `ClockFace` (clock_face.dfy): the integer part of `update_time_display`, the blinking colon and the seconds bar.
- `ControlLoop` (control_loop.dfy): one pass of the `while True` loop, written both as a step function on the loop's variables and as a class whose methods update those variables in place.

The model keeps these behaviours of the code as written:

- `log_data` does not trim the log to `max_len`, because the trimming lines are commented out. Only `load` bounds the length.
- A line of the file that fails to parse is not skipped. The `ValueError` escapes `load` and `__init__`, so `Load` reports `ok == false` and the constructor sets `initRaised`. The fields then hold the records appended before that line, plus the line's time when only a value was bad.
- The exceptions of `fetch_data` (a record without the channel), of `display` (an empty window) and of `set_rh_pixel` (a row outside the bitmap) are reported as a `raised` result, with nothing drawn.
- An empty log has bucket -1, so a sample at a time in `[-interval_secs, 0)` is not due (`Logging.DueOnEmptyLog`).
- The background loop uses the column offset `x - plot_w - 1` as written.
- `log_data` saves before it counts the new record as unsaved. This quirk, the colour of the hour legends and the start-up chart of an empty log are listed under Findings. The classes keep the behaviour as written, and the corrected definitions stand beside them.

## Model

| member | source | states |
|---|---|---|
| `PyOps.PySuffix` | data_logger_clock.py:221-222 | Python's `s[-k:]`: the last `k` elements for `k > 0`, the whole sequence for `k == 0`, and the sequence without its first `-k` elements for `k < 0`; always a suffix of `s` |
| `Calendar.DaysBeforeMonthTable` | data_logger_clock.py:78-83 | the prefix sums of `days_in_month` are the usual cumulative table 0, 31, 59, …, 334 |
| `Calendar.EpochIsDayZero` | data_logger_clock.py:80-92 | 2000-01-01 is day 0, and its weekday is 6 (Saturday) |
| `Calendar.DayOfCentury` | data_logger_clock.py:80-87 | `day_of_century`: `365 * (year - 2000) + max(0, year - 1997) // 4`, plus the days of the months before, one more after February in years divisible by four, plus `day - 1`; its contiguity is proved by `Calendar.MonthsAreContiguous` and `Calendar.YearsAreContiguous` |
| `Calendar.NewYear2023IsSunday` | data_logger_clock.py:80-92 | under the four-year rule, 2023-01-01 is weekday 0 (Sunday), as it was |
| `Calendar.DayOfWeek` | data_logger_clock.py:89-92 | the weekday is a number in 0..6 |
| `Calendar.NextDayNextWeekday` | data_logger_clock.py:86-92 | the day after a day of the month has the next weekday, modulo 7 |
| `Calendar.MonthsAreContiguous` | data_logger_clock.py:78-86 | the first of a month is the day after the last day of the month before it (February has 29 days in years divisible by four) |
| `Calendar.YearsAreContiguous` | data_logger_clock.py:82-86 | from 1997 on, January 1 is the day after the previous December 31: the leap-day count `max(0, year-1997)//4` steps up exactly after years divisible by four |
| `Calendar.FirstSundayIsFirst` | data_logger_clock.py:94-97 | `first_sunday` lies in 1..7, is a Sunday, and no earlier day of the month is one |
| `Calendar.FirstSunday` | data_logger_clock.py:94-97 | `first_sunday`: `1 + (7 - day_of_week(year, month, 1)) % 7`, a day in 1..7; that it is the first Sunday is `Calendar.FirstSundayIsFirst` |
| `Calendar.DstStartIsSecondSunday` | data_logger_clock.py:102-103 | `7 + first_sunday(year, 3)` is a Sunday in 8..14, and in March 1..14 the only Sundays are it and the first Sunday |
| `Calendar.DstEndIsFirstSunday` | data_logger_clock.py:104-105 | `first_sunday(year, 11)` is the first Sunday of November |
| `Calendar.CivilSeconds` | data_logger_clock.py:103-105 | `time.mktime` of `(year, month, day, hour, 0, 0)`: the day count times 86400 plus the hour in seconds, counted from 2000-01-01 |
| `Calendar.IsDst` | data_logger_clock.py:99-108 | `is_dst`: the instant is at or after 2:00 on day `7 + first_sunday(year, 3)` of March and before 2:00 on day `first_sunday(year, 11)` of November |
| `Calendar.LocalSeconds` | data_logger_clock.py:112-117 | `my_localtime`: the seconds shifted by `3600 * TZ_HOURS`, or by `3600 * (TZ_HOURS + 1)` while `is_dst` holds |
| `Calendar.JanuaryIsNotDst` | data_logger_clock.py:99-117 | no second of January is in DST, so local time is UTC minus 5 hours all month |
| `Calendar.JulyIsDst` | data_logger_clock.py:99-117 | every second of July is in DST, so local time is UTC minus 4 hours all month |
| `ClockFace.ColonText` | data_logger_clock.py:165-168 | the colon text: one character, `" "` when `tm_sec & 1` and `":"` otherwise |
| `ClockFace.BarSecs` | data_logger_clock.py:169 | `bar_secs = 1 + ((tm_sec + 59) % 60)`, in 1..60 |
| `ClockFace.SecMidX` | data_logger_clock.py:170 | `sec_mid_x = int(round(sec_total_w * bar_secs / 60))`, with Python's round-half-to-even |
| `ClockFace.RightAnchored` | data_logger_clock.py:171 | the bar is anchored on the right when `((secs - 1) // 60) & 1` is set |
| `ClockFace.ColonBlinks` | data_logger_clock.py:165-168 | the colon shows exactly on even seconds and changes every second |
| `ClockFace.BarSecsOfSecond` | data_logger_clock.py:169 | `bar_secs` is the second of the minute, except that second 0 reads as 60 |
| `ClockFace.SecMidXInFrame` | data_logger_clock.py:170 | the bar's middle point lies in `0..sec_total_w`; with the clock's 60-pixel bar it equals `bar_secs` |
| `ClockFace.BarFill` | data_logger_clock.py:171-176 | the fill stays inside the frame: it is anchored at the right end in odd minutes (counted from `secs - 1`) and at the left end otherwise |
| `ClockFace.AnchorAlternates` | data_logger_clock.py:171 | the anchoring flips every 60 seconds |
| `ClockFace.LocalSecondIsUtcSecond` | data_logger_clock.py:112-117 | local time differs from UTC by whole hours, so the second of the minute is the same |
| `ClockFace.BarSweep` | data_logger_clock.py:169-176 | over the seconds `60k+1 .. 60k+60` the 60-pixel bar fills `[0, n)` in one minute and `[n, 60)` in the next, so it grows to full and then drains |
| `Logging.IsDue` | data_logger_clock.py:243-250 | `time_to_log(t)`: `t // interval_secs` differs from the newest sample's bucket, or from -1 for an empty log |
| `Logging.DueOnEmptyLog` | data_logger_clock.py:243-250 | an empty log is due exactly when `t >= 0` or `t < -interval_secs` (bucket -1 stands for "no sample") |
| `Logging.DueIffNewBucket` | data_logger_clock.py:243-250 | with samples, `time_to_log(t)` holds iff `t // interval_secs` differs from the newest sample's bucket |
| `Logging.LogData.TimeToLog` | data_logger_clock.py:243-250 | the method computes `IsDue` for the log's current timestamps |
| `Logging.SaveOutcome` | data_logger_clock.py:225-241 | `save` with a file that accepts `room` more lines: appends the lines of records `len(times) - unsaved_lines` onwards, as many as fit, and counts each one off; an empty file name does nothing |
| `Logging.SaveEffect` | data_logger_clock.py:225-241 | `save` leaves the records alone and appends to the file, in order, one line per record from `len(times) - unsaved_lines` on. The count drops by one per line written, so after a failure it counts exactly the unwritten tail. With enough room it reaches 0. An empty file name changes nothing |
| `Logging.SavePreservesPersisted` | data_logger_clock.py:225-241 | however many writes succeed, every record before the unsaved tail is among the last lines of the file |
| `Logging.LogData.Save` | data_logger_clock.py:225-241 | the loop updates `unsaved_lines` and the file exactly as `SaveOutcome` says |
| `Logging.LogOutcome` | data_logger_clock.py:252-264 | `log_data`: when due, append the values and the time, refresh the displays, save, and then add one to the unsaved count; otherwise nothing |
| `Logging.LogDataEffect` | data_logger_clock.py:252-264 | a sample that is not due changes nothing. A due sample appends exactly one record `(t, values)`, leaves earlier ones untouched and keeps the arrays parallel. Afterwards no time in `t`'s bucket is due |
| `Logging.SameBucketIgnored` | data_logger_clock.py:252-264 | once a bucket has a sample, any run of further samples in that bucket leaves the log and the file unchanged |
| `Logging.BucketScenario` | data_logger_clock.py:243-264 | with 720 s buckets, samples at 0, 100 and 719 s store one record; one more at 720 s stores a second |
| `Logging.LogData.LogData` | data_logger_clock.py:252-264 | the method appends, notifies every registered display in order, saves, then counts the new record, exactly as `LogOutcome` says; it notifies nobody when the sample is not due |
| `Logging.LogData.UpdateDisplays` | data_logger_clock.py:266-268 | every registered display is refreshed once, in registration order |
| `Logging.ChannelValues` | data_logger_clock.py:270-274 | one channel of the log: as many values as records, each record's value on that channel, in order |
| `Logging.LogData.FetchData` | data_logger_clock.py:270-274 | `raised` (the IndexError) holds exactly when some record has no value on the channel; otherwise it returns the timestamps and, for every record, its value on the channel |
| `Logging.LogData.RegisterDisplay` | data_logger_clock.py:276-277 | the display is added at the end of the list |
| `Logging.FirstUnparseable` | data_logger_clock.py:212-215 | the lines before the returned index all parse, and the line at it raises ValueError |
| `Logging.HalfParsed` | data_logger_clock.py:214-215 | what a bad line leaves in `times` when it raises: its time when only a value is bad (the time is appended first), nothing when the time itself is bad |
| `Logging.LoadOutcome` | data_logger_clock.py:201-223 | `load`: append the lines from index `num_lines - max_len` on; on the first bad line stop with the ValueError, its time appended if it parsed; otherwise keep the last `max_len` and count nothing unsaved |
| `Logging.LoadStopsAt` | data_logger_clock.py:209-216 | when a kept line does not parse, `load` fails with the lines of the tail before it already appended and nothing trimmed or reset; when only its values are bad its time is appended too, so `times` is one longer than `data` |
| `Logging.LoadReadsAll` | data_logger_clock.py:209-223 | when every kept line parses, the records become the last `max_len` of the old records followed by the kept lines, and nothing is unsaved |
| `Logging.LoadKeepsTail` | data_logger_clock.py:201-223 | loading into an empty log succeeds iff every line with index `>= num_lines - max_len` parses. It then holds exactly those records, in file order, at most `max_len` of them, none unsaved |
| `Logging.LoadEmptyFile` | data_logger_clock.py:217-223 | a missing or empty file (the OSError path) only trims the held records to `max_len` and resets the unsaved count |
| `Logging.LoadEstablishesPersisted` | data_logger_clock.py:201-223 | after a successful load every held record is in the file |
| `Logging.SaveThenLoad` | data_logger_clock.py:201-241 | records saved into an empty file that has room are read back by `load` as the last `max_len` of them, in order |
| `Logging.LogData.Load` | data_logger_clock.py:201-223 | counts the lines, re-reads them keeping the tail, then trims and resets; the new state is `LoadOutcome`, `ok` is false exactly when the ValueError escapes, and only a successful load promises parallel arrays |
| `Logging.LogData.ReadPass` | data_logger_clock.py:208-216 | the second pass appends the kept lines' times and values, in file order, up to the first line that raises ValueError; `bad` holds iff some kept line raises, and `j` is then the first such line |
| `Logging.LogData.constructor` | data_logger_clock.py:189-199 | starts empty with no displays registered and loads the file when a file name is given; `initRaised` (`__init__` raised) holds exactly when that load fails, and otherwise the object is valid |
| `Logging.AsWrittenLosesFirstSample` | data_logger_clock.py:252-264 | as written, two samples after start-up leave only the second one in the file while only one is counted unsaved, so the persistence invariant is broken |
| `Logging.LogOutcomeIntended` | data_logger_clock.py:252-264 | `log_data` with the unsaved count incremented before `save` |
| `Logging.IntendedKeepsPersisted` | data_logger_clock.py:252-264 | with the count incremented before `save`, `log_data` keeps every record outside the unsaved tail in the file, and a fully successful save leaves nothing unsaved |
| `Glyphs.TextWidth` | data_logger_clock.py:290-293 | the pen advances by each glyph's width plus one, so a non-empty text is at least one column per character |
| `Glyphs.PastedCell` | data_logger_clock.py:280-285 | one cell after `paste_bitmap`: the colour where the glyph inks it, its old value elsewhere |
| `Glyphs.PasteBitmap` | data_logger_clock.py:280-285 | every inked glyph cell that falls inside the bitmap takes `color`; every other cell keeps its value |
| `Glyphs.PrintedCell` | data_logger_clock.py:288-293 | one cell after `print_on_bitmap`: the glyphs pasted in text order, each at the previous one's x plus its width plus one |
| `Glyphs.PrintOnBitmap` | data_logger_clock.py:288-293 | the bitmap becomes the text pasted glyph by glyph, each glyph at the previous one's x plus its width plus one |
| `Glyphs.PrintedCellIsOldOrColor` | data_logger_clock.py:288-293 | printing leaves each cell at its old value or at the text colour |
| `Glyphs.PrintedCellOutsideText` | data_logger_clock.py:288-293 | cells left of the start or right of the text's width keep their value |
| `Glyphs.PrintedCellInGlyph` | data_logger_clock.py:288-293 | the glyphs do not overlap: a cell in the k-th character's columns gets exactly what that glyph alone gives it |
| `Chart.DataMin` | data_logger_clock.py:349-352 | `data_min`: `floor(min(data))`, lowered to `data_max - 1` when that is smaller |
| `Chart.DataMax` | data_logger_clock.py:349-352 | `data_max`: `ceil(max(data))`, raised to `data_min + 1` when that is larger |
| `Chart.RangeWidening` | data_logger_clock.py:349-353 | `data_min <= floor(min(data))`, `data_max >= ceil(max(data))`, `data_max - data_min >= 1`, and every value lies in `[data_min, data_max]` |
| `Chart.RangeOfConstantData` | data_logger_clock.py:349-353 | when every value equals the whole number n, the range is `[n-1, n]` and not empty |
| `Chart.DataColumn` | data_logger_clock.py:379 | `data_x = plot_w - 1 - (latest_time - time) // secs_per_pixel` |
| `Chart.ColumnsOfSamples` | data_logger_clock.py:375-380 | the newest sample maps to column `plot_w - 1`, no sample at or before it maps further right, and an older sample never lies right of a newer one |
| `Chart.ColumnOfAge` | data_logger_clock.py:379 | a sample k whole pixel periods older than the newest lies k columns to its left |
| `Chart.DataRow` | data_logger_clock.py:386 | `data_y = round((h - 1) * (1 - (datum - data_min) / data_range))` |
| `Chart.RowInRange` | data_logger_clock.py:386 | a value inside the range maps to a row in `0..h-1`: the top of the range to row 0, the bottom to row `h - 1` |
| `Chart.RowOfFraction` | data_logger_clock.py:386 | rounding `(h - 1) * (1 - f)` for a fraction `f` in `[0, 1]` gives a row in `0..h-1`, row 0 when `f = 1` and row `h - 1` when `f = 0` |
| `Chart.LocalTimeInPixels` | data_logger_clock.py:360-361 | `local_time_in_pixels` of column x: `(latest_time + 3600 * TZ_HOURS + (x - plot_w - 1) * secs_per_pixel) // secs_per_pixel` |
| `Chart.BgPixel` | data_logger_clock.py:362 | the band colour of a column: `(local_time_in_pixels // pixels_per_legend + legend_parity) % 2` |
| `Chart.LocalTimeIsLinear` | data_logger_clock.py:358-361 | one column to the right is one pixel period later in the background loop's local time |
| `Chart.ParityInverts` | data_logger_clock.py:358-367 | switching `legend_parity` between 0 and 1 inverts the background colour of every column |
| `Chart.EarliestLegendX` | data_logger_clock.py:358-365 | `earliest_legend_x` in closed form, `(-local_time_in_pixels of column 0) % pixels_per_legend`, a number in `0..pixels_per_legend-1`; no column starts a band when it is `>= plot_w` |
| `Chart.EarliestLegendIsFirst` | data_logger_clock.py:358-371 | `earliest_legend_x` is the leftmost column with `pixel_within_legend == 0` |
| `Chart.LegendsOnBandStarts` | data_logger_clock.py:371-373 | the i-th legend column starts a band, i bands after the first legend's |
| `Chart.TwoDigits` | data_logger_clock.py:372 | `'{:02d}'` gives two decimal digits that spell the number |
| `Chart.LegendHour` | data_logger_clock.py:372 | the hour printed is in 0..23 |
| `Chart.LegendsCellIsBinary` | data_logger_clock.py:370-373 | printing the legends over a band colour leaves a band colour |
| `Chart.LegendColor` | data_logger_clock.py:373 | the colour of the i-th legend, `(legend_parity + i + 1) % 2` |
| `Chart.LegendsCell` | data_logger_clock.py:370-373 | one cell after the legend loop: each band start from `earliest_legend_x` on prints its two-digit hour one column right of it |
| `Chart.LegendContrast` | data_logger_clock.py:371-373 | as written, a legend differs in colour from its band iff the first legend's band number is even |
| `Chart.FirstLegendInvisible` | data_logger_clock.py:371-373 | for the clock's temperature chart with the newest sample at 126720 s, the first legend sits at column 0 in its band's own colour |
| `Chart.IntendedLegendColor` | data_logger_clock.py:373 | the legend colour as intended: the opposite of the band under the legend |
| `Chart.IntendedLegendContrast` | data_logger_clock.py:371-373 | a legend coloured opposite to the band under it always stands out from it |
| `Chart.BackgroundCellIsBinary` | data_logger_clock.py:358-373 | after the background and legend loops every cell is 0 or 1 |
| `Chart.WindowIsDrawable` | data_logger_clock.py:344-353 | the last `num_data` samples with their widened range meet every condition the three drawing loops need: same length, non-empty, newest last, values inside the range |
| `Chart.ChartCell` | data_logger_clock.py:344-387 | one cell after `display`: 2 where a sample of the last `num_data` lands, the background and legends elsewhere |
| `Chart.BootWithoutFileHasEmptyWindow` | data_logger_clock.py:217-219 | with no data file the log starts empty, so every channel fetched from it is empty and the window `display` charts is empty |
| `Chart.ChartCellValues` | data_logger_clock.py:344-387 | after `display` every cell is 0, 1 or 2. It is 2 exactly where a sample of the window lands, and the array's previous contents play no part |
| `Chart.DataDisplay.constructor` | data_logger_clock.py:300-320 | registers with the log, sets `plot_w = w - 8` and `num_data = max_len`, and allocates a cleared `plot_w` × `h` array |
| `Chart.DataDisplay.FillBackground` | data_logger_clock.py:358-367 | every cell of every column takes its band colour. It returns column 0's `local_time_in_pixels` and, when some column starts a band, the leftmost such column |
| `Chart.DataDisplay.FillColumn` | data_logger_clock.py:366-367 | one column takes the value; the rest of the array is unchanged |
| `Chart.DataDisplay.DrawTimeLegends` | data_logger_clock.py:370-373 | each band start from `earliest_legend_x` on gets its two-digit hour printed one column to its right, in colour `(legend_parity + i + 1) % 2` |
| `Chart.DataDisplay.DrawTrace` | data_logger_clock.py:375-387 | every sample whose column is `>= 0` sets its cell to 2, and no other cell changes |
| `Chart.DataDisplay.DrawBackground` | data_logger_clock.py:356-373 | the background loop, then the legends when they are shown, give every cell its `BackgroundCell` value |
| `Chart.DataDisplay.DrawWindow` | data_logger_clock.py:355-387 | the three loops leave 2 where a sample lands and the background and legends elsewhere |
| `Chart.DataDisplay.WidenedRange` | data_logger_clock.py:349-352 | returns the floored minimum and ceiled maximum, widened to at least one unit apart, i.e. the range whose bounds `Chart.RangeWidening` proves |
| `Chart.DataDisplay.Display` | data_logger_clock.py:344-391 | `raised` (the ValueError of `min([])`) holds exactly when the window of the last `num_data` samples is empty, and nothing changes then; otherwise the array becomes the chart of that window, and the labels hold the widened range and the newest value |
| `Chart.DataDisplay.DisplayLog` | data_logger_clock.py:393-394 | `raised` holds exactly when some record lacks the channel (IndexError in `fetch_data`) or the window is empty (ValueError in `display`), and nothing changes then; otherwise the array is the chart of the channel |
| `Chart.DataDisplay.DisplayLogSkippingEmpty` | data_logger_clock.py:393-394 | `display_log` as intended: an empty log leaves the chart as it is, so it raises only on a record without the channel |
| `SideScroll.TileOf` | data_logger_clock.py:435-438 | a screen column shows a bitmap column in `0..width-1` |
| `SideScroll.TilesAreDistinct` | data_logger_clock.py:435-438 | no two screen columns show the same bitmap column |
| `SideScroll.EveryColumnShown` | data_logger_clock.py:435-438 | every bitmap column is shown, at screen column `(c - origin) % width` |
| `SideScroll.RightHandColumn` | data_logger_clock.py:440-447 | `(origin - 1 + width) % width` is the column the last tile shows; after the origin advances it is the column the first tile showed |
| `SideScroll.ScrollShiftsTiles` | data_logger_clock.py:444-445 | after the origin advances, each screen column shows what its right-hand neighbour showed, and the last shows what the first did |
| `SideScroll.SideScrollBitmap.constructor` | data_logger_clock.py:424-433 | a cleared bitmap shown from origin 0 |
| `SideScroll.SideScrollBitmap.DisplayAt` | data_logger_clock.py:435-438 | sets the origin and points tile i at `(origin + i) % width` |
| `SideScroll.SideScrollBitmap.SetRhPixel` | data_logger_clock.py:440-442 | `raised` (the IndexError) holds exactly when the row is outside the bitmap, and nothing changes then; otherwise the rightmost screen column shows `val` at the row and every other screen cell is unchanged |
| `SideScroll.SideScrollBitmap.ScrollLeft` | data_logger_clock.py:444-449 | the picture moves one column left and the rightmost screen column is cleared |
| `ControlLoop.Boot` | data_logger_clock.py:456-477 | the loop variables at start-up: display on and not yet shown, PIR low, `last_secs` and `last_min` 0, first minute pending, the idle timer at the boot time |
| `ControlLoop.SecondPhase` | data_logger_clock.py:480-513 | the once-a-second branch: sampling, the screensaver, blanking and the 00:01 reset check |
| `ControlLoop.InputPhase` | data_logger_clock.py:514-527 | the button toggle and the PIR handling |
| `ControlLoop.Step` | data_logger_clock.py:479-528 | one pass: the once-a-second branch when the second changed, then the inputs unless the board reset |
| `ControlLoop.RunFrom` | data_logger_clock.py:479-528 | a run of passes produces one action record per pass |
| `ControlLoop.SameSecondOnlyInputs` | data_logger_clock.py:480-481 | within the same second nothing happens except the button and PIR handling |
| `ControlLoop.ButtonToggles` | data_logger_clock.py:515-520 | a button rise toggles `display_on` and sets `last_action_secs = secs` |
| `ControlLoop.PirRiseTurnsOn` | data_logger_clock.py:521-527 | a rising PIR level forces the display on and restarts the timer, whatever the button did |
| `ControlLoop.PirFallChangesNothing` | data_logger_clock.py:521-527 | a falling PIR level records the new level and changes neither the display nor the timer |
| `ControlLoop.ScreensaverTimeout` | data_logger_clock.py:487-496 | at a new second with the display on, the clock is shown iff `secs <= last_action_secs + screensaver_secs`; past that, the display turns off unless the button or PIR acts |
| `ControlLoop.BlankedOnce` | data_logger_clock.py:497-501 | a display that is off is blanked at the next new second only if it was on, and not again |
| `ControlLoop.ResetRule` | data_logger_clock.py:503-513 | a reset fires exactly at a new second that brings a minute change other than the first since boot, at local 00:01 |
| `ControlLoop.NoRebootLoop` | data_logger_clock.py:468-513 | a board that boots during 00:01 does not reset again during that minute, however many passes it makes |
| `ControlLoop.BootHasNoResetPending` | data_logger_clock.py:468-477 | the boot state cannot reset before its first minute change |
| `ControlLoop.MainLoop.constructor` | data_logger_clock.py:456-477 | the loop variables take their start-up values |
| `ControlLoop.MainLoop.Reboot` | data_logger_clock.py:513 | a reset restarts the program with the start-up values |
| `ControlLoop.MainLoop.EverySecond` | data_logger_clock.py:480-513 | the once-a-second branch updates the variables and chooses the actions as `SecondPhase` says |
| `ControlLoop.MainLoop.CheckInputs` | data_logger_clock.py:514-527 | the button and PIR handling updates the variables as `InputPhase` says |
| `ControlLoop.MainLoop.Iterate` | data_logger_clock.py:479-528 | one pass updates the variables and acts as `Step` says, and skips the input handling after a reset |
| `ControlLoop.MainLoop.Run` | data_logger_clock.py:479-528 | a run of passes ends in the state `RunFrom` gives, with the same actions |

## Findings

| source | as written | input that shows it | evidently intended | confidence | as-written member | corrected member |
|---|---|---|---|---|---|---|
| data_logger_clock.py:263-264 | `save` runs before `unsaved_lines += 1`, so the record just appended is not among those written | two samples at 0 s and 720 s into an empty log, with a writable file: only the 720 s record reaches the file, and the 0 s record is never written | count the new record first, so that `save` writes it | high (not executed) | `Logging.AsWrittenLosesFirstSample` | `Logging.IntendedKeepsPersisted` |
| data_logger_clock.py:373 | the i-th hour legend has colour `(legend_parity + i + 1) % 2`, which depends only on i and not on the band it is printed over | the temperature chart (120 columns, 720 s pixels, 6 h bands, parity 0) with newest sample at 126720 s: the first legend is printed at column 0 in its band's own colour, so it cannot be seen; this happens every other 6-hour period | colour the legend opposite to the band under it | medium (not executed) | `Chart.FirstLegendInvisible` | `Chart.IntendedLegendContrast` |
| data_logger_clock.py:349 | `display` takes `min(data)` of the window without checking that it is empty, and start-up calls `update_displays` (line 408) right after loading the log | a board without `data.csv`: `load` takes the OSError path and the log stays empty, so `min([])` raises ValueError at line 408 on every start-up, before the first sample could create the file | leave the chart blank while the log is empty | high (not executed) | `Chart.BootWithoutFileHasEmptyWindow` | `Chart.DataDisplay.DisplayLogSkippingEmpty` |

The classes `Logging.LogData` and `Chart.DataDisplay` model the code as written. The corrected definitions (`Logging.LogOutcomeIntended`, `Chart.IntendedLegendColor`, `Chart.DataDisplay.DisplayLogSkippingEmpty`) stand beside them with their properties proved. `Chart.DataDisplay.DisplayLog` reports the start-up ValueError as `raised` on exactly the empty window that `Chart.BootWithoutFileHasEmptyWindow` shows the start-up log gives.

## Left out

- Hardware and drivers are I/O and are not modelled: I2C/SPI buses, the SH1107/SSD1322 displays, the BME680 sensor, the DS3231 clock, `digitalio`, `Debouncer`, `time.sleep`. Sensor readings and clock readings are parameters. The button rise, the PIR level, the local hour and minute, and whether a sample is due are fields of `ControlLoop.Inputs`.
- `displayio` groups, labels, `Rect`s, palettes, font loading and `display.show`/`refresh` are foreign library objects. The model keeps the plain cell arrays and represents showing, blanking, logging and resetting as action flags.
- `time.localtime`/`time.mktime` are library calls. `Calendar.IsDst` takes the year that `localtime` reports as a parameter. `mktime` of a local date at a whole hour is `Calendar.CivilSeconds`, built on the clock's own day count from 2000-01-01, so the model's seconds count from 2000 and not from 1970.
- `Calendar.LocalSeconds`: only the shifted seconds value of `my_localtime` is modelled, not the `struct_time` it yields. `format_time` and the date, hour and minute label texts of `update_time_display` are out.
- Floating point: channel values are `real`, not IEEE doubles. `temp_c_to_f`, the `'{:3.0f}'` and `'{:.Ng}'` label formats and float parsing in `load` are out. The display labels keep the numbers they would show.
- Parsing in `load` is abstract: a line parses (`Line`), or `int` raises ValueError on its time (`BadTime`), or `float` raises on one of its values after the time has been appended (`BadValues`). A line cut short by a crash that still parses as a shorter record is not distinguished from a whole one; `fetch_data` then raises on it, which `Logging.LogData.FetchData` reports.
- `Logging.LogData.Load`: an OSError raised partway through the second reading pass is not modelled. A missing file reads as no lines, which is the OSError path at open.
- Observers are numbers. `Logging.LogData.UpdateDisplays` returns the displays it refreshes, in order, instead of calling `display_log`. `Chart.DataDisplay.DisplayLog` is that call.
- An exception the source does not catch ends the program. The model reports it as `raised` (or `initRaised`) where it arises and does not carry it further: `Logging.LogData.LogData` does not learn that a display it refreshed raised.
- `Logging.LogData.FetchData`: the channel is a non-negative index. Python's counting from the end for a negative channel is not modelled; the callers pass 0 to 3.
- `Logging.LogData.LogData`: `times` is an `array.array('l')`, 32 bits wide on the board, so appending a time of 2^31 or more (from 2038-01-19 03:14:08 UTC when seconds count from 1970) raises OverflowError (line 257). The model's times are unbounded integers.
- `Logging.LogData.Load`: the same 32-bit limit applies to the times `load` appends (line 214); a file holding a larger time raises OverflowError, which the model does not report.
- `SideScroll.SideScrollBitmap.SetRhPixel` does not model `displayio`'s check of the pixel value against the bitmap's two colours.
- `Chart.DataDisplay.Display`, and through it `Chart.DataDisplay.DisplayLog` and `Chart.DataDisplay.DisplayLogSkippingEmpty`, require for a non-empty window `plot_w > 0`, `h > 0`, `secs_per_pixel > 0` and `pixels_per_legend > 0`, and no sample in the window newer than the last one. The source divides by `pixels_per_legend` and would write outside the bitmap otherwise. It could also run with `plot_w == 0` and no time legend, a case the model excludes. When `show_time_legend` is set, some column must start a band, or `earliest_legend_x` is unbound.
- `Glyphs.PasteBitmap` and `Glyphs.PrintOnBitmap` require a non-negative position. The source clips only on the right and bottom, and its callers always pass non-negative positions.
- `gc.collect`/`mem_free` and the memory label, and the `log()` print helper, are runtime services and I/O.
