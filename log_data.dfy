/** The bounded time-series log (`LogData`): bucketed sampling, the
    trailing-unsaved-lines persistence, and tail loading.

    The log's state is first described as a value (`Log`) with functions
    for what each operation does; the class `LogData` then keeps that state
    in mutable fields, and each of its methods is proved to move the fields
    exactly as the matching function says. The file the log is saved to is
    a sequence of lines; a line is either a parsed record or one on which
    `int` or `float` raises ValueError. */
module Logging {
  import opened PyOps

  /** One logged sample: a timestamp and one value per channel. */
  datatype Record = Record(time: int, values: seq<real>)

  /** One line of the data file: `time,v1,...,vn`; or a line whose first
      field `int` rejects (`BadTime`); or one whose time parses but where
      `float` rejects a later field (`BadValues`, holding that time). */
  datatype FileLine = Line(record: Record) | BadTime | BadValues(time: int)

  /** The state `LogData` keeps: `times`, `data` and `unsaved_lines`. */
  datatype Log = Log(times: seq<int>, data: seq<seq<real>>, unsaved: int)

  const EmptyLog := Log([], [], 0)

  /** Parallel arrays of equal length, and a count of trailing records not
      yet written that does not exceed the number of records. */
  predicate WellFormed(log: Log)
  {
    |log.times| == |log.data| && 0 <= log.unsaved <= |log.times|
  }

  function Records(log: Log): (rs: seq<Record>)
    requires |log.times| == |log.data|
    ensures |rs| == |log.times|
    ensures forall i :: 0 <= i < |rs| ==> rs[i] == Record(log.times[i], log.data[i])
  {
    seq(|log.times|, i requires 0 <= i < |log.times| => Record(log.times[i], log.data[i]))
  }

  /** The file lines `save` writes for some records, in order. */
  function LinesOf(rs: seq<Record>): (ls: seq<FileLine>)
    ensures |ls| == |rs|
    ensures forall i :: 0 <= i < |rs| ==> ls[i] == Line(rs[i])
  {
    seq(|rs|, i requires 0 <= i < |rs| => Line(rs[i]))
  }

  predicate AllParse(lines: seq<FileLine>)
  {
    forall i :: 0 <= i < |lines| ==> lines[i].Line?
  }

  function TimesOf(lines: seq<FileLine>): (ts: seq<int>)
    requires AllParse(lines)
    ensures |ts| == |lines|
    ensures forall i :: 0 <= i < |lines| ==> ts[i] == lines[i].record.time
  {
    seq(|lines|, i requires 0 <= i < |lines| => lines[i].record.time)
  }

  function DataOf(lines: seq<FileLine>): (ds: seq<seq<real>>)
    requires AllParse(lines)
    ensures |ds| == |lines|
    ensures forall i :: 0 <= i < |lines| ==> ds[i] == lines[i].record.values
  {
    seq(|lines|, i requires 0 <= i < |lines| => lines[i].record.values)
  }

  /** Every record has a value on `channel`. */
  predicate HasChannel(data: seq<seq<real>>, channel: nat)
  {
    forall i :: 0 <= i < |data| ==> channel < |data[i]|
  }

  /** The values one channel of the log holds: for each record, in order,
      its value on that channel. */
  function ChannelValues(data: seq<seq<real>>, channel: nat): (vs: seq<real>)
    requires HasChannel(data, channel)
    ensures |vs| == |data| && forall i :: 0 <= i < |data| ==> vs[i] == data[i][channel]
  {
    seq(|data|, i requires 0 <= i < |data| => data[i][channel])
  }

  // ---------------------------------------------------------------------
  // time_to_log

  /** The bucket of the newest sample, or -1 for an empty log. */
  function LastTimeStep(times: seq<int>, intervalSecs: int): int
    requires intervalSecs != 0
  {
    if |times| > 0 then FloorDiv(times[|times| - 1], intervalSecs) else -1
  }

  /** `time_to_log`: a sample at `t` would be stored. */
  function IsDue(times: seq<int>, intervalSecs: int, t: int): bool
    requires intervalSecs != 0
  {
    FloorDiv(t, intervalSecs) != LastTimeStep(times, intervalSecs)
  }

  /** An empty log takes a sample at every non-negative time. Because the
      empty log's bucket is -1, a time in the bucket just before 0 is not
      due. */
  lemma DueOnEmptyLog(intervalSecs: int, t: int)
    requires intervalSecs > 0
    ensures IsDue([], intervalSecs, t) <==> t >= 0 || t < -intervalSecs
  {
    var p := intervalSecs;
    if -p <= t < 0 {
      DivModUnique(t, p, -1, t + p);
    } else if t >= 0 {
      DivModUnique(0, p, 0, 0);
      FloorDivMonotone(0, t, p);
    } else {
      DivModUnique(-p - 1, p, -2, p - 1);
      FloorDivMonotone(t, -p - 1, p);
    }
  }

  /** With at least one sample, a sample is due exactly when it falls in
      a different bucket from the newest one. */
  lemma DueIffNewBucket(times: seq<int>, intervalSecs: int, t: int)
    requires intervalSecs != 0 && |times| > 0
    ensures IsDue(times, intervalSecs, t) <==>
              FloorDiv(t, intervalSecs) != FloorDiv(times[|times| - 1], intervalSecs)
  {
  }

  // ---------------------------------------------------------------------
  // save

  /** `save(filename)` with a file that accepts `room` more lines before
      raising OSError: the lines for records `len(times) - unsaved_lines`
      onwards are appended one at a time, and the count drops by one per
      line written. An empty file name does nothing. */
  function SaveOutcome(log: Log, filename: string, file: seq<FileLine>, room: nat): (Log, seq<FileLine>)
    requires WellFormed(log)
  {
    if filename == "" then (log, file)
    else
      var first := |log.times| - log.unsaved;
      var written := Min(room, log.unsaved);
      (log.(unsaved := log.unsaved - written), file + LinesOf(Records(log)[first..first + written]))
  }

  /** What `save` promises: the records and channel values stay as they
      are; the file grows by the lines of the oldest unsaved records, in
      order, one per line counted off; so afterwards the count is exactly
      the number of unsaved records not written. */
  lemma SaveEffect(log: Log, filename: string, file: seq<FileLine>, room: nat)
    requires WellFormed(log)
    ensures var (log', file') := SaveOutcome(log, filename, file, room);
      && WellFormed(log')
      && log'.times == log.times && log'.data == log.data
      && |file| <= |file'|
      && file'[..|file|] == file
      && log'.unsaved == log.unsaved - (|file'| - |file|)
      && (forall i :: |file| <= i < |file'| ==>
            file'[i] == Line(Record(log.times[|log.times| - log.unsaved + i - |file|],
                                    log.data[|log.times| - log.unsaved + i - |file|])))
      && (filename != "" && room >= log.unsaved ==> log'.unsaved == 0)
      && (filename != "" && room < log.unsaved ==> |file'| - |file| == room)
      && (filename == "" ==> log' == log && file' == file)
  {
    var (log', file') := SaveOutcome(log, filename, file, room);
    if filename != "" {
      var first := |log.times| - log.unsaved;
      var written := Min(room, log.unsaved);
      var rs := Records(log);
      assert file' == file + LinesOf(rs[first..first + written]);
      forall i | |file| <= i < |file'|
        ensures file'[i] == Line(Record(log.times[first + i - |file|], log.data[first + i - |file|]))
      {
        assert file'[i] == LinesOf(rs[first..first + written])[i - |file|];
      }
    }
  }

  /** The persistence invariant: every record except the trailing
      `unsaved` ones is in the file, as its most recent lines. */
  predicate Persisted(log: Log, file: seq<FileLine>)
    requires WellFormed(log)
  {
    var saved := |log.times| - log.unsaved;
    && saved <= |file|
    && forall i :: 0 <= i < saved ==> file[|file| - saved + i] == Line(Record(log.times[i], log.data[i]))
  }

  /** `save` keeps the persistence invariant however many lines succeed. */
  lemma SavePreservesPersisted(log: Log, filename: string, file: seq<FileLine>, room: nat)
    requires WellFormed(log) && Persisted(log, file)
    ensures WellFormed(SaveOutcome(log, filename, file, room).0)
    ensures Persisted(SaveOutcome(log, filename, file, room).0, SaveOutcome(log, filename, file, room).1)
  {
    SaveEffect(log, filename, file, room);
    var (log', file') := SaveOutcome(log, filename, file, room);
    var saved := |log.times| - log.unsaved;
    var saved' := |log'.times| - log'.unsaved;
    forall i | 0 <= i < saved'
      ensures file'[|file'| - saved' + i] == Line(Record(log'.times[i], log'.data[i]))
    {
      if i < saved {
        assert file'[|file'| - saved' + i] == file'[..|file|][|file| - saved + i];
      }
    }
  }

  // ---------------------------------------------------------------------
  // log_data

  /** `log_data(values, t)` as written: when due, append the record, call
      `save` and only then count the new record as unsaved. */
  function LogOutcome(log: Log, values: seq<real>, t: int, intervalSecs: int,
                      filename: string, file: seq<FileLine>, room: nat): (Log, seq<FileLine>)
    requires WellFormed(log) && intervalSecs != 0
  {
    if !IsDue(log.times, intervalSecs, t) then (log, file)
    else
      var appended := Log(log.times + [t], log.data + [values], log.unsaved);
      var (saved, file') := SaveOutcome(appended, filename, file, room);
      (saved.(unsaved := saved.unsaved + 1), file')
  }

  /** What `log_data` promises: nothing changes when the sample is not
      due; otherwise exactly one record is appended, the earlier ones are
      untouched, the arrays stay parallel, and no later sample in the same
      bucket is due. */
  lemma LogDataEffect(log: Log, values: seq<real>, t: int, intervalSecs: int,
                      filename: string, file: seq<FileLine>, room: nat)
    requires WellFormed(log) && intervalSecs != 0
    ensures var (log', file') := LogOutcome(log, values, t, intervalSecs, filename, file, room);
      && WellFormed(log')
      && (!IsDue(log.times, intervalSecs, t) ==> log' == log && file' == file)
      && (IsDue(log.times, intervalSecs, t) ==>
            && log'.times == log.times + [t]
            && log'.data == log.data + [values]
            && (forall t' :: FloorDiv(t', intervalSecs) == FloorDiv(t, intervalSecs) ==>
                               !IsDue(log'.times, intervalSecs, t')))
  {
    if IsDue(log.times, intervalSecs, t) {
      var appended := Log(log.times + [t], log.data + [values], log.unsaved);
      SaveEffect(appended, filename, file, room);
    }
  }

  /** A run of samples offered to `log_data`, each with a file accepting
      `room` more lines. */
  function LogMany(log: Log, samples: seq<Record>, intervalSecs: int,
                   filename: string, file: seq<FileLine>, room: nat): (r: (Log, seq<FileLine>))
    requires WellFormed(log) && intervalSecs != 0
    ensures WellFormed(r.0)
    decreases |samples|
  {
    if samples == [] then (log, file)
    else
      LogDataEffect(log, samples[0].values, samples[0].time, intervalSecs, filename, file, room);
      var (log', file') := LogOutcome(log, samples[0].values, samples[0].time, intervalSecs, filename, file, room);
      LogMany(log', samples[1..], intervalSecs, filename, file', room)
  }

  /** Once a sample is stored, every later sample in the same bucket is
      ignored: the log is left exactly as it was. */
  lemma {:induction false} SameBucketIgnored(log: Log, samples: seq<Record>, intervalSecs: int,
                                             filename: string, file: seq<FileLine>, room: nat)
    requires WellFormed(log) && intervalSecs != 0 && |log.times| > 0
    requires forall i :: 0 <= i < |samples| ==>
               FloorDiv(samples[i].time, intervalSecs) == FloorDiv(log.times[|log.times| - 1], intervalSecs)
    ensures LogMany(log, samples, intervalSecs, filename, file, room) == (log, file)
    decreases |samples|
  {
    if samples != [] {
      assert LogOutcome(log, samples[0].values, samples[0].time, intervalSecs, filename, file, room) == (log, file);
      SameBucketIgnored(log, samples[1..], intervalSecs, filename, file, room);
    }
  }

  /** Samples at 0, 100 and 719 s share the first 720 s bucket and only the
      first is stored; the one at 720 s opens the next bucket. */
  lemma BucketScenario(v: seq<real>, file: seq<FileLine>, room: nat)
    ensures |LogMany(EmptyLog, [Record(0, v), Record(100, v), Record(719, v)], 720, "", file, room).0.times| == 1
    ensures |LogMany(EmptyLog, [Record(0, v), Record(100, v), Record(719, v), Record(720, v)], 720, "", file, room).0.times| == 2
  {
    var one := LogOutcome(EmptyLog, v, 0, 720, "", file, room);
    assert one.0 == Log([0], [v], 1);
    SameBucketIgnored(one.0, [Record(100, v), Record(719, v)], 720, "", file, room);
    var samples := [Record(0, v), Record(100, v), Record(719, v), Record(720, v)];
    assert samples[1..] == [Record(100, v), Record(719, v), Record(720, v)];
    assert LogMany(EmptyLog, samples, 720, "", file, room) == LogMany(one.0, samples[1..], 720, "", file, room);
    assert LogMany(one.0, samples[1..], 720, "", file, room) == LogMany(one.0, samples[2..], 720, "", file, room);
    assert LogMany(one.0, samples[2..], 720, "", file, room) == LogMany(one.0, samples[3..], 720, "", file, room);
    assert samples[3..] == [Record(720, v)];
    var two := LogOutcome(one.0, v, 720, 720, "", file, room);
    assert two.0.times == [0, 720];
    assert LogMany(one.0, [Record(720, v)], 720, "", file, room) == LogMany(two.0, [], 720, "", two.1, room);
  }

  // ---------------------------------------------------------------------
  // load

  /** Index of the first line that does not parse, or the length. */
  function FirstUnparseable(lines: seq<FileLine>): (k: nat)
    ensures k <= |lines|
    ensures AllParse(lines[..k])
    ensures k < |lines| ==> !lines[k].Line?
  {
    if lines == [] then 0
    else if !lines[0].Line? then 0
    else
      var k := 1 + FirstUnparseable(lines[1..]);
      assert forall i :: 1 <= i < k ==> lines[..k][i] == lines[1..][..k - 1][i - 1];
      k
  }

  /** `load` reads the lines whose index is at least `num_lines - max_len`. */
  function TailStart(numLines: nat, maxLen: int): (s: nat)
    ensures s <= numLines
  {
    Min(numLines, Max(0, numLines - maxLen))
  }

  /** The outcome of `load`: either every kept line parsed, or a ValueError
      escaped after the lines before the offending one were appended. */
  datatype LoadResult = Loaded(log: Log) | ParseFailed(log: Log)

  /** What `load` has appended to `times` from a line when its ValueError
      is raised: the time is appended before the values are parsed, so a
      line with a good time and a bad value leaves that time behind. */
  function HalfParsed(line: FileLine): (ts: seq<int>)
    requires !line.Line?
    ensures |ts| <= 1 && (|ts| == 1 <==> line.BadValues?)
  {
    if line.BadValues? then [line.time] else []
  }

  /** `load(filename)` on a file holding `file` (a missing file reads as no
      lines): append the kept lines to the records, then keep the last
      `max_len` and count nothing as unsaved. */
  function LoadOutcome(log: Log, file: seq<FileLine>, maxLen: int): LoadResult
    requires |log.times| == |log.data|
  {
    var kept := file[TailStart(|file|, maxLen)..];
    var bad := FirstUnparseable(kept);
    var good := kept[..bad];
    var times := log.times + TimesOf(good);
    var data := log.data + DataOf(good);
    if bad < |kept| then ParseFailed(Log(times + HalfParsed(kept[bad]), data, log.unsaved))
    else Loaded(Log(PySuffix(times, maxLen), PySuffix(data, maxLen), 0))
  }

  /** `LoadOutcome` when the line at `j` of the tail is the first that does
      not parse: the lines before it are appended, and so is its time when
      only its values are bad, which leaves `times` one longer than `data`. */
  lemma LoadStopsAt(log: Log, file: seq<FileLine>, maxLen: int, j: int)
    requires |log.times| == |log.data|
    requires TailStart(|file|, maxLen) <= j < |file| && !file[j].Line?
    requires AllParse(file[TailStart(|file|, maxLen)..j])
    ensures var good := file[TailStart(|file|, maxLen)..j];
      LoadOutcome(log, file, maxLen) ==
        ParseFailed(Log(log.times + TimesOf(good) + HalfParsed(file[j]), log.data + DataOf(good), log.unsaved))
    ensures var failed := LoadOutcome(log, file, maxLen).log;
      |failed.times| == |failed.data| + (if file[j].BadValues? then 1 else 0)
  {
    var start := TailStart(|file|, maxLen);
    var kept := file[start..];
    var bad := j - start;
    assert kept[..bad] == file[start..j];
    assert FirstUnparseable(kept) == bad;
  }

  /** `LoadOutcome` when the whole tail parses. */
  lemma LoadReadsAll(log: Log, file: seq<FileLine>, maxLen: int)
    requires |log.times| == |log.data|
    requires AllParse(file[TailStart(|file|, maxLen)..])
    ensures var good := file[TailStart(|file|, maxLen)..];
      LoadOutcome(log, file, maxLen) ==
        Loaded(Log(PySuffix(log.times + TimesOf(good), maxLen), PySuffix(log.data + DataOf(good), maxLen), 0))
  {
    var kept := file[TailStart(|file|, maxLen)..];
    assert FirstUnparseable(kept) == |kept|;
    assert kept[..|kept|] == kept;
  }

  /** One more parsed line extends what the reading loop has accumulated. */
  lemma ReadOneMore(times0: seq<int>, data0: seq<seq<real>>, times: seq<int>, data: seq<seq<real>>,
                    file: seq<FileLine>, start: nat, j: nat)
    requires start <= j < |file| && file[j].Line?
    requires j == start ==> times == times0 && data == data0
    requires start < j ==> AllParse(file[start..j]) && times == times0 + TimesOf(file[start..j])
                           && data == data0 + DataOf(file[start..j])
    ensures AllParse(file[start..j + 1])
    ensures times + [file[j].record.time] == times0 + TimesOf(file[start..j + 1])
    ensures data + [file[j].record.values] == data0 + DataOf(file[start..j + 1])
  {
    assert file[start..j + 1] == file[start..j] + [file[j]];
    assert TimesOf(file[start..j + 1]) == TimesOf(file[start..j]) + [file[j].record.time];
    assert DataOf(file[start..j + 1]) == DataOf(file[start..j]) + [file[j].record.values];
    if j == start {
      assert TimesOf(file[start..j]) == [] && DataOf(file[start..j]) == [];
    }
  }

  /** `LoadOutcome` once every line has been read without a parse error:
      `times` and `data` are what the reading loop has accumulated. */
  lemma LoadAfterReading(log: Log, file: seq<FileLine>, maxLen: int, times: seq<int>, data: seq<seq<real>>)
    requires |log.times| == |log.data|
    requires TailStart(|file|, maxLen) == |file| ==> times == log.times && data == log.data
    requires TailStart(|file|, maxLen) < |file| ==>
      && AllParse(file[TailStart(|file|, maxLen)..|file|])
      && times == log.times + TimesOf(file[TailStart(|file|, maxLen)..|file|])
      && data == log.data + DataOf(file[TailStart(|file|, maxLen)..|file|])
    ensures LoadOutcome(log, file, maxLen) == Loaded(Log(PySuffix(times, maxLen), PySuffix(data, maxLen), 0))
  {
    var start := TailStart(|file|, maxLen);
    if start == |file| {
      assert times == log.times + TimesOf(file[start..]);
      assert data == log.data + DataOf(file[start..]);
    } else {
      assert file[start..] == file[start..|file|];
    }
    LoadReadsAll(log, file, maxLen);
  }

  /** `LoadOutcome` when the reading loop meets a bad line at `j`: `times`
      and `data` are what the loop has accumulated, plus what the bad line
      leaves behind. */
  lemma LoadFailsAfterReading(log: Log, file: seq<FileLine>, maxLen: int, j: int,
                              times: seq<int>, data: seq<seq<real>>)
    requires |log.times| == |log.data|
    requires TailStart(|file|, maxLen) <= j < |file| && !file[j].Line?
    requires j == TailStart(|file|, maxLen) ==> times == log.times && data == log.data
    requires TailStart(|file|, maxLen) < j ==>
      && AllParse(file[TailStart(|file|, maxLen)..j])
      && times == log.times + TimesOf(file[TailStart(|file|, maxLen)..j])
      && data == log.data + DataOf(file[TailStart(|file|, maxLen)..j])
    ensures LoadOutcome(log, file, maxLen) == ParseFailed(Log(times + HalfParsed(file[j]), data, log.unsaved))
  {
    var start := TailStart(|file|, maxLen);
    if j == start {
      assert TimesOf(file[start..j]) == [] && DataOf(file[start..j]) == [];
      assert log.times + [] == log.times && log.data + [] == log.data;
    }
    LoadStopsAt(log, file, maxLen, j);
  }

  /** Loading into an empty log: it succeeds exactly when every line of
      the tail parses; it then holds those records in file order, at most
      `max_len` of them, with nothing unsaved. Lines before the tail are
      never parsed, so they cannot make it fail. */
  lemma LoadKeepsTail(file: seq<FileLine>, maxLen: int)
    requires maxLen > 0
    ensures var start := Max(0, |file| - maxLen);
      && (LoadOutcome(EmptyLog, file, maxLen).Loaded? <==> AllParse(file[start..]))
      && (AllParse(file[start..]) ==>
            && LoadOutcome(EmptyLog, file, maxLen).log.times == TimesOf(file[start..])
            && LoadOutcome(EmptyLog, file, maxLen).log.data == DataOf(file[start..])
            && |LoadOutcome(EmptyLog, file, maxLen).log.times| <= maxLen
            && LoadOutcome(EmptyLog, file, maxLen).log.unsaved == 0)
  {
    var start := TailStart(|file|, maxLen);
    assert start == Max(0, |file| - maxLen);
    var kept := file[start..];
    if AllParse(kept) {
      LoadReadsAll(EmptyLog, file, maxLen);
      assert [] + TimesOf(kept) == TimesOf(kept);
      assert [] + DataOf(kept) == DataOf(kept);
    } else {
      assert kept[..|kept|] == kept;
      var k := FirstUnparseable(kept);
      assert kept[..k] == file[start..start + k];
      LoadStopsAt(EmptyLog, file, maxLen, start + k);
    }
  }

  /** With a missing or empty file, or none of it kept, `load` only trims
      the records already held and resets the unsaved count. */
  lemma LoadEmptyFile(log: Log, maxLen: int)
    requires |log.times| == |log.data|
    ensures LoadOutcome(log, [], maxLen) == Loaded(Log(PySuffix(log.times, maxLen), PySuffix(log.data, maxLen), 0))
  {
    assert TimesOf([]) == [] && DataOf([]) == [];
    assert log.times + [] == log.times && log.data + [] == log.data;
  }

  /** A successful load leaves a well-formed log that is entirely saved,
      and when it started empty every record is in the file. */
  lemma LoadEstablishesPersisted(file: seq<FileLine>, maxLen: int)
    requires maxLen > 0
    requires LoadOutcome(EmptyLog, file, maxLen).Loaded?
    ensures WellFormed(LoadOutcome(EmptyLog, file, maxLen).log)
    ensures Persisted(LoadOutcome(EmptyLog, file, maxLen).log, file)
  {
    LoadKeepsTail(file, maxLen);
    var start := Max(0, |file| - maxLen);
    TailIsPersisted(file, start);
    assert LoadOutcome(EmptyLog, file, maxLen).log == Log(TimesOf(file[start..]), DataOf(file[start..]), 0);
  }

  /** The records of the last lines of a file, with nothing unsaved, are
      persisted in that file. */
  lemma TailIsPersisted(file: seq<FileLine>, start: nat)
    requires start <= |file| && AllParse(file[start..])
    ensures WellFormed(Log(TimesOf(file[start..]), DataOf(file[start..]), 0))
    ensures Persisted(Log(TimesOf(file[start..]), DataOf(file[start..]), 0), file)
  {
    var log := Log(TimesOf(file[start..]), DataOf(file[start..]), 0);
    forall i | 0 <= i < |log.times|
      ensures file[|file| - |log.times| + i] == Line(Record(log.times[i], log.data[i]))
    {
      assert file[start..][i] == file[start + i];
    }
  }

  /** Round trip: all records saved into a fresh file with room for them
      are read back by `load`, the last `max_len` of them, in order. */
  lemma SaveThenLoad(log: Log, filename: string, room: nat, maxLen: int)
    requires WellFormed(log) && log.unsaved == |log.times|
    requires filename != "" && room >= |log.times| && maxLen > 0
    ensures var file := SaveOutcome(log, filename, [], room).1;
      && LoadOutcome(EmptyLog, file, maxLen).Loaded?
      && LoadOutcome(EmptyLog, file, maxLen).log.times == PySuffix(log.times, maxLen)
      && LoadOutcome(EmptyLog, file, maxLen).log.data == PySuffix(log.data, maxLen)
  {
    var file := LinesOf(Records(log));
    var start := Max(0, |log.times| - maxLen);
    SaveAllWritesRecords(log, filename, room);
    LoadOfRecords(Records(log), maxLen);
    RecordLinesTail(log, start);
    SuffixIsSlice(log.times, maxLen);
    SuffixIsSlice(log.data, maxLen);
  }

  /** The times and values read back from the lines of a log's records,
      from `start` on, are the log's own. */
  lemma RecordLinesTail(log: Log, start: nat)
    requires |log.times| == |log.data| && start <= |log.times|
    ensures AllParse(LinesOf(Records(log))[start..])
    ensures TimesOf(LinesOf(Records(log))[start..]) == log.times[start..]
    ensures DataOf(LinesOf(Records(log))[start..]) == log.data[start..]
  {
    var tail := LinesOf(Records(log))[start..];
    forall i | 0 <= i < |tail|
      ensures tail[i] == Line(Record(log.times[start + i], log.data[start + i]))
    {
    }
    assert TimesOf(tail) == log.times[start..];
    assert DataOf(tail) == log.data[start..];
  }

  lemma SaveAllWritesRecords(log: Log, filename: string, room: nat)
    requires WellFormed(log) && log.unsaved == |log.times|
    requires filename != "" && room >= |log.times|
    ensures SaveOutcome(log, filename, [], room).1 == LinesOf(Records(log))
  {
    var rs := Records(log);
    assert rs[0..|rs|] == rs;
  }

  lemma LoadOfRecords(rs: seq<Record>, maxLen: int)
    requires maxLen > 0
    ensures var file := LinesOf(rs); var start := Max(0, |rs| - maxLen);
      && AllParse(file[start..])
      && LoadOutcome(EmptyLog, file, maxLen).Loaded?
      && LoadOutcome(EmptyLog, file, maxLen).log.times == TimesOf(file[start..])
      && LoadOutcome(EmptyLog, file, maxLen).log.data == DataOf(file[start..])
  {
    LoadKeepsTail(LinesOf(rs), maxLen);
  }

  // ---------------------------------------------------------------------
  // The order of `save` and `unsaved_lines += 1` in log_data

  /** `log_data` with the count incremented before saving, so that the new
      record is among those `save` writes. */
  function LogOutcomeIntended(log: Log, values: seq<real>, t: int, intervalSecs: int,
                              filename: string, file: seq<FileLine>, room: nat): (Log, seq<FileLine>)
    requires WellFormed(log) && intervalSecs != 0
  {
    if !IsDue(log.times, intervalSecs, t) then (log, file)
    else SaveOutcome(Log(log.times + [t], log.data + [values], log.unsaved + 1), filename, file, room)
  }

  /** With the increment first, every stored sample reaches the file unless
      a write fails, and a failed one stays counted until a later save. */
  lemma IntendedKeepsPersisted(log: Log, values: seq<real>, t: int, intervalSecs: int,
                               filename: string, file: seq<FileLine>, room: nat)
    requires WellFormed(log) && intervalSecs != 0 && Persisted(log, file)
    ensures var (log', file') := LogOutcomeIntended(log, values, t, intervalSecs, filename, file, room);
      && WellFormed(log') && Persisted(log', file')
      && (IsDue(log.times, intervalSecs, t) && filename != "" && room >= log.unsaved + 1 ==> log'.unsaved == 0)
  {
    if IsDue(log.times, intervalSecs, t) {
      var appended := Log(log.times + [t], log.data + [values], log.unsaved + 1);
      var saved := |log.times| - log.unsaved;
      assert |appended.times| - appended.unsaved == saved;
      forall i | 0 <= i < saved
        ensures file[|file| - saved + i] == Line(Record(appended.times[i], appended.data[i]))
      {
        assert appended.times[i] == log.times[i] && appended.data[i] == log.data[i];
      }
      assert Persisted(appended, file);
      SavePreservesPersisted(appended, filename, file, room);
      SaveEffect(appended, filename, file, room);
      assert LogOutcomeIntended(log, values, t, intervalSecs, filename, file, room)
          == SaveOutcome(appended, filename, file, room);
    }
  }

  /** As written, the first sample after start-up never reaches the file:
      two samples in successive buckets into an empty log and an empty
      file with ample room leave only the second one written, although both
      are held and only one is counted as unsaved. */
  lemma AsWrittenLosesFirstSample(v1: seq<real>, v2: seq<real>)
    ensures var (log1, file1) := LogOutcome(EmptyLog, v1, 0, 720, "data.csv", [], 10);
      var (log2, file2) := LogOutcome(log1, v2, 720, 720, "data.csv", file1, 10);
      && log2.times == [0, 720]
      && file2 == [Line(Record(720, v2))]
      && log2.unsaved == 1
      && !Persisted(log2, file2)
  {
    var (log1, file1) := LogOutcome(EmptyLog, v1, 0, 720, "data.csv", [], 10);
    assert log1 == Log([0], [v1], 1) && file1 == [];
    var appended := Log([0, 720], [v1, v2], 1);
    assert Records(appended)[1..2] == [Record(720, v2)];
    var (log2, file2) := LogOutcome(log1, v2, 720, 720, "data.csv", file1, 10);
    assert file2 == [Line(Record(720, v2))];
    assert file2[|file2| - 1 + 0] != Line(Record(log2.times[0], log2.data[0]));
  }

  // ---------------------------------------------------------------------
  // The object

  /** `LogData`: the log's fields, updated in place by its methods. The
      data file's contents are passed to and returned from the methods that
      touch it; `room` is how many lines the filesystem accepts before it
      raises OSError. Registered displays are named by a number each. */
  class LogData {
    const fields: seq<string>
    const intervalSecs: int
    const maxLen: int
    const filename: string
    var times: seq<int>
    var data: seq<seq<real>>
    var unsavedLines: int
    var registeredDisplays: seq<nat>
    /** `__init__` raised: a kept line of the file did not parse and the
        ValueError escaped `load`, so the program has no log object; no
        method applies to such an object. */
    var initRaised: bool

    ghost predicate Valid()
      reads this
    {
      WellFormed(State()) && !initRaised
    }

    function State(): Log
      reads this
    {
      Log(times, data, unsavedLines)
    }

    /** `__init__`: an empty log, seeded by `load` when a file name is given.
        When `load` raises, so does `__init__`: `initRaised` is then set and
        the fields hold what `load` had appended. */
    constructor (fields: seq<string>, intervalSecs: int, maxLen: int, filename: string, file: seq<FileLine>)
      ensures initRaised <==> filename != "" && LoadOutcome(EmptyLog, file, maxLen).ParseFailed?
      ensures !initRaised ==> Valid()
      ensures this.fields == fields && this.intervalSecs == intervalSecs
      ensures this.maxLen == maxLen && this.filename == filename
      ensures registeredDisplays == []
      ensures State() == if filename == "" then EmptyLog else LoadOutcome(EmptyLog, file, maxLen).log
    {
      this.fields := fields;
      this.intervalSecs := intervalSecs;
      this.maxLen := maxLen;
      this.filename := filename;
      times := [];
      data := [];
      unsavedLines := 0;
      registeredDisplays := [];
      initRaised := false;
      new;
      if filename != "" {
        var ok := Load(file);
        initRaised := !ok;
      }
    }

    /** `load`: count the lines, re-read them appending those from index
        `num_lines - max_len` on, then trim to `max_len` and mark all saved.
        `ok` is false when a kept line does not parse: the ValueError is not
        caught, and the state is what had been appended up to that line,
        including the time of a line whose values are bad. */
    method Load(file: seq<FileLine>) returns (ok: bool)
      requires Valid()
      modifies this`times, this`data, this`unsavedLines
      ensures ok ==> Valid()
      ensures ok <==> LoadOutcome(old(State()), file, maxLen).Loaded?
      ensures State() == LoadOutcome(old(State()), file, maxLen).log
      ensures registeredDisplays == old(registeredDisplays)
    {
      var numLines := 0;
      for i := 0 to |file|
        invariant numLines == i
      {
        numLines := numLines + 1;
      }
      var bad, j, ts, ds := ReadPass(file, numLines, maxLen, times, data);
      if bad {
        LoadFailsAfterReading(State(), file, maxLen, j, ts, ds);
        times, data := ts + HalfParsed(file[j]), ds;
        return false;
      }
      LoadAfterReading(State(), file, maxLen, ts, ds);
      times := PySuffix(ts, maxLen);
      data := PySuffix(ds, maxLen);
      unsavedLines := 0;
      ok := true;
    }

    /** The second reading pass of `load`: the lines from index
        `num_lines - max_len` on are appended to `ts0` and `ds0` until one
        raises ValueError; `bad` says whether one did, and `j` is its
        index. */
    method ReadPass(file: seq<FileLine>, numLines: nat, maxLen: int, ts0: seq<int>, ds0: seq<seq<real>>)
      returns (bad: bool, j: nat, ts: seq<int>, ds: seq<seq<real>>)
      requires numLines == |file|
      ensures var start := TailStart(|file|, maxLen);
        && (bad ==> start <= j < |file| && !file[j].Line?)
        && (!bad ==> j == |file|)
        && (j == start ==> ts == ts0 && ds == ds0)
        && (start < j ==> AllParse(file[start..j]) && ts == ts0 + TimesOf(file[start..j])
                          && ds == ds0 + DataOf(file[start..j]))
    {
      var start := TailStart(numLines, maxLen);
      ts, ds := ts0, ds0;
      var linesRead := 0;
      while linesRead < |file|
        invariant 0 <= linesRead <= |file|
        invariant linesRead <= start ==> ts == ts0 && ds == ds0
        invariant start < linesRead ==> AllParse(file[start..linesRead])
        invariant start < linesRead ==> ts == ts0 + TimesOf(file[start..linesRead])
        invariant start < linesRead ==> ds == ds0 + DataOf(file[start..linesRead])
      {
        if linesRead >= numLines - maxLen {
          if !file[linesRead].Line? {
            return true, linesRead, ts, ds;
          }
          var r := file[linesRead].record;
          ReadOneMore(ts0, ds0, ts, ds, file, start, linesRead);
          ts := ts + [r.time];
          ds := ds + [r.values];
        }
        linesRead := linesRead + 1;
      }
      bad, j := false, |file|;
    }

    /** `save(filename)`: append the trailing `unsaved_lines` records, one
        line each, counting each line off as it succeeds. */
    method Save(filename: string, file: seq<FileLine>, room: nat) returns (newFile: seq<FileLine>)
      requires Valid()
      modifies this`unsavedLines
      ensures Valid()
      ensures (State(), newFile) == SaveOutcome(old(State()), filename, file, room)
    {
      newFile := file;
      if filename == "" {
        return;
      }
      var first := |times| - unsavedLines;
      ghost var rs := Records(State());
      var written := 0;
      var dataIndex := first;
      while dataIndex < |times|
        invariant first <= dataIndex <= |times|
        invariant written == dataIndex - first && written <= room
        invariant unsavedLines == old(unsavedLines) - written
        invariant newFile == file + LinesOf(rs[first..dataIndex])
      {
        if written == room {
          return;
        }
        assert rs[first..dataIndex + 1] == rs[first..dataIndex] + [Record(times[dataIndex], data[dataIndex])];
        newFile := newFile + [Line(Record(times[dataIndex], data[dataIndex]))];
        unsavedLines := unsavedLines - 1;
        written := written + 1;
        dataIndex := dataIndex + 1;
      }
    }

    /** `time_to_log`. */
    method TimeToLog(timeSecs: int) returns (due: bool)
      requires intervalSecs != 0
      ensures due == IsDue(times, intervalSecs, timeSecs)
    {
      var lastTimeStep := -1;
      if |times| > 0 {
        lastTimeStep := FloorDiv(times[|times| - 1], intervalSecs);
      }
      var newTimeStep := FloorDiv(timeSecs, intervalSecs);
      due := newTimeStep != lastTimeStep;
    }

    /** `log_data(values, time_secs)`: when due, append, refresh the
        registered displays (returned in the order they are refreshed),
        save, and then count the new record as unsaved. */
    method LogData(values: seq<real>, timeSecs: int, file: seq<FileLine>, room: nat)
      returns (notified: seq<nat>, newFile: seq<FileLine>)
      requires Valid() && intervalSecs != 0
      modifies this`times, this`data, this`unsavedLines
      ensures Valid()
      ensures (State(), newFile) == LogOutcome(old(State()), values, timeSecs, intervalSecs, filename, file, room)
      ensures notified == if IsDue(old(times), intervalSecs, timeSecs) then registeredDisplays else []
    {
      notified, newFile := [], file;
      var due := TimeToLog(timeSecs);
      if due {
        data := data + [values];
        times := times + [timeSecs];
        notified := UpdateDisplays();
        newFile := Save(filename, file, room);
        unsavedLines := unsavedLines + 1;
      }
    }

    /** `update_displays`: each registered display is refreshed once, in
        the order of registration. */
    method UpdateDisplays() returns (notified: seq<nat>)
      ensures notified == registeredDisplays
    {
      notified := [];
      for i := 0 to |registeredDisplays|
        invariant notified == registeredDisplays[..i]
      {
        notified := notified + [registeredDisplays[i]];
      }
    }

    /** `fetch_data(channel)`: the timestamps and one channel's values.
        `raised` reports the IndexError of a record with no value on the
        channel; the outputs then mean nothing. */
    method FetchData(channel: nat) returns (raised: bool, ts: seq<int>, channelData: seq<real>)
      ensures raised <==> !HasChannel(data, channel)
      ensures !raised ==> ts == times && channelData == ChannelValues(data, channel)
    {
      channelData := [];
      ts := times;
      for i := 0 to |data|
        invariant HasChannel(data[..i], channel)
        invariant channelData == ChannelValues(data[..i], channel)
      {
        if channel >= |data[i]| {
          return true, ts, channelData;
        }
        assert data[..i + 1] == data[..i] + [data[i]];
        channelData := channelData + [data[i][channel]];
      }
      assert data[..|data|] == data;
      raised := false;
    }

    /** `register_display`. */
    method RegisterDisplay(display: nat)
      modifies this`registeredDisplays
      ensures registeredDisplays == old(registeredDisplays) + [display]
    {
      registeredDisplays := registeredDisplays + [display];
    }
  }
}
