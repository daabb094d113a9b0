/**
 The agent's log: three files of bounded size that together always are the end of
 everything that was ever logged.
 */
module RotatingLog {
  import opened Outcomes

  const MAX_LOG_BYTES: nat := 256 * 1024
  const MAX_LOG_FILES: nat := 3

  datatype Level = Error | Warn | Info
  {
    function Rank(): nat {
      match this
      case Error => 0
      case Warn => 1
      case Info => 2
    }
  }

  datatype LogRecord = LogRecord(level: Level, message: string)

  /** A line of a log file: its length with the line break, and the record it holds if it can be parsed. */
  datatype Line = Line(size: nat, record: Option<LogRecord>)

  const UNAVAILABLE: ErrorCode := Reported("local.log_root_unavailable")

  // ------------------------------------------------------------------ values

  function SizeOf(lines: seq<Line>): nat {
    if lines == [] then 0 else SizeOf(lines[..|lines| - 1]) + lines[|lines| - 1].size
  }

  function ContentOf(files: map<nat, seq<Line>>, index: nat): seq<Line> {
    if index in files then files[index] else []
  }

  /** What the files hold, oldest line first. */
  function Held(files: map<nat, seq<Line>>): seq<Line> {
    ContentOf(files, 2) + ContentOf(files, 1) + ContentOf(files, 0)
  }

  predicate IsSuffix<T(==)>(s: seq<T>, h: seq<T>) {
    |s| <= |h| && s == h[|h| - |s|..]
  }

  predicate WithinLimits(files: map<nat, seq<Line>>) {
    && SizeOf(ContentOf(files, 0)) <= MAX_LOG_BYTES
    && SizeOf(ContentOf(files, 1)) <= MAX_LOG_BYTES
    && SizeOf(ContentOf(files, 2)) <= MAX_LOG_BYTES
  }

  /** Asking for a level includes the more severe ones. */
  predicate Includes(requested: Level, actual: Level) {
    actual.Rank() <= requested.Rank()
  }

  predicate Wanted(line: Line, requested: Level) {
    line.record.Some? && Includes(requested, line.record.value.level)
  }

  /** The newest wanted records, newest first, at most `n` of them. */
  function Newest(lines: seq<Line>, n: nat, requested: Level): seq<LogRecord> {
    if lines == [] || n == 0 then []
    else
      var last := lines[|lines| - 1];
      if Wanted(last, requested)
      then [last.record.value] + Newest(lines[..|lines| - 1], n - 1, requested)
      else Newest(lines[..|lines| - 1], n, requested)
  }

  // --------------------------------------------------------------- directory

  /** File operations fail when the next entry of `works` says so, and then change nothing. */
  class LogDirectory {
    var files: map<nat, seq<Line>>
    var works: seq<bool>

    constructor ()
      ensures files == map[] && works == []
    {
      files, works := map[], [];
    }

    method Works() returns (ok: bool)
      modifies this`works
      ensures old(works) == [] ==> ok && works == []
    {
      ok := true;
      if works != [] {
        ok := works[0];
        works := works[1..];
      }
    }

    method Remove(index: nat) returns (ok: bool)
      modifies this
      ensures files == if ok then old(files) - {index} else old(files)
      ensures old(works) == [] ==> works == [] && ok == (index in old(files))
    {
      ok := Works();
      ok := ok && index in files;
      if ok {
        files := files - {index};
      }
    }

    /** Moves a file over another one. */
    method Rename(source: nat, target: nat) returns (ok: bool)
      requires source in files && source != target
      modifies this
      ensures files == if ok then (old(files) - {source})[target := old(files)[source]] else old(files)
      ensures old(works) == [] ==> works == [] && ok
    {
      ok := Works();
      if ok {
        files := (files - {source})[target := files[source]];
      }
    }

    method Append(index: nat, line: Line) returns (ok: bool)
      modifies this
      ensures files == if ok then old(files)[index := ContentOf(old(files), index) + [line]] else old(files)
      ensures old(works) == [] ==> works == [] && ok
    {
      ok := Works();
      if ok {
        files := files[index := ContentOf(files, index) + [line]];
      }
    }
  }

  // --------------------------------------------------------------------- log

  class FixedLog {
    const root: LogDirectory
    /** Every line that was logged. */
    ghost var history: seq<Line>

    ghost predicate Valid()
      reads this, root
    {
      IsSuffix(Held(root.files), history) && WithinLimits(root.files)
    }

    constructor (root: LogDirectory)
      ensures this.root == root && history == Held(root.files)
    {
      this.root, history := root, Held(root.files);
    }

    /** Makes room in the first file by moving each file one place back; the oldest is dropped. Wherever this
        breaks off, what is left is still the end of the history. */
    method RotateIfNeeded(incoming: nat) returns (r: Result<()>)
      requires Valid()
      modifies root
      ensures Valid()
      ensures r.Ok? ==> SizeOf(ContentOf(root.files, 0)) + incoming <= MAX_LOG_BYTES || 0 !in root.files
      ensures old(root.works) == [] ==> r.Ok? && root.works == []
      ensures SizeOf(ContentOf(old(root.files), 0)) + incoming <= MAX_LOG_BYTES ==> root.files == old(root.files)
    {
      if SizeOf(ContentOf(root.files, 0)) + incoming <= MAX_LOG_BYTES {
        return Ok(());
      }
      if MAX_LOG_FILES in root.files {
        var removed := root.Remove(MAX_LOG_FILES);
        if !removed {
          return Err(UNAVAILABLE);
        }
      }
      var index: nat := MAX_LOG_FILES - 1;
      while index > 0
        invariant index < MAX_LOG_FILES
        invariant Valid()
        invariant index < MAX_LOG_FILES - 1 ==> index !in root.files
        invariant old(root.works) == [] ==> root.works == []
      {
        var moved := MoveBack(index);
        if !moved {
          return Err(UNAVAILABLE);
        }
        index := index - 1;
      }
      return Ok(());
    }

    /** Moves the file before `index` to `index`, over the one that is there. */
    method MoveBack(index: nat) returns (ok: bool)
      requires Valid() && 0 < index < MAX_LOG_FILES && (index < MAX_LOG_FILES - 1 ==> index !in root.files)
      modifies root
      ensures Valid()
      ensures ok ==> index - 1 !in root.files
      ensures old(root.works) == [] ==> ok && root.works == []
    {
      ok := true;
      if index - 1 in root.files {
        ghost var before := root.files;
        var _ := root.Remove(index);
        DroppingKeepsTheEnd(before, root.files, index, history);
        ghost var middle := root.files;
        ok := root.Rename(index - 1, index);
        MovingKeepsTheEnd(middle, root.files, index, history);
      }
    }

    /** A line is logged, or the caller is told that it is not; a line that fits a file keeps the limits. */
    method Append(line: Line) returns (r: Result<()>)
      requires Valid()
      modifies this, root
      ensures IsSuffix(Held(root.files), history)
      ensures line.size <= MAX_LOG_BYTES ==> Valid()
      ensures history == if r.Ok? then old(history) + [line] else old(history)
      ensures r.Ok? ==> Held(root.files) != [] && Held(root.files)[|Held(root.files)| - 1] == line
      ensures old(root.works) == [] ==> r.Ok? && root.works == []
    {
      r := RotateIfNeeded(line.size);
      if r.Err? {
        return;
      }
      ghost var before := root.files;
      var appended := root.Append(0, line);
      if !appended {
        return Err(Reported("local.log_write_failed"));
      }
      history := history + [line];
      AppendingKeepsTheEnd(before, line, old(history));
      return Ok(());
    }

    /** All records of the three files, oldest first. */
    method ReadRecords() returns (records: seq<LogRecord>)
      ensures records == Records(Held(root.files))
    {
      records := [];
      var index: nat := MAX_LOG_FILES;
      while index > 0
        invariant index <= MAX_LOG_FILES
        invariant records == Records(OlderThan(root.files, index))
      {
        index := index - 1;
        var lines := if index in root.files then root.files[index] else [];
        var found := ParsedLines(lines);
        RecordsOfBoth(OlderThan(root.files, index + 1), lines);
        records := records + found;
      }
      AllIsHeld(root.files);
    }

    /** The newest records that were asked for. */
    method Tail(n: nat, requested: Level) returns (entries: seq<LogRecord>)
      ensures entries == Newest(Held(root.files), n, requested)
      ensures Valid() ==> entries <= Newest(history, n, requested)
                          && (|entries| == n ==> entries == Newest(history, n, requested))
      ensures |entries| <= n && forall i :: 0 <= i < |entries| ==>
                Includes(requested, entries[i].level) && IsLogged(Held(root.files), entries[i])
    {
      var records := ReadRecords();
      entries := TakeNewest(records, n, requested);
      NewestOfRecords(Held(root.files), n, requested);
      NewestIsBounded(Held(root.files), n, requested);
      if IsSuffix(Held(root.files), history) {
        TailRefinesHistory(Held(root.files), history, n, requested);
      }
    }
  }

  /** Goes back over the records until enough of them are found. */
  method TakeNewest(records: seq<LogRecord>, n: nat, requested: Level) returns (entries: seq<LogRecord>)
    ensures entries == NewestRecords(records, n, requested)
  {
    entries := [];
    var i := |records|;
    assert records[..i] == records;
    while i > 0 && |entries| < n
      invariant 0 <= i <= |records| && |entries| <= n
      invariant NewestRecords(records, n, requested) == entries + NewestRecords(records[..i], n - |entries|, requested)
    {
      i := i - 1;
      assert records[..i + 1][..i] == records[..i];
      if Includes(requested, records[i].level) {
        entries := entries + [records[i]];
      }
    }
  }

  /** The lines of one file that parse. */
  method ParsedLines(lines: seq<Line>) returns (records: seq<LogRecord>)
    ensures records == Records(lines)
  {
    records := [];
    for i := 0 to |lines|
      invariant records == Records(lines[..i])
    {
      assert lines[..i + 1][..i] == lines[..i];
      if lines[i].record.Some? {
        records := records + [lines[i].record.value];
      }
    }
    assert lines[..|lines|] == lines;
  }

  lemma {:induction false} RecordsOfBoth(older: seq<Line>, newer: seq<Line>)
    ensures Records(older + newer) == Records(older) + Records(newer)
    decreases |newer|
  {
    if newer == [] {
      assert older + newer == older;
    } else {
      assert (older + newer)[..|older + newer| - 1] == older + newer[..|newer| - 1];
      RecordsOfBoth(older, newer[..|newer| - 1]);
    }
  }

  /** The lines of the files from `index` on, oldest first. */
  function OlderThan(files: map<nat, seq<Line>>, index: nat): seq<Line>
    requires index <= MAX_LOG_FILES
    decreases MAX_LOG_FILES - index
  {
    if index == MAX_LOG_FILES then [] else OlderThan(files, index + 1) + ContentOf(files, index)
  }

  lemma AllIsHeld(files: map<nat, seq<Line>>)
    ensures OlderThan(files, 0) == Held(files)
  {
    assert OlderThan(files, 2) == OlderThan(files, 3) + ContentOf(files, 2) == ContentOf(files, 2);
    assert OlderThan(files, 1) == ContentOf(files, 2) + ContentOf(files, 1);
    assert OlderThan(files, 0) == OlderThan(files, 1) + ContentOf(files, 0);
  }

  function Records(lines: seq<Line>): seq<LogRecord> {
    if lines == [] then []
    else Records(lines[..|lines| - 1])
         + if lines[|lines| - 1].record.Some? then [lines[|lines| - 1].record.value] else []
  }

  function NewestRecords(records: seq<LogRecord>, n: nat, requested: Level): seq<LogRecord> {
    if records == [] || n == 0 then []
    else
      var last := records[|records| - 1];
      if Includes(requested, last.level)
      then [last] + NewestRecords(records[..|records| - 1], n - 1, requested)
      else NewestRecords(records[..|records| - 1], n, requested)
  }

  /** Leaving out unparsable lines first does not change what is newest. */
  lemma {:induction false} NewestOfRecords(lines: seq<Line>, n: nat, requested: Level)
    ensures NewestRecords(Records(lines), n, requested) == Newest(lines, n, requested)
    decreases |lines|
  {
    if lines != [] && n > 0 {
      var last := lines[|lines| - 1];
      var init := lines[..|lines| - 1];
      NewestOfRecords(init, if Wanted(last, requested) then n - 1 else n, requested);
      if last.record.Some? {
        assert Records(lines)[..|Records(lines)| - 1] == Records(init);
      } else {
        assert Records(lines) == Records(init);
      }
    }
  }

  lemma SuffixesCompose<T>(a: seq<T>, b: seq<T>, h: seq<T>)
    requires IsSuffix(a, b) && IsSuffix(b, h)
    ensures IsSuffix(a, h)
  {
    assert b[|b| - |a|..] == h[|h| - |b|..][|b| - |a|..] == h[|h| - |a|..];
  }

  /** Without its oldest file the log is still an end of the log. */
  lemma YoungerIsAnEnd(files: map<nat, seq<Line>>)
    ensures IsSuffix(ContentOf(files, 1) + ContentOf(files, 0), Held(files))
  {
    var younger := ContentOf(files, 1) + ContentOf(files, 0);
    assert Held(files) == ContentOf(files, 2) + younger;
  }

  /** What is left when the oldest file is gone. */
  lemma WithoutTheOldest(before: map<nat, seq<Line>>, after: map<nat, seq<Line>>, history: seq<Line>)
    requires Held(after) == ContentOf(before, 1) + ContentOf(before, 0)
    requires IsSuffix(Held(before), history)
    ensures IsSuffix(Held(after), history)
  {
    YoungerIsAnEnd(before);
    SuffixesCompose(Held(after), Held(before), history);
  }

  lemma DroppingKeepsTheEnd(before: map<nat, seq<Line>>, after: map<nat, seq<Line>>, index: nat, history: seq<Line>)
    requires after == before - {index} || after == before
    requires index == 2 || (index == 1 && 1 !in before)
    requires IsSuffix(Held(before), history) && WithinLimits(before)
    ensures IsSuffix(Held(after), history) && WithinLimits(after)
  {
    if index == 2 && after != before {
      assert ContentOf(after, 2) == [] && SizeOf([]) == 0;
      assert Held(after) == ContentOf(before, 1) + ContentOf(before, 0);
      WithoutTheOldest(before, after, history);
    } else {
      assert after == before;
    }
  }

  lemma MovingKeepsTheEnd(before: map<nat, seq<Line>>, after: map<nat, seq<Line>>, index: nat, history: seq<Line>)
    requires 0 < index < MAX_LOG_FILES && index - 1 in before
    requires after == (before - {index - 1})[index := before[index - 1]] || after == before
    requires index == 2 || (index == 1 && 1 !in before)
    requires IsSuffix(Held(before), history) && WithinLimits(before)
    ensures IsSuffix(Held(after), history) && WithinLimits(after)
  {
    assert SizeOf([]) == 0;
    if after != before && index == 2 {
      assert Held(after) == ContentOf(before, 1) + ContentOf(before, 0);
      WithoutTheOldest(before, after, history);
    } else if after != before {
      assert Held(after) == ContentOf(before, 2) + ContentOf(before, 0) == Held(before);
    }
  }

  lemma SizeGrows(lines: seq<Line>, line: Line)
    ensures SizeOf(lines + [line]) == SizeOf(lines) + line.size
  {
    assert (lines + [line])[..|lines|] == lines;
  }

  lemma HeldGrows(before: map<nat, seq<Line>>, line: Line)
    ensures Held(before[0 := ContentOf(before, 0) + [line]]) == Held(before) + [line]
  {
  }

  lemma SuffixesGrow<T>(s: seq<T>, h: seq<T>, x: T)
    requires IsSuffix(s, h)
    ensures IsSuffix(s + [x], h + [x])
  {
  }

  /** A longer file only adds to the newest end. */
  lemma AppendingKeepsTheEnd(before: map<nat, seq<Line>>, line: Line, history: seq<Line>)
    requires IsSuffix(Held(before), history) && WithinLimits(before)
    ensures var after := before[0 := ContentOf(before, 0) + [line]];
            && IsSuffix(Held(after), history + [line]) && Held(after) == Held(before) + [line]
            && (SizeOf(ContentOf(before, 0)) + line.size <= MAX_LOG_BYTES ==> WithinLimits(after))
  {
    SizeGrows(ContentOf(before, 0), line);
    HeldGrows(before, line);
    SuffixesGrow(Held(before), history, line);
  }

  // -------------------------------------------------------------------- tail

  lemma {:induction false} NewestOfMore(older: seq<Line>, lines: seq<Line>, n: nat, requested: Level)
    ensures Newest(lines, n, requested) <= Newest(older + lines, n, requested)
    ensures |Newest(lines, n, requested)| == n ==> Newest(lines, n, requested) == Newest(older + lines, n, requested)
    decreases |lines|
  {
    if lines != [] && n > 0 {
      var init := lines[..|lines| - 1];
      assert (older + lines)[..|older + lines| - 1] == older + init;
      NewestOfMore(older, init, if Wanted(lines[|lines| - 1], requested) then n - 1 else n, requested);
    }
  }

  /** The tail of the files is the beginning of the tail of the whole history, and all of it when it is as long as
      was asked for. */
  lemma TailRefinesHistory(held: seq<Line>, history: seq<Line>, n: nat, requested: Level)
    requires IsSuffix(held, history)
    ensures Newest(held, n, requested) <= Newest(history, n, requested)
    ensures |Newest(held, n, requested)| == n ==> Newest(held, n, requested) == Newest(history, n, requested)
  {
    assert history == history[..|history| - |held|] + held;
    NewestOfMore(history[..|history| - |held|], held, n, requested);
  }

  predicate IsLogged(lines: seq<Line>, record: LogRecord) {
    exists line :: line in lines && line.record == Some(record)
  }

  /** Three files of at most 256 kilobytes. */
  lemma LimitsAreExact(files: map<nat, seq<Line>>)
    ensures WithinLimits(files) <==> forall i {:trigger ContentOf(files, i)} :: 0 <= i < 3 ==>
              SizeOf(ContentOf(files, i)) <= 262_144
    ensures Held(files) == ContentOf(files, 2) + ContentOf(files, 1) + ContentOf(files, 0)
  {
  }

  /** The levels are nested: everything is information, and only errors are errors. */
  lemma LevelsAreNested(requested: Level, actual: Level)
    ensures Includes(requested, actual) <==>
            match requested
            case Error => actual == Error
            case Warn => actual == Error || actual == Warn
            case Info => true
  {
  }

  /** Unless more was logged than asked for, every record of the level or above it is in the tail. */
  lemma {:induction false} NewestIsComplete(lines: seq<Line>, n: nat, requested: Level, record: LogRecord)
    requires IsLogged(lines, record) && Includes(requested, record.level)
    requires |Newest(lines, n, requested)| < n
    ensures record in Newest(lines, n, requested)
    decreases |lines|
  {
    var last := lines[|lines| - 1];
    var init := lines[..|lines| - 1];
    var line :| line in lines && line.record == Some(record);
    if line != last {
      assert line in init;
      NewestIsComplete(init, if Wanted(last, requested) then n - 1 else n, requested, record);
    }
  }

  /** No more than was asked for, and nothing that was not asked for or not logged. */
  lemma {:induction false} NewestIsBounded(lines: seq<Line>, n: nat, requested: Level)
    ensures |Newest(lines, n, requested)| <= n
    ensures forall i :: 0 <= i < |Newest(lines, n, requested)| ==>
              Includes(requested, Newest(lines, n, requested)[i].level)
              && IsLogged(lines, Newest(lines, n, requested)[i])
    decreases |lines|
  {
    if lines != [] && n > 0 {
      var last := lines[|lines| - 1];
      var init := lines[..|lines| - 1];
      var m: nat := if Wanted(last, requested) then n - 1 else n;
      NewestIsBounded(init, m, requested);
      assert forall line :: line in init ==> line in lines;
      assert last in lines;
    }
  }
}
