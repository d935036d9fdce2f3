/** The incremental line writer: a bounded buffer, reused in place across lines and across Write
    calls, proved to cut exactly where the byte-at-a-time splitter of `LineSplit` cuts. */
module LineWriter {
  import opened LineSplit

  datatype Level = Debug | Info | Warn

  /** What a log record is about: container output, or a message of the streaming supervisor. */
  datatype Record =
    | Container(level: Level, text: Bytes)
    | Notice(level: Level, notice: Notice)

  datatype Notice = OpenFailure | StreamFailure | Restarting

  class Logger {
    var records: seq<Record>

    constructor ()
      ensures records == []
    {
      records := [];
    }

    method Log(r: Record)
      modifies this
      ensures records == old(records) + [r]
    {
      records := records + [r];
    }
  }

  /** The records a writer at `level` logs for these entries. */
  function Tagged(level: Level, entries: seq<Bytes>): seq<Record> {
    if entries == [] then []
    else Tagged(level, entries[..|entries| - 1]) + [Container(level, entries[|entries| - 1])]
  }

  /** `log` is what a writer at `level` has logged for the pieces `raw`. */
  ghost predicate IsLog(level: Level, raw: seq<Bytes>, log: seq<Record>) {
    if raw == [] then log == []
    else
      var line := TrimCR(raw[|raw| - 1]);
      if line == [] then IsLog(level, raw[..|raw| - 1], log)
      else log != [] && log[|log| - 1] == Container(level, line) && IsLog(level, raw[..|raw| - 1], log[..|log| - 1])
  }

  lemma {:induction false} IsLogTagged(level: Level, raw: seq<Bytes>, log: seq<Record>)
    requires IsLog(level, raw, log)
    ensures log == Tagged(level, Entries(raw))
  {
    if raw != [] {
      var line := TrimCR(raw[|raw| - 1]);
      var rest := Entries(raw[..|raw| - 1]);
      if line == [] {
        IsLogTagged(level, raw[..|raw| - 1], log);
        assert Entries(raw) == rest;
      } else {
        IsLogTagged(level, raw[..|raw| - 1], log[..|log| - 1]);
        assert Entries(raw)[..|rest|] == rest;
      }
    }
  }

  /** Position of the first newline of `s`, or -1. */
  method IndexOfLF(s: Bytes) returns (i: int)
    ensures -1 <= i < |s|
    ensures i < 0 ==> LF !in s
    ensures i >= 0 ==> s[i] == LF && LF !in s[..i]
  {
    i := 0;
    while i < |s|
      invariant 0 <= i <= |s|
      invariant LF !in s[..i]
    {
      if s[i] == LF { return; }
      i := i + 1;
    }
    i := -1;
  }

  lemma Suffixes<T>(a: seq<T>, b: seq<T>, c: seq<T>)
    requires a <= b <= c
    ensures c[|a|..] == b[|a|..] + c[|b|..]
  {}

  class LineWriter {
    const logger: Logger
    const level: Level
    const maxLineLen: int
    var store: array<byte>    // backing array of the buffer
    var len: nat              // the buffer is store[..len]
    ghost var raw: seq<Bytes>      // the pieces handed to Emit so far
    ghost var logged: seq<Record>  // the records this writer has logged so far

    function Max(): nat {
      if maxLineLen <= 0 then DEFAULT_MAX_LINE_LENGTH else maxLineLen
    }

    ghost predicate Valid()
      reads this, store
    {
      && len <= store.Length && len <= Max()
      && LF !in store[..len]
      && IsLog(level, raw, logged)
    }

    /** The logger has grown by exactly the records this writer has added. */
    twostate predicate Logs()
      reads this, logger
    {
      && old(logged) <= logged
      && logger.records == old(logger.records) + logged[|old(logged)|..]
    }

    ghost function View(): Split
      reads this, store
      requires Valid()
    {
      Split(raw, store[..len])
    }

    constructor (logger: Logger, level: Level, maxLineLen: int)
      ensures Valid() && fresh(store) && View() == EMPTY
      ensures this.logger == logger && this.level == level && this.maxLineLen == maxLineLen
    {
      this.logger, this.level, this.maxLineLen := logger, level, maxLineLen;
      store, len, raw, logged := new byte[0], 0, [], [];
    }

    /** Trims trailing carriage returns and logs what is left, if anything. */
    method Emit(line: Bytes)
      requires IsLog(level, raw, logged)
      modifies logger, this`raw, this`logged
      ensures raw == old(raw) + [line]
      ensures IsLog(level, raw, logged) && Logs()
    {
      var end := |line|;
      assert line[..end] == line;
      while end > 0 && line[end - 1] == CR
        invariant 0 <= end <= |line|
        invariant TrimCR(line[..end]) == TrimCR(line)
      {
        assert line[..end][..end - 1] == line[..end - 1];
        end := end - 1;
      }
      raw := raw + [line];
      assert raw[..|raw| - 1] == old(raw);
      if end == 0 {
        return;
      }
      logger.Log(Container(level, line[..end]));
      logged := logged + [Container(level, line[..end])];
      assert logged[..|logged| - 1] == old(logged);
    }

    /** Appends `s` to the buffer, in place when the backing array has room. */
    method Append(s: Bytes)
      requires len <= store.Length
      modifies this`store, this`len, store
      ensures len <= store.Length && (store == old(store) || fresh(store))
      ensures old(len) + |s| <= old(store.Length) ==> store == old(store)
      ensures store[..len] == old(store[..len]) + s
    {
      if len + |s| > store.Length {
        var spare: nat :| true;
        var bigger := new byte[len + |s| + spare];
        forall i | 0 <= i < len { bigger[i] := store[i]; }
        store := bigger;
      }
      forall i | 0 <= i < |s| { store[len + i] := s[i]; }
      len := len + |s|;
    }

    /** Fills the buffer up to the limit, emits it and empties it; the bytes taken may be none. */
    method ForceOut(rest: Bytes) returns (left: Bytes)
      requires Valid() && Max() - len < |rest| && LF !in rest[..Max() - len + 1]
      modifies this`store, this`len, this`raw, this`logged, store, logger
      ensures Valid() && (store == old(store) || fresh(store)) && len == 0
      ensures left == rest[Max() - old(len)..]
      ensures Feed(Max(), View(), left) == Feed(Max(), old(View()), rest)
      ensures Logs()
    {
      var chunkSize := Max() - len;
      ForcedSplit(Max(), View(), rest, chunkSize);
      Append(rest[..chunkSize]);
      Emit(store[..len]);
      len := 0;
      left := rest[chunkSize..];
      assert store[..0] == [];
    }

    /** Emits the buffer and `rest[..i]` as one line. The line is built in fresh storage, so that
        emptying the buffer cannot disturb it. */
    method EndLine(rest: Bytes, i: nat)
      requires Valid() && i < |rest| && rest[i] == LF && LF !in rest[..i] && len + i <= Max()
      modifies this`len, this`raw, this`logged, logger
      ensures Valid() && len == 0
      ensures Feed(Max(), View(), rest[i + 1..]) == Feed(Max(), old(View()), rest)
      ensures Logs()
    {
      WholeLine(Max(), View(), rest, i);
      var line := rest[..i];
      if len != 0 {
        line := store[..len] + rest[..i];
        len := 0;
      }
      Emit(line);
      assert store[..len] == [];
      assert line == old(View()).buf + rest[..i];
    }

    /** The end of a write, once no newline is left. */
    method BufferRest(p: Bytes)
      requires Valid() && LF !in p
      modifies this`store, this`len, this`raw, this`logged, store, logger
      ensures Valid() && (store == old(store) || fresh(store))
      ensures View() == Feed(Max(), old(View()), p)
      ensures Logs()
    {
      hide Feed, IsLog;
      var rest := p;
      while len + |rest| > Max()
        invariant Valid() && (store == old(store) || fresh(store))
        invariant LF !in rest && Feed(Max(), View(), rest) == Feed(Max(), old(View()), p)
        invariant Logs()
        decreases len + |rest|
      {
        ghost var before := logged;
        rest := ForceOut(rest);
        Suffixes(old(logged), before, logged);
      }
      FeedFits(Max(), View(), rest);
      Append(rest);
    }

    method Write(p: Bytes) returns (n: nat)
      requires Valid()
      modifies this`store, this`len, this`raw, this`logged, store, logger
      ensures Valid() && (store == old(store) || fresh(store))
      ensures n == |p|
      ensures View() == Feed(Max(), old(View()), p)
      ensures View() == Feed(if maxLineLen > 0 then maxLineLen else 0x1_0000, old(View()), p)
      ensures Logs()
    {
      hide Feed, IsLog;
      var rest := p;
      while true
        invariant Valid() && (store == old(store) || fresh(store))
        invariant Feed(Max(), View(), rest) == Feed(Max(), old(View()), p)
        invariant Logs()
        decreases len + |rest|
      {
        ghost var before := logged;
        var i := IndexOfLF(rest);
        if i < 0 {
          BufferRest(rest);
          Suffixes(old(logged), before, logged);
          return |p|;
        }
        if len + i > Max() {
          rest := ForceOut(rest);
        } else {
          EndLine(rest, i);
          rest := rest[i + 1..];
        }
        Suffixes(old(logged), before, logged);
      }
    }

    method Flush()
      requires Valid()
      modifies this`store, this`len, this`raw, this`logged, logger
      ensures Valid() && (store == old(store) || fresh(store))
      ensures View() == Finish(old(View()))
      ensures Logs()
    {
      if len == 0 { return; }
      var line := store[..len];
      store, len := new byte[0], 0;
      Emit(line);
    }
  }
}
