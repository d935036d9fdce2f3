/** The restart loop: opens a follow stream again and again, keeps one line writer per container
    stream across all of them, backs off exponentially, and stops on cancellation or an error. */
module StreamFrom {
  import opened LineSplit
  import opened LineWriter
  import opened Backoff

  datatype Stream = Stdout | Stderr

  datatype Frame = Frame(stream: Stream, data: Bytes)

  datatype CopyEnd = CleanEOF | CopyFailed(cancelled: bool)

  /** What one turn of the loop meets: `cancelled` is whether the context is cancelled by the time
      the error is looked at; `cancelledInWait` is how the backoff wait ends. */
  datatype Session =
    | OpenFailed(cancelled: bool)
    | Opened(frames: seq<Frame>, end: CopyEnd, elapsed: int, cancelledInWait: bool)

  // ---------- What a run amounts to ----------

  predicate Exits(s: Session) {
    s.OpenFailed? || s.end.CopyFailed? || s.cancelledInWait
  }

  /** The sessions the loop really goes through: up to the first that makes it exit. */
  function Reached(sessions: seq<Session>): seq<Session> {
    if sessions == [] then []
    else [sessions[0]] + if Exits(sessions[0]) then [] else Reached(sessions[1..])
  }

  /** What a frame adds to `stream`. */
  function Part(frame: Frame, stream: Stream): Bytes {
    if frame.stream == stream then frame.data else []
  }

  function FrameBytes(frames: seq<Frame>, stream: Stream): Bytes {
    if frames == [] then [] else Part(frames[0], stream) + FrameBytes(frames[1..], stream)
  }

  /** What a session delivers on `stream`; nothing if it could not be opened. */
  function Delivered(s: Session, stream: Stream): Bytes {
    if s.Opened? then FrameBytes(s.frames, stream) else []
  }

  predicate EndsCleanly(s: Session) {
    s.Opened? && s.end.CleanEOF?
  }

  /** All the bytes the container wrote to `stream`, over all sessions. */
  function StreamBytes(sessions: seq<Session>, stream: Stream): Bytes {
    if sessions == [] then []
    else
      StreamBytes(sessions[..|sessions| - 1], stream) + Delivered(sessions[|sessions| - 1], stream)
  }

  /** The supervisor's own messages: one per clean end, and a warning iff an error ended the run while
      its context was still live. */
  function Notices(sessions: seq<Session>): seq<Record> {
    if sessions == [] then []
    else
      var last := sessions[|sessions| - 1];
      Notices(sessions[..|sessions| - 1]) + NoticesOf(last)
  }

  function NoticesOf(s: Session): seq<Record> {
    match s
    case OpenFailed(cancelled) => if cancelled then [] else [Notice(Warn, OpenFailure)]
    case Opened(_, CopyFailed(cancelled), _, _) => if cancelled then [] else [Notice(Warn, StreamFailure)]
    case Opened(_, CleanEOF, _, _) => [Notice(Debug, Restarting)]
  }

  /** What a 64-bit counter reads once it has counted to `n`. */
  function Reading(n: nat): (r: nat)
    ensures r < TWO_64
  {
    if n < TWO_64 then n else Reading(n - TWO_64)
  }

  lemma {:induction false} ReadingIsMod(n: nat)
    ensures Reading(n) == n % TWO_64
  {
    if n >= TWO_64 {
      ReadingIsMod(n - TWO_64);
    }
  }

  /** A session that ended at once and, as far as the 64-bit counters tell, delivered nothing. */
  predicate FastEmpty(s: Session) {
    && s.Opened? && s.elapsed < FAST
    && Reading(|FrameBytes(s.frames, Stdout)| + |FrameBytes(s.frames, Stderr)|) == 0
  }

  /** How many bytes a session delivered. */
  function Size(s: Session): nat {
    |Delivered(s, Stdout)| + |Delivered(s, Stderr)|
  }

  /** An opened session counts as fast and empty exactly if it was fast and a multiple of 2^64 bytes
      came; below 2^64 bytes, exactly if it was fast and no byte came. */
  lemma FastEmptyExactly(s: Session)
    requires s.Opened?
    ensures FastEmpty(s) <==> s.elapsed < FAST && Size(s) % TWO_64 == 0
    ensures Size(s) < TWO_64 ==> (FastEmpty(s) <==> s.elapsed < FAST && Size(s) == 0)
  {
    ReadingIsMod(Size(s));
  }

  function FastEmpties(sessions: seq<Session>): seq<bool> {
    if sessions == [] then []
    else FastEmpties(sessions[..|sessions| - 1]) + [FastEmpty(sessions[|sessions| - 1])]
  }

  /** The durations waited for: one after every session that ended cleanly. */
  function Waits(base: Duration, sessions: seq<Session>): seq<Duration> {
    if sessions == [] then []
    else
      Waits(base, sessions[..|sessions| - 1])
      + if EndsCleanly(sessions[|sessions| - 1]) then [Current(base, FastEmpties(sessions))] else []
  }

  // ---------- The waits, in closed form ----------

  lemma {:induction false} OnlyTheLastExits(sessions: seq<Session>, i: nat)
    requires i + 1 < |Reached(sessions)|
    ensures EndsCleanly(Reached(sessions)[i])
  {
    if i > 0 {
      OnlyTheLastExits(sessions[1..], i - 1);
    }
  }

  lemma {:induction false} WaitsByIndex(base: Duration, ran: seq<Session>)
    requires forall i :: 0 <= i < |ran| - 1 ==> EndsCleanly(ran[i])
    ensures |Waits(base, ran)| == if ran == [] || EndsCleanly(ran[|ran| - 1]) then |ran| else |ran| - 1
    ensures forall k :: 0 <= k < |Waits(base, ran)| ==> Waits(base, ran)[k] == Current(base, FastEmpties(ran[..k + 1]))
  {
    if ran != [] {
      var init := ran[..|ran| - 1];
      WaitsByIndex(base, init);
      forall k | 0 <= k < |Waits(base, ran)|
        ensures Waits(base, ran)[k] == Current(base, FastEmpties(ran[..k + 1]))
      {
        if k < |init| {
          assert init[..k + 1] == ran[..k + 1];
        } else {
          assert ran[..k + 1] == ran;
        }
      }
    }
  }

  /** Each wait is the closed form of the number of fast empty sessions, up to the one it follows, since
      the start or the last session that was not. */
  ghost predicate ClosedWaits(base: Duration, ran: seq<Session>, waits: seq<Duration>) {
    && |waits| <= |ran|
    && forall k :: 0 <= k < |waits| ==> waits[k] as int == Closed(base, Streak(FastEmpties(ran[..k + 1])))
  }

  lemma WaitsAreClosed(base: Duration, sessions: seq<Session>)
    requires 0 <= base as int < TWO_63 / 2
    ensures ClosedWaits(base, Reached(sessions), Waits(base, Reached(sessions)))
  {
    var ran := Reached(sessions);
    forall i | 0 <= i < |ran| - 1 ensures EndsCleanly(ran[i]) {
      OnlyTheLastExits(sessions, i);
    }
    hide EndsCleanly, Reached, Closed, Current, Waits, FastEmpties, Streak;
    WaitsByIndex(base, ran);
    forall k | 0 <= k < |Waits(base, ran)|
      ensures Waits(base, ran)[k] as int == Closed(base, Streak(FastEmpties(ran[..k + 1])))
    {
      CurrentIsClosed(base, FastEmpties(ran[..k + 1]));
    }
  }

  // ---------- How far a run goes, and what it is made of ----------

  /** The sessions reached are a prefix, and a session is reached exactly if every earlier one was opened,
      came to a clean end of file, and was not cancelled in its wait. */
  lemma {:induction false} ReachedExactly(sessions: seq<Session>, i: nat)
    requires i < |sessions|
    ensures Reached(sessions) <= sessions
    ensures i < |Reached(sessions)|
       <==> forall j :: 0 <= j < i ==>
              sessions[j].Opened? && sessions[j].end.CleanEOF? && !sessions[j].cancelledInWait
  {
    var rest := sessions[1..];
    assert sessions == [sessions[0]] + rest;
    ReachedIsPrefix(rest);
    if i > 0 {
      ReachedExactly(rest, i - 1);
      assert forall j :: 0 < j < i ==> sessions[j] == rest[j - 1];
      assert forall j :: 0 <= j < i - 1 ==> rest[j] == sessions[j + 1];
    }
  }

  lemma {:induction false} ReachedIsPrefix(sessions: seq<Session>)
    ensures Reached(sessions) <= sessions
    ensures sessions != [] ==> Reached(sessions) != []
  {
    if sessions != [] {
      ReachedIsPrefix(sessions[1..]);
    }
  }

  /** The same of the whole: all that is reached but the last came to a clean end and was not cancelled,
      and it is everything unless the last one did not. */
  lemma ReachedAndNoMore(sessions: seq<Session>)
    ensures var ran := Reached(sessions);
            && ran <= sessions
            && (forall j :: 0 <= j < |ran| - 1 ==> ran[j].Opened? && ran[j].end.CleanEOF? && !ran[j].cancelledInWait)
            && (|ran| < |sessions| ==>
                  && ran != []
                  && var last := ran[|ran| - 1]; last.OpenFailed? || last.end.CopyFailed? || last.cancelledInWait)
  {
    var ran := Reached(sessions);
    ReachedIsPrefix(sessions);
    if ran != [] {
      ReachedExactly(sessions, |ran| - 1);
      if |ran| < |sessions| {
        ReachedExactly(sessions, |ran|);
      }
    }
  }

  /** If every session but the last is of that kind, all are reached. */
  lemma AllReached(sessions: seq<Session>)
    requires forall j :: 0 <= j < |sessions| - 1 ==>
               sessions[j].Opened? && sessions[j].end.CleanEOF? && !sessions[j].cancelledInWait
    ensures Reached(sessions) == sessions
  {
    if sessions != [] {
      ReachedExactly(sessions, |sessions| - 1);
    }
  }

  /** The bytes of a stream are those of its frames, in order, and of no other frame. */
  lemma {:induction false} BytesOfFrames(a: seq<Frame>, b: seq<Frame>, stream: Stream)
    ensures FrameBytes(a + b, stream) == FrameBytes(a, stream) + FrameBytes(b, stream)
    decreases |a|
  {
    hide Part;
    if a == [] {
      assert a + b == b;
    } else {
      assert (a + b)[1..] == a[1..] + b;
      BytesOfFrames(a[1..], b, stream);
    }
  }

  lemma BytesOfOneFrame(f: Frame, stream: Stream)
    ensures FrameBytes([], stream) == []
    ensures FrameBytes([f], stream) == if f.stream == stream then f.data else []
  {
    assert [f][1..] == [];
  }

  /** The bytes of several sessions are those of each, in order; one that did not open has none. */
  lemma {:induction false} BytesOfSessions(a: seq<Session>, b: seq<Session>, stream: Stream)
    ensures StreamBytes(a + b, stream) == StreamBytes(a, stream) + StreamBytes(b, stream)
    decreases |b|
  {
    hide Delivered;
    if b == [] {
      assert a + b == a;
    } else {
      var init, last := b[..|b| - 1], b[|b| - 1];
      assert (a + b)[..|a + b| - 1] == a + init;
      BytesOfSessions(a, init, stream);
    }
  }

  lemma BytesOfOneSession(s: Session, stream: Stream)
    ensures StreamBytes([], stream) == []
    ensures StreamBytes([s], stream) == if s.Opened? then FrameBytes(s.frames, stream) else []
  {
    assert [s][..0] == [];
  }

  lemma {:induction false} NoticesByIndex(ran: seq<Session>)
    requires forall j :: 0 <= j < |ran| ==> EndsCleanly(ran[j])
    ensures |Notices(ran)| == |ran| && forall i :: 0 <= i < |ran| ==> Notices(ran)[i] == Notice(Debug, Restarting)
  {
    if ran != [] {
      NoticesByIndex(ran[..|ran| - 1]);
    }
  }

  /** The supervisor's own messages of a run: a restart message after every clean end of file; and if the
      last session failed to open, or broke off, a warning that says so, unless the context was cancelled. */
  lemma NoticesExactly(sessions: seq<Session>)
    requires sessions != []
    ensures Reached(sessions) != []
    ensures var ran := Reached(sessions);
            var notices, last := Notices(ran), ran[|ran| - 1];
            && |notices| >= |ran| - 1 && (forall i :: 0 <= i < |ran| - 1 ==> notices[i] == Notice(Debug, Restarting))
            && notices[|ran| - 1..] ==
                 if last.OpenFailed? then (if last.cancelled then [] else [Notice(Warn, OpenFailure)])
                 else if last.end.CleanEOF? then [Notice(Debug, Restarting)]
                 else if last.end.cancelled then [] else [Notice(Warn, StreamFailure)]
  {
    var ran := Reached(sessions);
    ReachedIsPrefix(sessions);
    var init, last := ran[..|ran| - 1], ran[|ran| - 1];
    forall i | 0 <= i < |init| ensures EndsCleanly(init[i]) {
      OnlyTheLastExits(sessions, i);
    }
    NoticesByIndex(init);
    assert Notices(ran) == Notices(init) + NoticesOf(last);
    hide Notices, Reached;
  }

  lemma {:induction false} FastEmptiesByIndex(ran: seq<Session>)
    ensures |FastEmpties(ran)| == |ran| && forall i :: 0 <= i < |ran| ==> FastEmpties(ran)[i] == FastEmpty(ran[i])
  {
    if ran != [] {
      FastEmptiesByIndex(ran[..|ran| - 1]);
    }
  }

  lemma {:induction false} StreakExactly(fast: seq<bool>, n: nat)
    requires n <= |fast| && (forall i :: |fast| - n <= i < |fast| ==> fast[i])
    requires n < |fast| ==> !fast[|fast| - n - 1]
    ensures Streak(fast) == n
  {
    if n > 0 {
      StreakExactly(fast[..|fast| - 1], n - 1);
    }
  }

  /** There is one wait after every session reached, except after a last one that failed to open or broke
      off. */
  lemma WaitsCounted(base: Duration, sessions: seq<Session>)
    ensures var ran, n := Reached(sessions), |Waits(base, Reached(sessions))|;
            && (ran == [] ==> n == 0)
            && (ran != [] && ran[|ran| - 1].Opened? && ran[|ran| - 1].end.CleanEOF? ==> n == |ran|)
            && (ran != [] && (ran[|ran| - 1].OpenFailed? || ran[|ran| - 1].end.CopyFailed?) ==> n == |ran| - 1)
  {
    var ran := Reached(sessions);
    forall i | 0 <= i < |ran| - 1 ensures EndsCleanly(ran[i]) {
      OnlyTheLastExits(sessions, i);
    }
    hide Reached, Waits;
    WaitsByIndex(base, ran);
  }

  lemma ClosedInNumbers(base: Duration, n: nat)
    ensures Closed(base, n) == if n == 0 then base as int
                               else if base as int * Pow2(n) < 10_000_000_000 then base as int * Pow2(n)
                               else 10_000_000_000
  {}

  /** The wait after a session that n fast empty sessions end with, no more: the base for n = 0, else
      base * 2^n nanoseconds, ten seconds at most. Fast is below 100 ms. */
  lemma WaitsExactly(base: Duration, sessions: seq<Session>, k: nat, n: nat)
    requires 0 <= base as int < TWO_63 / 2
    requires k < |Waits(base, Reached(sessions))| && n <= k + 1 && k < |Reached(sessions)|
    requires forall i :: 0 <= i <= k ==> Reached(sessions)[i].Opened? && Size(Reached(sessions)[i]) < TWO_64
    requires forall i :: k + 1 - n <= i <= k ==>
               Reached(sessions)[i].elapsed < 100_000_000 && Size(Reached(sessions)[i]) == 0
    requires n < k + 1 ==> Reached(sessions)[k - n].elapsed >= 100_000_000 || Size(Reached(sessions)[k - n]) > 0
    ensures var wait := Waits(base, Reached(sessions))[k] as int;
            wait == if n == 0 then base as int
                    else if base as int * Pow2(n) < 10_000_000_000 then base as int * Pow2(n)
                    else 10_000_000_000
  {
    var ran := Reached(sessions);
    var upTo := ran[..k + 1];
    WaitsAreClosed(base, sessions);
    FastEmptiesByIndex(upTo);
    forall i | 0 <= i <= k
      ensures FastEmpty(upTo[i]) <==> upTo[i].elapsed < 100_000_000 && Size(upTo[i]) == 0
    {
      FastEmptyExactly(upTo[i]);
    }
    ClosedInNumbers(base, n);
    hide Waits, Reached, FastEmpties, FastEmpty, Size, Streak, Closed, Pow2;
    StreakExactly(FastEmpties(upTo), n);
  }

  // ---------- The counters and writers ----------

  newtype uint64 = n: int | 0 <= n < 0x1_0000_0000_0000_0000

  /** 64-bit addition, which wraps. */
  function Add64(a: uint64, b: uint64): uint64 {
    var sum := a as int + b as int;
    (if sum >= TWO_64 then sum - TWO_64 else sum) as uint64
  }

  lemma {:induction false} ReadingOfSum(a: nat, b: nat)
    ensures Reading(a + b) == Add64(Reading(a) as uint64, Reading(b) as uint64) as int
    decreases a, b
  {
    if a >= TWO_64 {
      ReadingOfSum(a - TWO_64, b);
    } else if b >= TWO_64 {
      ReadingOfSum(a, b - TWO_64);
    }
  }

  class ByteCounter {
    const w: LineWriter
    var count: uint64
    ghost var total: nat // the bytes written, never wrapped

    ghost predicate Counts()
      reads this
    {
      count as int == Reading(total)
    }

    constructor (w: LineWriter)
      ensures this.w == w && total == 0 && Counts()
    {
      this.w, count, total := w, 0, 0;
    }

    method Write(p: Bytes) returns (n: nat)
      requires w.Valid() && Counts()
      modifies this, w`store, w`len, w`raw, w`logged, w.store, w.logger
      ensures w.Valid() && (w.store == old(w.store) || fresh(w.store))
      ensures n == |p| && w.View() == Feed(w.Max(), old(w.View()), p) && w.Logs()
      ensures Counts() && total == old(total) + |p|
    {
      n := w.Write(p);
      count := Add64(count, Reading(n) as uint64);
      ReadingOfSum(total, n);
      total := total + n;
    }
  }

  /** The 64-bit sum of two counters. */
  method Total(a: ByteCounter, b: ByteCounter) returns (totalBytes: uint64)
    requires a.Counts() && b.Counts()
    ensures totalBytes as int == Reading(a.total + b.total)
  {
    totalBytes := Add64(a.count, b.count);
    ReadingOfSum(a.total, b.total);
  }

  const M := DEFAULT_MAX_LINE_LENGTH

  /** `log` interleaves the two writers' records and the supervisor's notices: each record of `log` is
      the next of exactly one of the three, and nothing else is there. */
  ghost predicate Interleaves(log: seq<Record>, out: seq<Record>, err: seq<Record>, notices: seq<Record>) {
    if log == [] then out == err == notices == []
    else
      var r, before := log[|log| - 1], log[..|log| - 1];
      if r.Notice? then notices != [] && notices[|notices| - 1] == r
          && Interleaves(before, out, err, notices[..|notices| - 1])
      else if r.level == Info then out != [] && out[|out| - 1] == r
          && Interleaves(before, out[..|out| - 1], err, notices)
      else r.level == Warn && err != [] && err[|err| - 1] == r && Interleaves(before, out, err[..|err| - 1], notices)
  }

  /** A writer's log only has container records at its level. */
  lemma {:induction false} OwnLog(level: Level, raw: seq<Bytes>, log: seq<Record>)
    requires IsLog(level, raw, log)
    ensures forall i :: 0 <= i < |log| ==> log[i].Container? && log[i].level == level
  {
    if raw != [] {
      var line := TrimCR(raw[|raw| - 1]);
      OwnLog(level, raw[..|raw| - 1], if line == [] then log else log[..|log| - 1]);
    }
  }

  lemma {:induction false} GrowOut(log: seq<Record>, out: seq<Record>, err: seq<Record>, notices: seq<Record>,
      more: seq<Record>)
    requires Interleaves(log, out, err, notices)
    requires forall i :: 0 <= i < |more| ==> more[i].Container? && more[i].level == Info
    ensures Interleaves(log + more, out + more, err, notices)
    decreases |more|
  {
    if more == [] {
      assert log + more == log && out + more == out;
    } else {
      var init := more[..|more| - 1];
      GrowOut(log, out, err, notices, init);
      assert (log + more)[..|log + more| - 1] == log + init;
      assert (out + more)[..|out + more| - 1] == out + init;
    }
  }

  lemma {:induction false} GrowErr(log: seq<Record>, out: seq<Record>, err: seq<Record>, notices: seq<Record>,
      more: seq<Record>)
    requires Interleaves(log, out, err, notices)
    requires forall i :: 0 <= i < |more| ==> more[i].Container? && more[i].level == Warn
    ensures Interleaves(log + more, out, err + more, notices)
    decreases |more|
  {
    if more == [] {
      assert log + more == log && err + more == err;
    } else {
      var init := more[..|more| - 1];
      GrowErr(log, out, err, notices, init);
      assert (log + more)[..|log + more| - 1] == log + init;
      assert (err + more)[..|err + more| - 1] == err + init;
    }
  }

  lemma GrowNotice(log: seq<Record>, out: seq<Record>, err: seq<Record>, notices: seq<Record>, n: Record)
    requires Interleaves(log, out, err, notices) && n.Notice?
    ensures Interleaves(log + [n], out, err, notices + [n])
  {
    assert (log + [n])[..|log|] == log && (notices + [n])[..|notices|] == notices;
  }

  /** What one run writes to: the two line writers, which share a logger. `log` is what the run has
      added to the logger, `notices` the part of it that is the supervisor's own. */
  class Sink {
    const logger: Logger
    const out: LineWriter
    const err: LineWriter
    ghost const base: seq<Record>
    ghost var log: seq<Record>
    ghost var notices: seq<Record>

    ghost predicate Valid()
      reads this, logger, out, err, out.store, err.store
    {
      && out != err && out.store != err.store && out.logger == err.logger == logger
      && out.level == Info && err.level == Warn && out.Max() == err.Max() == M
      && out.Valid() && err.Valid()
      && logger.records == base + log
      && Interleaves(log, out.logged, err.logged, notices)
    }

    ghost function Repr(): set<object>
      reads this, out, err
    {
      {this, logger, out, err, out.store, err.store}
    }

    ghost function View(stream: Stream): Split
      reads this, logger, out, err, out.store, err.store
      requires Valid()
    {
      if stream == Stdout then out.View() else err.View()
    }

    constructor (logger: Logger)
      ensures Valid() && fresh(Repr() - {logger}) && this.logger == logger
      ensures View(Stdout) == View(Stderr) == EMPTY
      ensures base == logger.records && log == [] && notices == []
    {
      this.logger := logger;
      out := new LineWriter(logger, Info, DEFAULT_MAX_LINE_LENGTH);
      err := new LineWriter(logger, Warn, DEFAULT_MAX_LINE_LENGTH);
      base, log, notices := logger.records, [], [];
    }

    /** Logs a message of the supervisor itself. */
    method Note(n: Record)
      requires Valid() && n.Notice?
      modifies this`log, this`notices, logger
      ensures Valid() && notices == old(notices) + [n]
    {
      logger.Log(n);
      GrowNotice(log, out.logged, err.logged, notices, n);
      log, notices := log + [n], notices + [n];
    }

    method WriteOut(counter: ByteCounter, p: Bytes)
      requires Valid() && counter.w == out && counter.Counts()
      modifies this`log, out, out.store, logger, counter
      ensures Valid() && (out.store == old(out.store) || fresh(out.store)) && notices == old(notices)
      ensures View(Stdout) == Feed(M, old(View(Stdout)), p) && View(Stderr) == old(View(Stderr))
      ensures counter.Counts() && counter.total == old(counter.total) + |p|
    {
      hide Feed, IsLog, Interleaves, Reading;
      ghost var before := out.logged;
      var n := counter.Write(p);
      OwnLog(Info, out.raw, out.logged);
      GrowOut(log, before, err.logged, notices, out.logged[|before|..]);
      log := log + out.logged[|before|..];
      assert before + out.logged[|before|..] == out.logged;
    }

    method WriteErr(counter: ByteCounter, p: Bytes)
      requires Valid() && counter.w == err && counter.Counts()
      modifies this`log, err, err.store, logger, counter
      ensures Valid() && (err.store == old(err.store) || fresh(err.store)) && notices == old(notices)
      ensures View(Stderr) == Feed(M, old(View(Stderr)), p) && View(Stdout) == old(View(Stdout))
      ensures counter.Counts() && counter.total == old(counter.total) + |p|
    {
      hide Feed, IsLog, Interleaves, Reading;
      ghost var before := err.logged;
      var n := counter.Write(p);
      OwnLog(Warn, err.raw, err.logged);
      GrowErr(log, out.logged, before, notices, err.logged[|before|..]);
      log := log + err.logged[|before|..];
      assert before + err.logged[|before|..] == err.logged;
    }

    /** One frame, written through the counter of its stream. */
    method CopyFrame(outCounter: ByteCounter, errCounter: ByteCounter, frame: Frame)
      requires Valid() && outCounter != errCounter && outCounter.w == out && errCounter.w == err
      requires outCounter.Counts() && errCounter.Counts()
      modifies Repr(), outCounter, errCounter
      ensures Valid() && fresh(Repr() - old(Repr())) && notices == old(notices)
      ensures View(Stdout) == Feed(M, old(View(Stdout)), Part(frame, Stdout))
      ensures View(Stderr) == Feed(M, old(View(Stderr)), Part(frame, Stderr))
      ensures outCounter.Counts() && outCounter.total == old(outCounter.total) + |Part(frame, Stdout)|
      ensures errCounter.Counts() && errCounter.total == old(errCounter.total) + |Part(frame, Stderr)|
    {
      if frame.stream == Stdout {
        WriteOut(outCounter, frame.data);
      } else {
        WriteErr(errCounter, frame.data);
      }
    }

    /** The frames of one session, in order. */
    method CopyFrames(outCounter: ByteCounter, errCounter: ByteCounter, frames: seq<Frame>)
      requires Valid() && outCounter != errCounter && outCounter.w == out && errCounter.w == err
      requires outCounter.Counts() && errCounter.Counts()
      modifies Repr(), outCounter, errCounter
      ensures Valid() && fresh(Repr() - old(Repr())) && notices == old(notices)
      ensures View(Stdout) == Feed(M, old(View(Stdout)), FrameBytes(frames, Stdout))
      ensures View(Stderr) == Feed(M, old(View(Stderr)), FrameBytes(frames, Stderr))
      ensures outCounter.Counts() && outCounter.total == old(outCounter.total) + |FrameBytes(frames, Stdout)|
      ensures errCounter.Counts() && errCounter.total == old(errCounter.total) + |FrameBytes(frames, Stderr)|
    {
      if frames == [] { return; }
      hide IsLog, Interleaves, Reading;
      FeedConcat(M, out.View(), Part(frames[0], Stdout), FrameBytes(frames[1..], Stdout));
      FeedConcat(M, err.View(), Part(frames[0], Stderr), FrameBytes(frames[1..], Stderr));
      CopyFrame(outCounter, errCounter, frames[0]);
      CopyFrames(outCounter, errCounter, frames[1..]);
    }

    /** The copy part of one session, through fresh counters. */
    method Copy(frames: seq<Frame>) returns (totalBytes: uint64)
      requires Valid()
      modifies Repr()
      ensures Valid() && fresh(Repr() - old(Repr())) && notices == old(notices)
      ensures View(Stdout) == Feed(M, old(View(Stdout)), FrameBytes(frames, Stdout))
      ensures View(Stderr) == Feed(M, old(View(Stderr)), FrameBytes(frames, Stderr))
      ensures totalBytes as int == Reading(|FrameBytes(frames, Stdout)| + |FrameBytes(frames, Stderr)|)
    {
      hide Feed, IsLog, Interleaves, FrameBytes;
      var outCounter := new ByteCounter(out);
      var errCounter := new ByteCounter(err);
      CopyFrames(outCounter, errCounter, frames);
      totalBytes := Total(outCounter, errCounter);
    }

    method Flush()
      requires Valid()
      modifies Repr()
      ensures Valid() && notices == old(notices)
      ensures View(Stdout) == Finish(old(View(Stdout))) && View(Stderr) == Finish(old(View(Stderr)))
    {
      FlushOut();
      FlushErr();
    }

    method FlushOut()
      requires Valid()
      modifies this`log, out, logger
      ensures Valid() && (out.store == old(out.store) || fresh(out.store))
      ensures View(Stdout) == Finish(old(View(Stdout))) && View(Stderr) == old(View(Stderr))
    {
      hide Feed, IsLog, Interleaves;
      ghost var outLog := out.logged;
      out.Flush();
      OwnLog(Info, out.raw, out.logged);
      GrowOut(log, outLog, err.logged, notices, out.logged[|outLog|..]);
      log := log + out.logged[|outLog|..];
      assert outLog + out.logged[|outLog|..] == out.logged;
    }

    method FlushErr()
      requires Valid()
      modifies this`log, err, logger
      ensures Valid() && (err.store == old(err.store) || fresh(err.store))
      ensures View(Stderr) == Finish(old(View(Stderr))) && View(Stdout) == old(View(Stdout))
    {
      hide Feed, IsLog, Interleaves;
      ghost var errLog := err.logged;
      err.Flush();
      OwnLog(Warn, err.raw, err.logged);
      GrowErr(log, out.logged, errLog, notices, err.logged[|errLog|..]);
      log := log + err.logged[|errLog|..];
      assert errLog + err.logged[|errLog|..] == err.logged;
    }
  }

  // ---------- The loop ----------

  lemma OneReached(done: seq<Session>, rest: seq<Session>)
    ensures rest == [] ==> done + Reached(rest) == done
    ensures rest != [] && Exits(rest[0]) ==> done + Reached(rest) == done + [rest[0]]
    ensures rest != [] && !Exits(rest[0]) ==> done + Reached(rest) == done + [rest[0]] + Reached(rest[1..])
  {
    if rest != [] {
      var more := if Exits(rest[0]) then [] else Reached(rest[1..]);
      assert Reached(rest) == [rest[0]] + more;
      hide Reached, Exits;
      assert done + ([rest[0]] + more) == done + [rest[0]] + more;
    }
  }

  lemma NothingYet(done: seq<Session>, base: Duration)
    requires done == []
    ensures Feed(M, EMPTY, StreamBytes(done, Stdout)) == EMPTY == Feed(M, EMPTY, StreamBytes(done, Stderr))
    ensures Notices(done) == [] && Current(base, FastEmpties(done)) == base && Waits(base, done) == []
  {}

  /** One more session, seen by everything that is defined over the sessions so far. */
  lemma NextSession(done: seq<Session>, s: Session, base: Duration)
    ensures Feed(M, Feed(M, EMPTY, StreamBytes(done, Stdout)), Delivered(s, Stdout))
        == Feed(M, EMPTY, StreamBytes(done + [s], Stdout))
    ensures Feed(M, Feed(M, EMPTY, StreamBytes(done, Stderr)), Delivered(s, Stderr))
        == Feed(M, EMPTY, StreamBytes(done + [s], Stderr))
    ensures Notices(done + [s]) == Notices(done) + NoticesOf(s)
  {
    assert (done + [s])[..|done|] == done;
    FeedConcat(M, EMPTY, StreamBytes(done, Stdout), Delivered(s, Stdout));
    FeedConcat(M, EMPTY, StreamBytes(done, Stderr), Delivered(s, Stderr));
  }

  lemma NextWait(done: seq<Session>, s: Session, base: Duration)
    ensures Current(base, FastEmpties(done + [s])) == if FastEmpty(s) then Doubled(Current(base, FastEmpties(done)))
        else base
    ensures Waits(base, done + [s])
         == Waits(base, done) + if EndsCleanly(s) then [Current(base, FastEmpties(done + [s]))] else []
  {
    assert (done + [s])[..|done|] == done;
    var f := FastEmpties(done + [s]);
    assert f[..|f| - 1] == FastEmpties(done);
  }

  method NextBackoff(backoff: Duration, current: Duration, elapsed: int, totalBytes: uint64)
      returns (currentBackoff: Duration)
    ensures currentBackoff == if elapsed < FAST && totalBytes == 0 then Doubled(current) else backoff
  {
    if elapsed < FAST && totalBytes == 0 {
      currentBackoff := Twice(current);
      if currentBackoff as int > MAX_BACKOFF {
        currentBackoff := MAX_BACKOFF as Duration;
      }
    } else {
      currentBackoff := backoff;
    }
  }

  /** One turn of the loop: open, copy, adjust the backoff, wait. `go` is false if the loop exits. */
  method Turn(sink: Sink, backoff: Duration, current: Duration, s: Session)
    returns (go: bool, currentBackoff: Duration, waited: seq<Duration>)
    requires sink.Valid()
    modifies sink.Repr()
    ensures sink.Valid() && fresh(sink.Repr() - old(sink.Repr()))
    ensures sink.View(Stdout) == Feed(M, old(sink.View(Stdout)), Delivered(s, Stdout))
    ensures sink.View(Stderr) == Feed(M, old(sink.View(Stderr)), Delivered(s, Stderr))
    ensures sink.notices == old(sink.notices) + NoticesOf(s)
    ensures go <==> !Exits(s)
    ensures go <==> s.Opened? && s.end.CleanEOF? && !s.cancelledInWait
    ensures go ==> EndsCleanly(s)
    ensures EndsCleanly(s) ==> currentBackoff == (if FastEmpty(s) then Doubled(current) else backoff)
    ensures waited == if EndsCleanly(s) then [currentBackoff] else []
  {
    hide IsLog, Interleaves, Reading, FrameBytes, Doubled;
    go, currentBackoff, waited := false, current, [];
    if s.OpenFailed? {
      if !s.cancelled {
        sink.Note(Notice(Warn, OpenFailure));
      }
      return;
    }
    hide Feed;
    var totalBytes := sink.Copy(s.frames);
    if s.end.CopyFailed? {
      if !s.end.cancelled {
        sink.Note(Notice(Warn, StreamFailure));
      }
      return;
    }
    currentBackoff := NextBackoff(backoff, current, s.elapsed, totalBytes);
    sink.Note(Notice(Debug, Restarting));
    waited := [currentBackoff];
    go := !s.cancelledInWait;
  }

  /** What a run of the sessions `ran` must have put in the log. */
  ghost predicate FullLog(log: seq<Record>, ran: seq<Session>) {
    Interleaves(log,
                Tagged(Info, Entries(Finish(Feed(M, EMPTY, StreamBytes(ran, Stdout))).raw)),
                Tagged(Warn, Entries(Finish(Feed(M, EMPTY, StreamBytes(ran, Stderr))).raw)),
                Notices(ran))
  }

  lemma FullFromSink(sink: Sink, ran: seq<Session>)
    requires sink.Valid() && sink.notices == Notices(ran)
    requires sink.View(Stdout) == Finish(Feed(M, EMPTY, StreamBytes(ran, Stdout)))
    requires sink.View(Stderr) == Finish(Feed(M, EMPTY, StreamBytes(ran, Stderr)))
    ensures FullLog(sink.log, ran)
  {
    IsLogTagged(Info, sink.out.raw, sink.out.logged);
    IsLogTagged(Warn, sink.err.raw, sink.err.logged);
  }

  /** The whole run. `sessions` is what the daemon and the context do, turn by turn; should the run
      outlive it, the next open fails on a cancelled context. `waits` are the backoff waits, `log` what
      the run adds to the log. */
  method StreamFrom(logger: Logger, backoff: Duration, sessions: seq<Session>)
      returns (waits: seq<Duration>, ghost log: seq<Record>)
    modifies logger
    ensures logger.records == old(logger.records) + log
    ensures FullLog(log, Reached(sessions))
    ensures Reached(sessions) <= sessions
    ensures forall j :: 0 <= j < |Reached(sessions)| - 1 ==>
              && Reached(sessions)[j].Opened? && Reached(sessions)[j].end.CleanEOF?
              && !Reached(sessions)[j].cancelledInWait
    ensures |Reached(sessions)| < |sessions| ==>
              && Reached(sessions) != []
              && var last := Reached(sessions)[|Reached(sessions)| - 1];
                 last.OpenFailed? || last.end.CopyFailed? || last.cancelledInWait
    ensures waits == Waits(backoff, Reached(sessions))
    ensures 0 <= backoff as int < TWO_63 / 2 ==> ClosedWaits(backoff, Reached(sessions), waits)
  {
    hide Feed, IsLog, Interleaves, Reading, FastEmpties, StreamBytes, Notices, Current, Waits, FrameBytes,
         FullLog, Delivered, NoticesOf, FastEmpty, Doubled, Finish, Reached, Exits, EndsCleanly, ClosedWaits;
    var sink := new Sink(logger);
    var currentBackoff := backoff;
    var rest, go := sessions, true;
    ghost var done: seq<Session> := [];
    waits := [];
    NothingYet(done, backoff);
    assert Reached(sessions) == done + Reached(rest);
    while go && rest != []
      invariant go ==> Reached(sessions) == done + Reached(rest)
      invariant !go ==> Reached(sessions) == done
      invariant sink.Valid() && fresh(sink.Repr() - {logger}) && sink.logger == logger
      invariant sink.base == old(logger.records)
      invariant sink.View(Stdout) == Feed(M, EMPTY, StreamBytes(done, Stdout))
      invariant sink.View(Stderr) == Feed(M, EMPTY, StreamBytes(done, Stderr))
      invariant sink.notices == Notices(done)
      invariant go ==> currentBackoff == Current(backoff, FastEmpties(done))
      invariant waits == Waits(backoff, done)
      decreases go, |rest|
    {
      OneReached(done, rest);
      NextSession(done, rest[0], backoff);
      NextWait(done, rest[0], backoff);
      var waited;
      go, currentBackoff, waited := Turn(sink, backoff, currentBackoff, rest[0]);
      waits := waits + waited;
      done, rest := done + [rest[0]], rest[1..];
    }
    assert done == Reached(sessions) by {
      OneReached(done, rest);
    }
    sink.Flush();
    FullFromSink(sink, done);
    log := sink.log;
    ReachedAndNoMore(sessions);
    if 0 <= backoff as int < TWO_63 / 2 {
      WaitsAreClosed(backoff, sessions);
    }
  }

  // ---------- What a reader of the log sees ----------

  /** The texts logged at `level`, in order. */
  function Texts(level: Level, log: seq<Record>): seq<Bytes> {
    if log == [] then []
    else
      var last := log[|log| - 1];
      Texts(level, log[..|log| - 1]) + if last.Container? && last.level == level then [last.text] else []
  }

  lemma {:induction false} TextsOfTagged(level: Level, entries: seq<Bytes>)
    ensures Texts(level, Tagged(level, entries)) == entries
  {
    if entries != [] {
      var init := entries[..|entries| - 1];
      TextsOfTagged(level, init);
      assert Tagged(level, entries)[..|Tagged(level, entries)| - 1] == Tagged(level, init);
    }
  }

  lemma {:induction false} TextsOfInterleaving(log: seq<Record>, out: seq<Record>, err: seq<Record>,
      notices: seq<Record>)
    requires Interleaves(log, out, err, notices)
    ensures Texts(Info, log) == Texts(Info, out) && Texts(Warn, log) == Texts(Warn, err)
  {
    if log != [] {
      var r, before := log[|log| - 1], log[..|log| - 1];
      if r.Notice? {
        TextsOfInterleaving(before, out, err, notices[..|notices| - 1]);
      } else if r.level == Info {
        TextsOfInterleaving(before, out[..|out| - 1], err, notices);
      } else {
        TextsOfInterleaving(before, out, err[..|err| - 1], notices);
      }
    }
  }

  /** Restart transparency: what is logged for a container stream is what the reference splitter makes
      of its bytes strung together, however they came in frames and sessions. */
  lemma RestartTransparency(log: seq<Record>, ran: seq<Session>)
    requires FullLog(log, ran)
    ensures Texts(Info, log) == Entries(Finish(Feed(M, EMPTY, StreamBytes(ran, Stdout))).raw)
    ensures Texts(Warn, log) == Entries(Finish(Feed(M, EMPTY, StreamBytes(ran, Stderr))).raw)
  {
    var out := Entries(Finish(Feed(M, EMPTY, StreamBytes(ran, Stdout))).raw);
    var err := Entries(Finish(Feed(M, EMPTY, StreamBytes(ran, Stderr))).raw);
    hide Feed, Entries, Texts, StreamBytes, Notices, Interleaves;
    TextsOfInterleaving(log, Tagged(Info, out), Tagged(Warn, err), Notices(ran));
    TextsOfTagged(Info, out);
    TextsOfTagged(Warn, err);
  }

  /** Nothing is lost: if every session but the last was opened, came to a clean end of file and was not
      cancelled in its wait, the run logs for each stream what the reference splitter, cutting at 64 KiB,
      makes of all its bytes; every byte other than CR and LF is logged, in order, at the stream's level. */
  lemma NothingIsLost(log: seq<Record>, sessions: seq<Session>)
    requires FullLog(log, Reached(sessions))
    requires forall j :: 0 <= j < |sessions| - 1 ==>
               sessions[j].Opened? && sessions[j].end.CleanEOF? && !sessions[j].cancelledInWait
    ensures Texts(Info, log) == Entries(Finish(Feed(0x1_0000, EMPTY, StreamBytes(sessions, Stdout))).raw)
    ensures Texts(Warn, log) == Entries(Finish(Feed(0x1_0000, EMPTY, StreamBytes(sessions, Stderr))).raw)
    ensures Text(Concat(Texts(Info, log))) == Text(StreamBytes(sessions, Stdout))
    ensures Text(Concat(Texts(Warn, log))) == Text(StreamBytes(sessions, Stderr))
  {
    AllReached(sessions);
    RestartTransparency(log, sessions);
    ConservationAtEnd(M, StreamBytes(sessions, Stdout));
    ConservationAtEnd(M, StreamBytes(sessions, Stderr));
  }
}
