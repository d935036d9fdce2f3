/** The supervisor as an object: its four fields, and each mutex-held region as a method that does to
    them, and to the channels and contexts it touches, what one step of the protocol says. */
module Supervisor {
  import opened SupervisorProtocol

  class Supervisor {
    var logger: Option<nat>
    var logStop: Option<nat>
    var logDone: Option<nat>
    var effectiveStopWait: int

    // channels, contexts, goroutines and calls, which outlive the fields
    var cycles: seq<Cycle>
    var closed: set<nat>
    var cancelled: set<nat>
    var waiting: map<nat, Snapshot>
    var watchdogs: multiset<nat>
    ghost var waited: set<nat>
    var warnings: seq<Warning>

    ghost function Now(): State
      reads this
    {
      State(logger, logStop, logDone, effectiveStopWait, cycles, closed, cancelled, waiting, watchdogs, waited,
          warnings)
    }

    constructor ()
      ensures Now() == INITIAL
    {
      logger, logStop, logDone, effectiveStopWait := None, None, None, 0;
      cycles, closed, cancelled, waiting, watchdogs, waited, warnings := [], {}, {}, map[], multiset{}, {}, [];
    }

    method IsRunning() returns (r: bool)
      ensures r <==> Running(Now())
      ensures r <==> logDone.Some? && logDone.value !in closed
    {
      if logDone.None? { return false; }
      return logDone.value !in closed;
    }

    /** Calls a cancel function; calling it again changes nothing. */
    method Stop(context: nat)
      modifies this`cancelled
      ensures cancelled == old(cancelled) + {context}
    {
      cancelled := cancelled + {context};
    }

    /** What Start does first with a cycle that is over but was never cleared. */
    method Retire()
      requires logDone.Some?
      modifies this
      ensures Now() == Cleared(old(Now()), old(logDone.value))
    {
      if logStop.Some? { Stop(logStop.value); }
      logStop := None;
      logDone := None;
      logger := None;
      effectiveStopWait := 0;
    }

    method Start(l: Option<nat>, stopWait: int, backoff: int)
      modifies this
      ensures Now() == Apply(old(Now()), Step.Start(l, stopWait, backoff))
      ensures old(logDone.Some? && logDone.value !in closed) ==> unchanged(this)
      ensures !old(logDone.Some? && logDone.value !in closed) ==>
                && logDone == Some(old(|cycles|)) && logStop == logDone && logger == l
                && effectiveStopWait == (if stopWait == 0 then 5_000_000_000 else stopWait)
    {
      if logDone.Some? {
        if logDone.value !in closed { return; }
        Retire();
      }
      Launch(l, stopWait, backoff);
    }

    /** Settles the tunables and opens a new cycle. */
    method Launch(l: Option<nat>, stopWait: int, backoff: int)
      modifies this
      ensures Now() == Opened(old(Now()), l, stopWait, backoff)
    {
      var wait := stopWait;
      if wait == 0 { wait := DEFAULT_STOP_WAIT; }
      var pause := backoff;
      if pause == 0 { pause := DEFAULT_BACKOFF; }
      logger := l;
      effectiveStopWait := wait;
      logStop := Some(|cycles|);
      logDone := Some(|cycles|);
      cycles := cycles + [Cycle(l, wait, pause)];
    }

    method Cancel()
      modifies this
      ensures Now() == Apply(old(Now()), Step.Cancel)
      ensures logStop == None && logDone == old(logDone) && logger == old(logger)
      ensures effectiveStopWait == old(effectiveStopWait)
      ensures cancelled == old(cancelled) + if old(logStop).Some? then {old(logStop).value} else {}
    {
      if logStop.Some? {
        Stop(logStop.value);
        logStop := None;
      }
    }

    /** The streaming goroutine of cycle `c` returns and closes its channel. */
    method Exit(c: nat)
      requires Alive(Now(), c)
      modifies this
      ensures Now() == Apply(old(Now()), Step.Exit(c))
    {
      closed := closed + {c};
    }

    method ClearCycleState(done: nat)
      modifies this
      ensures Now() == Cleared(old(Now()), done)
      ensures old(logDone) != Some(done) ==> unchanged(this)
      ensures old(logDone) == Some(done) ==>
                logDone == None && logStop == None && logger == None && effectiveStopWait == 0
      ensures old(logDone) == Some(done) ==>
                cancelled == old(cancelled) + if old(logStop).Some? then {old(logStop).value} else {}
    {
      if logDone != Some(done) { return; }
      if logStop.Some? {
        Stop(logStop.value);
        logStop := None;
      }
      logDone := None;
      logger := None;
      effectiveStopWait := 0;
    }

    /** First part of Wait: read the fields and let go of the mutex. */
    method WaitBegin(w: nat)
      requires w !in waiting
      modifies this
      ensures Now() == Apply(old(Now()), Step.WaitBegin(w))
      ensures waiting == if old(logDone).None? then old(waiting)
                         else old(waiting)[w := Snapshot(old(logDone).value, old(effectiveStopWait), old(logger))]
    {
      var done, wait, l := logDone, effectiveStopWait, logger;
      if done.None? { return; }
      waiting := waiting[w := Snapshot(done.value, wait, l)];
    }

    /** Second part of Wait, if the channel is closed in time. */
    method WaitDrained(w: nat)
      requires w in waiting && waiting[w].done in closed
      modifies this
      ensures Now() == Apply(old(Now()), Step.WaitDrained(w))
    {
      var done := waiting[w].done;
      waiting := waiting - {w};
      waited := waited + {done};
      ClearCycleState(done);
    }

    /** Second part of Wait, if it is not. */
    method WaitTimedOut(w: nat)
      requires w in waiting
      modifies this
      ensures Now() == Apply(old(Now()), Step.WaitTimedOut(w))
      ensures var snap := old(waiting[w]);
              && watchdogs == old(watchdogs) + multiset{snap.done}
              && warnings == old(warnings)
                             + if snap.logger.Some? then [Warning(snap.logger.value, snap.stopWait)] else []
    {
      var snap := waiting[w];
      waiting := waiting - {w};
      waited := waited + {snap.done};
      if snap.logger.Some? {
        warnings := warnings + [Warning(snap.logger.value, snap.stopWait)];
      }
      watchdogs := watchdogs + multiset{snap.done};
    }

    method WatchdogFires(c: nat)
      requires c in watchdogs && c in closed
      modifies this
      ensures Now() == Apply(old(Now()), Step.Watchdog(c))
    {
      ghost var cleared := Cleared(Now(), c);
      ClearCycleState(c);
      assert Now() == cleared;
      watchdogs := watchdogs - multiset{c};
    }
  }
}
