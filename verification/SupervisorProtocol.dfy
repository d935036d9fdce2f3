/** The supervisor's Start / Cancel / Wait / watchdog protocol as a state machine. A step is one
    mutex-held region, the closing of a channel, or the choice a waiting call makes. Channels, contexts
    and streaming goroutines of one cycle are all named by the number of the accepted Start. */
module SupervisorProtocol {
  datatype Option<T> = None | Some(value: T)

  const DEFAULT_STOP_WAIT: int := 5_000_000_000
  const DEFAULT_BACKOFF: int := 500_000_000

  /** What an accepted Start settled for its cycle. */
  datatype Cycle = Cycle(logger: Option<nat>, stopWait: int, backoff: int)

  /** What a Wait call read before it let go of the mutex. */
  datatype Snapshot = Snapshot(done: nat, stopWait: int, logger: Option<nat>)

  datatype Warning = Warning(logger: nat, deadline: int)

  datatype State = State(
    // the fields under the mutex
    logger: Option<nat>,
    logStop: Option<nat>,
    logDone: Option<nat>,
    effectiveStopWait: int,
    // the rest of the world
    cycles: seq<Cycle>,          // one per accepted Start
    closed: set<nat>,            // goroutines that have exited
    cancelled: set<nat>,         // contexts that are cancelled
    waiting: map<nat, Snapshot>, // Wait calls that have not chosen yet, by caller
    watchdogs: multiset<nat>,    // watchdogs that have not fired, by the cycle they watch
    waited: set<nat>,            // cycles some Wait call has returned for
    warnings: seq<Warning>)

  const INITIAL := State(None, None, None, 0, [], {}, {}, map[], multiset{}, {}, [])

  predicate Alive(s: State, c: nat) {
    c < |s.cycles| && c !in s.closed
  }

  predicate Running(s: State) {
    s.logDone.Some? && s.logDone.value !in s.closed
  }

  // ---------- The mutex-held regions ----------

  function Cancelled(s: State): State {
    if s.logStop.None? then s
    else s.(cancelled := s.cancelled + {s.logStop.value}, logStop := None)
  }

  /** The end of cycle `done`, unless the fields belong to another cycle by now. */
  function Cleared(s: State, done: nat): State {
    if s.logDone != Some(done) then s
    else Cancelled(s).(logDone := None, logger := None, effectiveStopWait := 0)
  }

  function OrDefault(d: int, default: int): int {
    if d == 0 then default else d
  }

  /** A new cycle, in fields at rest. */
  function Opened(s: State, logger: Option<nat>, stopWait: int, backoff: int): State {
    var wait := OrDefault(stopWait, DEFAULT_STOP_WAIT);
    s.(logger := logger, effectiveStopWait := wait,
       logStop := Some(|s.cycles|), logDone := Some(|s.cycles|),
       cycles := s.cycles + [Cycle(logger, wait, OrDefault(backoff, DEFAULT_BACKOFF))])
  }

  function Started(s: State, logger: Option<nat>, stopWait: int, backoff: int): State {
    if Running(s) then s
    else Opened(if s.logDone.Some? then Cleared(s, s.logDone.value) else s, logger, stopWait, backoff)
  }

  // ---------- Steps ----------

  datatype Step =
    | Start(logger: Option<nat>, stopWait: int, backoff: int)
    | Cancel
    | Exit(c: nat)          // a streaming goroutine closes its channel
    | WaitBegin(w: nat)     // a Wait call reads the fields; it returns at once if there is no cycle
    | WaitDrained(w: nat)   // it sees the channel closed and clears
    | WaitTimedOut(w: nat)  // it gives up, warns and leaves a watchdog
    | Watchdog(c: nat)      // a watchdog sees the channel closed and clears

  predicate Enabled(s: State, step: Step) {
    match step
    case Start(_, _, _) => true
    case Cancel => true
    case Exit(c) => Alive(s, c)
    case WaitBegin(w) => w !in s.waiting
    case WaitDrained(w) => w in s.waiting && s.waiting[w].done in s.closed
    case WaitTimedOut(w) => w in s.waiting
    case Watchdog(c) => c in s.watchdogs && c in s.closed
  }

  function Apply(s: State, step: Step): State
    requires Enabled(s, step)
  {
    match step
    case Start(logger, stopWait, backoff) => Started(s, logger, stopWait, backoff)
    case Cancel => Cancelled(s)
    case Exit(c) => s.(closed := s.closed + {c})
    case WaitBegin(w) =>
      if s.logDone.None? then s
      else s.(waiting := s.waiting[w := Snapshot(s.logDone.value, s.effectiveStopWait, s.logger)])
    case WaitDrained(w) =>
      var c := s.waiting[w].done;
      Cleared(s, c).(waiting := s.waiting - {w}, waited := s.waited + {c})
    case WaitTimedOut(w) =>
      var snap := s.waiting[w];
      s.(waiting := s.waiting - {w}, waited := s.waited + {snap.done},
         watchdogs := s.watchdogs + multiset{snap.done},
         warnings := s.warnings + if snap.logger.Some? then [Warning(snap.logger.value, snap.stopWait)] else [])
    case Watchdog(c) =>
      Cleared(s, c).(watchdogs := s.watchdogs - multiset{c})
  }

  ghost predicate Runs(s: State, steps: seq<Step>, t: State)
    decreases |steps|
  {
    if steps == [] then s == t
    else Enabled(s, steps[0]) && Runs(Apply(s, steps[0]), steps[1..], t)
  }

  ghost predicate Reachable(t: State) {
    exists steps :: Runs(INITIAL, steps, t)
  }

  // ---------- The invariant ----------

  ghost predicate Bounds(s: State) {
    && (forall c :: c in s.closed ==> c < |s.cycles|)
    && (forall c :: c in s.cancelled ==> c < |s.cycles|)
    && (forall c :: c in s.waited ==> c < |s.cycles|)
    && (forall c :: c in s.watchdogs ==> c < |s.cycles|)
    && (forall c :: 0 <= c < |s.cycles| ==> s.cycles[c].stopWait != 0)
  }

  /** The four fields belong to the latest cycle, or are all at rest. */
  ghost predicate FieldsAgree(s: State) {
    match s.logDone
    case None => s.logStop == None && s.logger == None && s.effectiveStopWait == 0
    case Some(c) =>
      && c + 1 == |s.cycles|
      && s.logger == s.cycles[c].logger && s.effectiveStopWait == s.cycles[c].stopWait
      && s.logStop == (if c in s.cancelled then None else Some(c))
  }

  /** A cycle the fields no longer name is over: its goroutine has exited, its context is cancelled. */
  ghost predicate PastIsOver(s: State) {
    forall c :: 0 <= c < |s.cycles| && s.logDone != Some(c) ==> c in s.closed && c in s.cancelled
  }

  /** The warning went to the cycle's logger and names the cycle's deadline. */
  predicate WarnedBy(c: Cycle, w: Warning) {
    c.logger == Some(w.logger) && c.stopWait == w.deadline
  }

  /** Wait calls act on what Start settled for the cycle they joined. */
  ghost predicate WaitsAreFaithful(s: State) {
    && (forall w :: w in s.waiting ==>
          var snap := s.waiting[w];
          && snap.done < |s.cycles|
          && snap.stopWait == s.cycles[snap.done].stopWait && snap.logger == s.cycles[snap.done].logger)
    && (forall i :: 0 <= i < |s.warnings| ==>
          exists c :: 0 <= c < |s.cycles| && WarnedBy(s.cycles[c], s.warnings[i]))
  }

  /** Once a Wait call has returned for a cycle, either the fields are free of it or a watchdog is on it. */
  ghost predicate NothingForgotten(s: State) {
    forall c :: c in s.waited && s.logDone == Some(c) ==> c in s.watchdogs
  }

  ghost predicate Inv(s: State) {
    Bounds(s) && FieldsAgree(s) && PastIsOver(s) && WaitsAreFaithful(s) && NothingForgotten(s)
  }

  lemma ClearedKeeps(s: State, c: nat)
    requires Inv(s) && c in s.closed
    ensures var t := Cleared(s, c);
            Inv(t) && t.logDone != Some(c) && t.cycles == s.cycles
  {}

  lemma StartedKeeps(s: State, logger: Option<nat>, stopWait: int, backoff: int)
    requires Inv(s)
    ensures Inv(Started(s, logger, stopWait, backoff))
  {
    var idle := if s.logDone.Some? then Cleared(s, s.logDone.value) else s;
    if !Running(s) {
      var t := Started(s, logger, stopWait, backoff);
      if s.logDone.Some? { ClearedKeeps(s, s.logDone.value); }
      assert forall c :: 0 <= c < |s.cycles| ==> t.cycles[c] == s.cycles[c];
      forall i | 0 <= i < |t.warnings|
        ensures exists c :: 0 <= c < |t.cycles| && WarnedBy(t.cycles[c], t.warnings[i])
      {
        var c :| 0 <= c < |s.cycles| && WarnedBy(s.cycles[c], s.warnings[i]);
        assert t.cycles[c] == s.cycles[c];
      }
    }
  }

  lemma TimedOutKeeps(s: State, w: nat)
    requires Inv(s) && Enabled(s, WaitTimedOut(w))
    ensures Inv(Apply(s, WaitTimedOut(w)))
  {
    var t := Apply(s, WaitTimedOut(w));
    var snap := s.waiting[w];
    forall i | 0 <= i < |t.warnings|
      ensures exists c :: 0 <= c < |t.cycles| && WarnedBy(t.cycles[c], t.warnings[i])
    {
      if i == |s.warnings| {
        assert WarnedBy(t.cycles[snap.done], t.warnings[i]);
      } else {
        assert t.warnings[i] == s.warnings[i];
      }
    }
  }

  lemma DrainedKeeps(s: State, w: nat)
    requires Inv(s) && Enabled(s, WaitDrained(w))
    ensures Inv(Apply(s, WaitDrained(w)))
  {
    ClearedKeeps(s, s.waiting[w].done);
  }

  lemma WatchdogKeeps(s: State, c: nat)
    requires Inv(s) && Enabled(s, Watchdog(c))
    ensures Inv(Apply(s, Watchdog(c)))
  {
    ClearedKeeps(s, c);
  }

  lemma OtherStepsKeep(s: State, step: Step)
    requires Inv(s) && Enabled(s, step) && (step.Cancel? || step.Exit? || step.WaitBegin?)
    ensures Inv(Apply(s, step))
  {}

  /** Every step keeps the invariant. */
  lemma StepKeeps(s: State, step: Step)
    requires Inv(s) && Enabled(s, step)
    ensures Inv(Apply(s, step))
  {
    hide Inv, Apply;
    match step
    case Start(logger, stopWait, backoff) => StartKeeps(s, step);
    case WaitDrained(w) => DrainedKeeps(s, w);
    case WaitTimedOut(w) => TimedOutKeeps(s, w);
    case Watchdog(c) => WatchdogKeeps(s, c);
    case _ => OtherStepsKeep(s, step);
  }

  lemma StartKeeps(s: State, step: Step)
    requires Inv(s) && step.Start?
    ensures Inv(Apply(s, step))
  {
    StartedKeeps(s, step.logger, step.stopWait, step.backoff);
  }

  lemma {:induction false} RunKeeps(s: State, steps: seq<Step>, t: State)
    requires Inv(s) && Runs(s, steps, t)
    ensures Inv(t)
    decreases |steps|
  {
    if steps != [] {
      StepKeeps(s, steps[0]);
      RunKeeps(Apply(s, steps[0]), steps[1..], t);
    }
  }

  lemma ReachableInv(s: State)
    requires Reachable(s)
    ensures Inv(s)
  {
    var steps :| Runs(INITIAL, steps, s);
    RunKeeps(INITIAL, steps, s);
  }

  // ---------- Main results, over every interleaving ----------

  /** At most one streaming goroutine is alive, and it is the one the fields name; Running() tells
      exactly whether there is one; Start does nothing exactly when there is one. */
  lemma SingleStreamer(s: State, logger: Option<nat>, stopWait: int, backoff: int)
    requires Reachable(s)
    ensures forall c: nat, d: nat :: Alive(s, c) && Alive(s, d) ==> c == d
    ensures forall c: nat :: Alive(s, c) ==> s.logDone == Some(c)
    ensures Running(s) <==> exists c: nat :: Alive(s, c)
    ensures Apply(s, Start(logger, stopWait, backoff)) == s <==> exists c: nat :: Alive(s, c)
  {
    ReachableInv(s);
    if Running(s) {
      assert Alive(s, s.logDone.value);
    } else {
      assert |Started(s, logger, stopWait, backoff).cycles| == |s.cycles| + 1;
    }
  }

  /** No context outlives its cycle: every cycle that is not current has exited and is cancelled, and
      the current one has a cancel function left exactly while its context is not cancelled. The four
      fields are reset together. */
  lemma NoLeakedContext(s: State, c: nat)
    requires Reachable(s) && c < |s.cycles|
    ensures s.logDone != Some(c) ==> c in s.closed && c in s.cancelled
    ensures s.logDone == Some(c) ==> (s.logStop == None <==> c in s.cancelled)
    ensures s.logStop.Some? ==> s.logStop == s.logDone
    ensures s.logDone == None <==> s.effectiveStopWait == 0
    ensures s.logDone == None ==> s.logStop == None && s.logger == None
  {
    ReachableInv(s);
  }

  /** Cancel cancels: the current cycle's context is cancelled and its cancel function used up, and
      nothing else changes; with no current cycle nothing changes at all. */
  lemma CancelCancels(s: State)
    requires Reachable(s)
    ensures Enabled(s, Cancel)
    ensures var t := Apply(s, Cancel);
            && (s.logDone.Some? ==>
                  && s.logDone.value in t.cancelled && t.logStop == None
                  && t.cancelled == s.cancelled + {s.logDone.value}
                  && t.logDone == s.logDone && t.logger == s.logger && t.effectiveStopWait == s.effectiveStopWait
                  && t.cycles == s.cycles && t.closed == s.closed && t.waiting == s.waiting
                  && t.watchdogs == s.watchdogs && t.warnings == s.warnings)
            && (s.logDone == None ==> t == s)
  {
    ReachableInv(s);
  }

  /** Start opens a cycle unless one is alive: its number, logger and deadline are in the fields, its
      context is fresh and live, its goroutine alive, and what it was started with is settled, with five
      seconds and half a second for 0. */
  lemma StartOpens(s: State, logger: Option<nat>, stopWait: int, backoff: int)
    requires Reachable(s)
    ensures Enabled(s, Start(logger, stopWait, backoff))
    ensures var t, c := Apply(s, Start(logger, stopWait, backoff)), |s.cycles|;
            if exists d: nat :: Alive(s, d) then t == s
            else
              && t.logDone == Some(c) && t.logStop == Some(c) && t.logger == logger
              && t.effectiveStopWait == (if stopWait == 0 then 5_000_000_000 else stopWait)
              && |t.cycles| == c + 1 && t.cycles[..c] == s.cycles
              && t.cycles[c].logger == logger && t.cycles[c].stopWait == t.effectiveStopWait
              && t.cycles[c].backoff == (if backoff == 0 then 500_000_000 else backoff)
              && Alive(t, c) && c !in t.cancelled
  {
    ReachableInv(s);
    SingleStreamer(s, logger, stopWait, backoff);
    hide Reachable;
    if Running(s) {
      assert Alive(s, s.logDone.value);
    }
  }

  /** A Wait call joins the current cycle and takes its deadline and logger along; without a cycle it
      returns at once. */
  lemma WaitJoins(s: State, w: nat)
    requires Reachable(s) && w !in s.waiting
    ensures Enabled(s, WaitBegin(w)) && (s.logDone.Some? ==> s.logDone.value < |s.cycles|)
    ensures var t := Apply(s, WaitBegin(w));
            && (s.logDone.Some? ==>
                  && w in t.waiting && t.waiting[w].done == s.logDone.value
                  && t.waiting[w].stopWait == s.cycles[s.logDone.value].stopWait
                  && t.waiting[w].logger == s.cycles[s.logDone.value].logger
                  && t == s.(waiting := s.waiting[w := t.waiting[w]]))
            && (s.logDone == None ==> t == s)
  {
    ReachableInv(s);
  }

  /** A Wait call that times out warns once, unless its cycle has no logger, leaves a watchdog on the
      cycle it joined, and touches none of the four fields. It may do so at any time. */
  lemma TimeoutWarns(s: State, w: nat)
    requires Reachable(s) && w in s.waiting
    ensures Enabled(s, WaitTimedOut(w))
    ensures var t, snap := Apply(s, WaitTimedOut(w)), s.waiting[w];
            && (snap.logger.Some? ==> t.warnings == s.warnings + [Warning(snap.logger.value, snap.stopWait)])
            && (snap.logger.None? ==> t.warnings == s.warnings)
            && t.watchdogs == s.watchdogs + multiset{snap.done} && w !in t.waiting
            && t.logDone == s.logDone && t.logStop == s.logStop && t.logger == s.logger
            && t.effectiveStopWait == s.effectiveStopWait && t.cancelled == s.cancelled && t.closed == s.closed
  {}

  /** A Wait call whose cycle's goroutine has exited returns, and a watchdog fires, whenever it likes;
      after either, the fields are free of that cycle. A live goroutine may exit at any time. */
  lemma ExitIsNoticed(s: State, w: nat, c: nat)
    requires Reachable(s)
    ensures Alive(s, c) ==> Enabled(s, Exit(c)) && Apply(s, Exit(c)) == s.(closed := s.closed + {c})
    ensures w in s.waiting && s.waiting[w].done in s.closed ==>
              Enabled(s, WaitDrained(w)) && Apply(s, WaitDrained(w)).logDone != Some(s.waiting[w].done)
              && w !in Apply(s, WaitDrained(w)).waiting
    ensures c in s.watchdogs && c in s.closed ==>
              Enabled(s, Watchdog(c)) && Apply(s, Watchdog(c)).logDone != Some(c)
              && Apply(s, Watchdog(c)).watchdogs[c] == s.watchdogs[c] - 1
  {}

  /** Wait honours the deadline and logger that Start settled, whatever the fields hold by then. */
  lemma WaitHonoursItsCycle(s: State, w: nat)
    requires Reachable(s) && w in s.waiting
    ensures var snap := s.waiting[w];
            && snap.done < |s.cycles|
            && snap.stopWait == s.cycles[snap.done].stopWait && snap.logger == s.cycles[snap.done].logger
  {
    ReachableInv(s);
  }

  /** Every warning went to the logger of one cycle and names that cycle's deadline. */
  lemma WarningsHonourTheirCycle(s: State, i: nat) returns (c: nat)
    requires Reachable(s) && i < |s.warnings|
    ensures c < |s.cycles|
    ensures s.cycles[c].logger == Some(s.warnings[i].logger) && s.cycles[c].stopWait == s.warnings[i].deadline
  {
    ReachableInv(s);
    assert WaitsAreFaithful(s);
    hide Inv;
    assert exists d :: 0 <= d < |s.cycles| && WarnedBy(s.cycles[d], s.warnings[i]);
    c :| 0 <= c < |s.cycles| && WarnedBy(s.cycles[c], s.warnings[i]);
  }

  predicate Cancels(steps: seq<Step>) {
    Cancel in steps
  }

  lemma CyclesGrow(s: State, step: Step)
    requires Enabled(s, step)
    ensures s.cycles <= Apply(s, step).cycles
  {}

  lemma {:induction false} CyclesOnlyGrow(s: State, steps: seq<Step>, t: State)
    requires Runs(s, steps, t)
    ensures s.cycles <= t.cycles
    decreases |steps|
  {
    hide Enabled, Apply;
    if steps != [] {
      CyclesGrow(s, steps[0]);
      CyclesOnlyGrow(Apply(s, steps[0]), steps[1..], t);
    }
  }

  lemma GoneStaysGone(s: State, step: Step, c: nat)
    requires Inv(s) && Enabled(s, step) && c < |s.cycles| && s.logDone != Some(c)
    ensures c < |Apply(s, step).cycles| && Apply(s, step).logDone != Some(c)
  {}

  lemma {:induction false} GoneForGood(s: State, steps: seq<Step>, t: State, c: nat)
    requires Inv(s) && Runs(s, steps, t) && c < |s.cycles| && s.logDone != Some(c)
    ensures t.logDone != Some(c)
    decreases |steps|
  {
    hide Inv, Apply;
    if steps != [] {
      StepKeeps(s, steps[0]);
      GoneStaysGone(s, steps[0], c);
      GoneForGood(Apply(s, steps[0]), steps[1..], t, c);
    }
  }

  /** This step ends cycle `c`: a Start that retires it, a Wait call that had joined it, its watchdog. */
  predicate Ends(s: State, step: Step, c: nat)
    requires Enabled(s, step)
  {
    step.Start? || (step.WaitDrained? && s.waiting[step.w].done == c) || step == Watchdog(c)
  }

  /** Exactly what takes a current cycle out of the fields: one of the steps that end it, once its
      goroutine has exited. No Wait call and no watchdog of another cycle ever does. */
  lemma ClearedExactlyBy(s: State, step: Step, c: nat)
    requires Reachable(s) && Enabled(s, step) && s.logDone == Some(c)
    ensures Apply(s, step).logDone != Some(c) <==> c in s.closed && Ends(s, step, c)
  {
    ReachableInv(s);
  }

  /** While a cycle stays current, only Cancel touches its fields, and only its cancel function. */
  lemma StaysCurrent(s: State, step: Step, c: nat)
    requires Inv(s) && Enabled(s, step) && s.logDone == Some(c) && Apply(s, step).logDone == Some(c)
    ensures var t := Apply(s, step);
            && t.logger == s.logger && t.effectiveStopWait == s.effectiveStopWait
            && (step != Cancel ==> t.logStop == s.logStop)
  {}

  lemma {:induction false} FieldsHeld(s: State, steps: seq<Step>, t: State, c: nat)
    requires Inv(s) && Runs(s, steps, t) && s.logDone == Some(c) && t.logDone == Some(c)
    ensures t.logger == s.logger && t.effectiveStopWait == s.effectiveStopWait
    ensures !Cancels(steps) ==> t.logStop == s.logStop
    decreases |steps|
  {
    if steps != [] {
      var s1 := Apply(s, steps[0]);
      assert c < |s.cycles|;
      CyclesGrow(s, steps[0]);
      StepKeeps(s, steps[0]);
      hide Inv, Apply, Enabled;
      if s1.logDone != Some(c) {
        GoneForGood(s1, steps[1..], t, c);
      } else {
        StaysCurrent(s, steps[0], c);
        FieldsHeld(s1, steps[1..], t, c);
      }
    }
  }

  /** No stale clear: between any two moments at which a cycle is current, whether or not its goroutine
      still lives, nobody changes its fields, in particular no Wait or watchdog of an older cycle; only
      Cancel uses up its cancel function. */
  lemma NoStaleClear(s: State, steps: seq<Step>, t: State, c: nat)
    requires Reachable(s) && Runs(s, steps, t) && s.logDone == Some(c) && t.logDone == Some(c)
    ensures t.logger == s.logger && t.effectiveStopWait == s.effectiveStopWait
    ensures !Cancels(steps) ==> t.logStop == s.logStop
  {
    ReachableInv(s);
    FieldsHeld(s, steps, t, c);
  }

  /** So as long as its goroutine has not exited a cycle is current and keeps its fields. */
  lemma AliveKeepsFields(s: State, steps: seq<Step>, t: State, c: nat)
    requires Reachable(s) && Runs(s, steps, t) && s.logDone == Some(c) && c !in t.closed
    ensures t.logDone == Some(c) && t.logger == s.logger && t.effectiveStopWait == s.effectiveStopWait
    ensures !Cancels(steps) ==> t.logStop == s.logStop
  {
    ReachableInv(s);
    RunKeeps(s, steps, t);
    CyclesOnlyGrow(s, steps, t);
    assert c < |s.cycles| && PastIsOver(t);
    FieldsHeld(s, steps, t, c);
  }

  /** The supervisor is reusable after a Wait that timed out: once the goroutine has exited, a watchdog
      is enabled that takes the cycle out of the fields, and no later step brings it back. */
  lemma ReusableAfterTimeout(s: State, c: nat, steps: seq<Step>, t: State)
    requires Reachable(s) && c in s.waited && s.logDone == Some(c) && c in s.closed
    ensures Enabled(s, Watchdog(c))
    ensures var u := Apply(s, Watchdog(c));
            && u.logDone == u.logStop == u.logger == None && u.effectiveStopWait == 0
            && (Runs(u, steps, t) ==> t.logDone != Some(c))
  {
    ReachableInv(s);
    StepKeeps(s, Watchdog(c));
    var u := Apply(s, Watchdog(c));
    if Runs(u, steps, t) {
      GoneForGood(u, steps, t, c);
    }
  }
}
