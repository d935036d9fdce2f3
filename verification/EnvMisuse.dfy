/** What happens to an environment whose users break the calling discipline: exactly when a Stop call
    by somebody else can make a service's return from Start panic. */
module EnvMisuse {
  import opened EnvProtocol
  import opened EnvTrace
  import opened EnvInvariant
  import opened EnvSteps
  import opened EnvResults
  import opened EnvProgress

  predicate CallerStep(step: Step) {
    step.CallEnvStart? || step.CallEnvStop?
  }

  predicate NoCalls(steps: seq<Step>) {
    forall i :: 0 <= i < |steps| ==> !CallerStep(steps[i])
  }

  /** Some continuation without further callers ends in a panic. */
  ghost predicate CanCrash(c: Config, m: Machine) {
    exists steps, n :: NoCalls(steps) && Undisciplined(c, m, steps, n) && n.crashed
  }

  // ---------- Continuations ----------

  lemma Prepend(c: Config, m: Machine, step: Step)
    requires Enabled(c, m, step) && !CallerStep(step) && CanCrash(c, Apply(c, m, step))
    ensures CanCrash(c, m)
  {
    hide Enabled, Apply;
    var rest, n :| NoCalls(rest) && Undisciplined(c, Apply(c, m, step), rest, n) && n.crashed;
    var steps := [step] + rest;
    assert steps[0] == step && steps[1..] == rest;
    assert Undisciplined(c, m, steps, n);
  }

  lemma CrashedNow(c: Config, m: Machine)
    requires m.crashed
    ensures CanCrash(c, m)
  {
    assert NoCalls([]) && Undisciplined(c, m, [], m);
  }

  // ---------- A teardown runs to its end under a service in its Start ----------

  /** The copy a teardown works on holds services that have come up, in their own stages. */
  ghost predicate CopyOk(c: Config, copy: seq<seq<seq<Pos>>>, st: Statuses) {
    forall t, j, k :: 0 <= t < |copy| && 0 <= j < |copy[t]| && 0 <= k < |copy[t][j]| ==>
      var q := copy[t][j][k];
      q.track == t && q.stage == j && IsService(c, q) && HasCome(Stat(st, q))
  }

  ghost predicate Dismantling(c: Config, m: Machine) {
    match m.stopper
    case NoStop => false
    case Tearing(copy, left) =>
      |left| == |copy| && (forall t :: 0 <= t < |left| ==> left[t] <= |copy[t]|) && CopyOk(c, copy, m.status)
    case HookingDown(i, _) => i <= c.hooks
  }

  /** Steps the teardown still has to take, at most. */
  function TearWork(c: Config, m: Machine): int {
    Sum(Services(c, |c.tracks|), m.status) + StopperWork(c, m.stopper)
  }

  /** The next step of a teardown. */
  lemma TearStep(c: Config, m: Machine) returns (step: Step)
    requires m.stopper.Tearing? && Dismantling(c, m)
    ensures !CallerStep(step) && Enabled(c, m, step)
    ensures step.PrevStage? || step.JoinStops? || ((step.CallStop? || step.StopReturns?) && IsService(c, step.p))
  {
    var copy, left := m.stopper.copy, m.stopper.left;
    if t: nat :| t < |left| && left[t] > 0 {
      var stage := copy[t][left[t] - 1];
      if k: nat :| k < |stage| && !Stat(m.status, stage[k]).Down? {
        step := if Stat(m.status, stage[k]).Up? then CallStop(stage[k]) else StopReturns(stage[k], true);
      } else {
        step := PrevStage(t);
      }
    } else {
      step := JoinStops;
    }
  }

  lemma StopMoves(c: Config, m: Machine, step: Step, p: Pos)
    requires m.stopper.Tearing? && Dismantling(c, m) && Stat(m.status, p).InStart?
    requires Enabled(c, m, step) && (step.CallStop? || step.StopReturns?) && IsService(c, step.p)
    ensures var n := Apply(c, m, step);
            Dismantling(c, n) && Stat(n.status, p).InStart? && 0 <= TearWork(c, n) < TearWork(c, m)
  {
    var n := Apply(c, m, step);
    ServiceStepDrops(c, m, step.p, Stat(n.status, step.p));
    assert n.status == m.status[step.p := Stat(n.status, step.p)];
    hide Sum, Services, LeftWork;
  }

  lemma StageMoves(c: Config, m: Machine, step: Step, p: Pos)
    requires m.stopper.Tearing? && Dismantling(c, m) && Stat(m.status, p).InStart?
    requires Enabled(c, m, step) && (step.PrevStage? || step.JoinStops?)
    ensures var n := Apply(c, m, step);
            Dismantling(c, n) && Stat(n.status, p).InStart? && 0 <= TearWork(c, n) < TearWork(c, m)
  {
    if step.PrevStage? {
      LeftWorkDrops(m.stopper.left, step.t);
    }
    hide Sum, Services, CopyOk;
  }

  /** The last step, and what it does to a service that is still in its Start. */
  lemma ReturnCrashes(c: Config, m: Machine, p: Pos)
    requires m.stopper.HookingDown? && m.stopper.i == c.hooks && Stat(m.status, p).InStart?
    ensures CanCrash(c, m)
  {
    var idle := Apply(c, m, FinishStop);
    assert Enabled(c, idle, StartSucceeds(p, map[])) && Apply(c, idle, StartSucceeds(p, map[])).crashed;
    CrashedNow(c, Apply(c, idle, StartSucceeds(p, map[])));
    hide CanCrash;
    Prepend(c, idle, StartSucceeds(p, map[]));
    Prepend(c, m, FinishStop);
  }

  /** A teardown ends while a service is in its Start, and the service's return then panics. */
  lemma {:induction false} TeardownCrashes(c: Config, m: Machine, p: Pos)
    requires Dismantling(c, m) && Stat(m.status, p).InStart?
    ensures CanCrash(c, m)
    decreases TearWork(c, m)
  {
    hide CanCrash;
    if m.stopper.HookingDown? {
      if m.stopper.i == c.hooks {
        ReturnCrashes(c, m, p);
      } else {
        TeardownCrashes(c, Apply(c, m, StopHook(true)), p);
        Prepend(c, m, StopHook(true));
      }
    } else {
      var step := TearStep(c, m);
      if step.CallStop? || step.StopReturns? {
        StopMoves(c, m, step, p);
      } else {
        StageMoves(c, m, step, p);
      }
      hide Enabled, Apply, Dismantling, TearWork;
      TeardownCrashes(c, Apply(c, m, step), p);
      Prepend(c, m, step);
    }
  }

  // ---------- Services that can still be called ----------

  ghost predicate NoneFailedAt(c: Config, st: Statuses, t: nat, j: nat) {
    forall q :: IsService(c, q) && q.track == t && q.stage == j ==> !Stat(st, q).Failed?
  }

  /** The service's Start can still be called: its stage is up next, or no failure stands between. */
  ghost predicate Callable(c: Config, m: Machine, p: Pos) {
    && IsService(c, p) && TrackActive(c, m, p.track) && Stat(m.status, p).Fresh?
    && var stage := m.tracks[p.track].stage;
       p.stage == stage || (p.stage > stage && NoneFailedAt(c, m.status, p.track, stage))
  }

  /** A service is in its Start or can still be called. */
  ghost predicate Exposed(c: Config, m: Machine) {
    exists p: Pos :: Stat(m.status, p).InStart? || Callable(c, m, p)
  }

  ghost predicate LaterFresh(c: Config, m: Machine, t: nat)
    requires t < |m.tracks|
  {
    forall q :: IsService(c, q) && q.track == t && q.stage > m.tracks[t].stage ==> Stat(m.status, q).Fresh?
  }

  lemma CallCrashes(c: Config, m: Machine, p: Pos)
    requires Dismantling(c, m) && Enabled(c, m, CallStart(p))
    ensures CanCrash(c, m)
  {
    hide CanCrash;
    var n := Apply(c, m, CallStart(p));
    TeardownCrashes(c, n, p);
    Prepend(c, m, CallStart(p));
  }

  /** The track goes on under the teardown until a service is called. */
  lemma {:induction false} CallableCrashes(c: Config, m: Machine, p: Pos)
    requires Dismantling(c, m) && Callable(c, m, p) && LaterFresh(c, m, p.track)
    ensures CanCrash(c, m)
    decreases p.stage - m.tracks[p.track].stage
  {
    hide CanCrash;
    var t := p.track;
    var stage := m.tracks[t].stage;
    if q :| IsService(c, q) && q.track == t && q.stage == stage && Stat(m.status, q).InStart? {
      TeardownCrashes(c, m, q);
    } else if q :| IsService(c, q) && q.track == t && q.stage == stage && Stat(m.status, q).Fresh? {
      CallCrashes(c, m, q);
    } else {
      assert Enabled(c, m, NextStage(t));
      CallableCrashes(c, Apply(c, m, NextStage(t)), p);
      Prepend(c, m, NextStage(t));
    }
  }

  // ---------- Without such a service nothing can go wrong ----------

  /** No step but a caller's exposes a service, and only the return of an exposed one can panic. */
  lemma QuietStays(c: Config, m: Machine, step: Step)
    requires !Exposed(c, m) && Enabled(c, m, step) && !CallerStep(step)
    ensures !Exposed(c, Apply(c, m, step)) && Apply(c, m, step).crashed == m.crashed
  {
    var n := Apply(c, m, step);
    if step.CallStart? {
      assert Callable(c, m, step.p);
    }
    forall p: Pos ensures !Stat(n.status, p).InStart? && !Callable(c, n, p) {
      assert !Stat(m.status, p).InStart? && !Callable(c, m, p);
    }
  }

  lemma {:induction false} QuietRun(c: Config, m: Machine, steps: seq<Step>, n: Machine)
    requires !Exposed(c, m) && NoCalls(steps) && Undisciplined(c, m, steps, n)
    ensures n.crashed == m.crashed
    decreases |steps|
  {
    hide Exposed, Enabled, Apply;
    if steps != [] {
      QuietStays(c, m, steps[0]);
      assert NoCalls(steps[1..]);
      QuietRun(c, Apply(c, m, steps[0]), steps[1..], n);
    }
  }

  // ---------- The exact condition ----------

  lemma TeardownBegins(c: Config, m: Machine)
    requires Inv(c, m) && CanStop(m.f)
    ensures Enabled(c, m, CallEnvStop) && !Apply(c, m, CallEnvStop).crashed && Dismantling(c, Apply(c, m, CallEnvStop))
    ensures Apply(c, m, CallEnvStop) == BeginTeardown(m)
  {
    assert CubeExact(c, m.f.started, m.status) && OnlyServices(c, m.status);
  }

  lemma SameExposure(c: Config, m: Machine)
    ensures Exposed(c, m) <==> Exposed(c, BeginTeardown(m))
  {
    var n := BeginTeardown(m);
    assert forall p: Pos :: Callable(c, m, p) <==> Callable(c, n, p);
  }

  /** A Stop call that gets past beginStop can make the environment panic later on, without anybody
      calling again, exactly if a service is in its Start or can still be called; and it can only be so
      if the call breaks the discipline. */
  lemma StopCrashesExactly(c: Config, m: Machine)
    requires Reachable(c, m) && CanStop(m.f)
    ensures Enabled(c, m, CallEnvStop)
    ensures CanCrash(c, Apply(c, m, CallEnvStop)) <==> Exposed(c, m)
    ensures Exposed(c, m) ==> !Disciplined(m, CallEnvStop)
  {
    ReachableInv(c, m);
    TeardownBegins(c, m);
    SameExposure(c, m);
    var n := BeginTeardown(m);
    if Exposed(c, m) {
      ExposedCrashes(c, m);
    } else {
      hide Inv, Exposed, Reachable;
      if CanCrash(c, n) {
        var steps, last :| NoCalls(steps) && Undisciplined(c, n, steps, last) && last.crashed;
        QuietRun(c, n, steps, last);
      }
    }
  }

  lemma ExposedCrashes(c: Config, m: Machine)
    requires Inv(c, m) && CanStop(m.f) && Exposed(c, m) && Dismantling(c, BeginTeardown(m))
    ensures CanCrash(c, BeginTeardown(m)) && m.starter.Bringing?
  {
    var n := BeginTeardown(m);
    var p: Pos :| Stat(m.status, p).InStart? || Callable(c, m, p);
    if Stat(m.status, p).InStart? {
      InStartWhere(c, m.tracks, m.status, p);
      TeardownCrashes(c, n, p);
    } else {
      assert Staged(c, m.tracks, m.status);
      assert Callable(c, n, p) && LaterFresh(c, n, p.track);
      CallableCrashes(c, n, p);
    }
  }
}
