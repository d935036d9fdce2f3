/** When Start and Stop run the lifecycle hooks, read off the trace of a run. */
module EnvHooks {
  import opened EnvProtocol
  import opened EnvTrace
  import opened EnvInvariant
  import opened EnvSteps
  import opened EnvResults

  /** The AfterStart calls, by hook, with their results. */
  function Ups(t: Trace): seq<(nat, bool)> {
    if t == [] then []
    else if Last(t).HookUp? then Ups(EnvTrace.Init(t)) + [(Last(t).i, Last(t).ok)]
    else Ups(EnvTrace.Init(t))
  }

  /** The first n hooks, once each, in order, all successful. */
  function FirstOk(n: nat): (q: seq<(nat, bool)>)
    ensures |q| == n && forall i :: 0 <= i < n ==> q[i] == (i, true)
  {
    seq(n, i => (i, true))
  }

  /** No hook ran, or the first few did and the last of them failed. */
  ghost predicate CutShort(c: Config, ups: seq<(nat, bool)>) {
    ups == [] || exists i: nat :: i < c.hooks && ups == FirstOk(i) + [(i, false)]
  }

  ghost predicate Hooked(c: Config, t: Trace, starter: Starter) {
    match starter
    case Bringing => Ups(t) == []
    case Hooking(i, _) => Ups(t) == FirstOk(i)
    case NoStart => Ups(t) == FirstOk(c.hooks)
    case _ => CutShort(c, Ups(t))
  }

  ghost predicate OkAfterHooks(c: Config, t: Trace) {
    forall k :: 0 <= k < |t| && t[k].StartOk? ==> Ups(t[..k]) == FirstOk(c.hooks)
  }

  /** AfterStart hooks run when every service is up, AfterStop hooks when every started one is down. */
  ghost predicate OutsideLifetimes(c: Config, t: Trace) {
    forall k, p: Pos :: 0 <= k < |t| && IsService(c, p) ==>
      && (t[k].HookUp? ==> HasStarted(t[..k], p))
      && (t[k].HookDown? && HasStarted(t[..k], p) ==> HasStopped(t[..k], p))
  }

  ghost predicate HooksGood(c: Config, t: Trace) {
    && OkAfterHooks(c, t) && OutsideLifetimes(c, t)
    && (StartErr !in t ==> Ups(t) == FirstOk(c.hooks))
    && (StartErr in t ==> CutShort(c, Ups(t)))
  }

  ghost predicate HookInv(c: Config, m: Machine) {
    && (if m.f.phase.Idle? then m.trace == []
        else Hooked(c, m.trace, m.starter) && OkAfterHooks(c, m.trace) && OutsideLifetimes(c, m.trace))
    && (forall i :: 0 <= i < |m.past| ==> HooksGood(c, m.past[i]))
  }

  // ---------- One more event ----------

  lemma UpsAppend(t: Trace, e: Event)
    ensures Ups(t + [e]) == if e.HookUp? then Ups(t) + [(e.i, e.ok)] else Ups(t)
  {
    assert EnvTrace.Init(t + [e]) == t;
  }

  lemma OkAppend(c: Config, t: Trace, e: Event)
    requires OkAfterHooks(c, t) && (e.StartOk? ==> Ups(t) == FirstOk(c.hooks))
    ensures OkAfterHooks(c, t + [e])
  {
    var u := t + [e];
    assert forall k :: 0 <= k < |t| ==> u[..k] == t[..k];
    assert u[..|t|] == t;
  }

  lemma OutsideAppend(c: Config, t: Trace, e: Event)
    requires OutsideLifetimes(c, t)
    requires e.HookUp? ==> forall p :: IsService(c, p) ==> HasStarted(t, p)
    requires e.HookDown? ==> forall p :: IsService(c, p) && HasStarted(t, p) ==> HasStopped(t, p)
    ensures OutsideLifetimes(c, t + [e])
  {
    var u := t + [e];
    hide HasStarted, HasStopped;
    forall k, p: Pos | 0 <= k < |u| && IsService(c, p)
      ensures u[k].HookUp? ==> HasStarted(u[..k], p)
      ensures u[k].HookDown? && HasStarted(u[..k], p) ==> HasStopped(u[..k], p)
    {
      assert u[..k] == if k < |t| then t[..k] else t;
    }
  }

  /** An event that is neither a hook's nor Start's success. */
  lemma PlainEvent(c: Config, t: Trace, e: Event, starter: Starter)
    requires Hooked(c, t, starter) && OkAfterHooks(c, t) && OutsideLifetimes(c, t)
    requires !e.HookUp? && !e.HookDown? && !e.StartOk?
    ensures Hooked(c, t + [e], starter) && OkAfterHooks(c, t + [e]) && OutsideLifetimes(c, t + [e])
  {
    UpsAppend(t, e);
    OkAppend(c, t, e);
    OutsideAppend(c, t, e);
  }

  // ---------- The steps ----------

  /** While the AfterStart hooks run, every service is up. */
  lemma AllUpWhenHooking(c: Config, m: Machine, p: Pos)
    requires InRun(c, m) && m.starter.Hooking? && IsService(c, p)
    ensures HasStarted(m.trace, p)
  {
    hide CubeExact, Torn, Ordered, Counted;
    NoTrackFailed(c, m.tracks, m.status);
    NoneFailed(c, m.tracks, m.status, p);
    StartedByStatus(m.trace, m.status, p);
  }

  /** While the AfterStop hooks run, every started service is down. */
  lemma AllDownWhenHooking(c: Config, m: Machine, p: Pos)
    requires InRun(c, m) && m.stopper.HookingDown? && HasStarted(m.trace, p)
    ensures HasStopped(m.trace, p)
  {
    hide CubeExact, Staged, Ordered, Counted, Blame;
    StartedByStatus(m.trace, m.status, p);
  }

  lemma HookedOn(c: Config, t: Trace, i: nat, snapshot: Props, ok: bool)
    requires Hooked(c, t, Hooking(i, snapshot)) && i < c.hooks
    ensures Hooked(c, t + [HookUp(i, snapshot, ok)], if ok then Hooking(i + 1, snapshot) else Aborting)
  {
    UpsAppend(t, HookUp(i, snapshot, ok));
    if ok {
      assert FirstOk(i) + [(i, true)] == FirstOk(i + 1);
    }
  }

  lemma StartHookKeepsHooks(c: Config, m: Machine, ok: bool)
    requires Inv(c, m) && HookInv(c, m) && Enabled(c, m, StartHook(ok))
    ensures HookInv(c, Apply(c, m, StartHook(ok)))
  {
    var h := m.starter;
    var e := HookUp(h.i, h.snapshot, ok);
    hide GoodRun, OkAfterHooks, OutsideLifetimes, HooksGood, Hooked, HasStarted, HasStopped;
    forall p | IsService(c, p) ensures HasStarted(m.trace, p) { AllUpWhenHooking(c, m, p); }
    HookedOn(c, m.trace, h.i, h.snapshot, ok);
    OkAppend(c, m.trace, e);
    OutsideAppend(c, m.trace, e);
    hide InRun;
  }

  lemma StoppingIsARun(c: Config, m: Machine)
    requires Inv(c, m) && m.stopper.HookingDown?
    ensures InRun(c, m) && m.f.phase.Stopping? && (m.starter.RollingBack? || m.starter.NoStart?)
  {}

  lemma DownEvent(c: Config, t: Trace, e: Event, starter: Starter)
    requires Hooked(c, t, starter) && OkAfterHooks(c, t) && OutsideLifetimes(c, t) && e.HookDown?
    requires forall p :: IsService(c, p) && HasStarted(t, p) ==> HasStopped(t, p)
    ensures Hooked(c, t + [e], starter) && OkAfterHooks(c, t + [e]) && OutsideLifetimes(c, t + [e])
  {
    UpsAppend(t, e);
    OkAppend(c, t, e);
    OutsideAppend(c, t, e);
  }

  lemma StopHookKeepsHooks(c: Config, m: Machine, ok: bool)
    requires InRun(c, m) && m.f.phase.Stopping? && HookInv(c, m) && Enabled(c, m, StopHook(ok))
    ensures HookInv(c, Apply(c, m, StopHook(ok)))
  {
    hide InRun, OkAfterHooks, OutsideLifetimes, HooksGood, Hooked, HasStarted, HasStopped;
    forall p | IsService(c, p) && HasStarted(m.trace, p) ensures HasStopped(m.trace, p) {
      AllDownWhenHooking(c, m, p);
    }
    DownEvent(c, m.trace, HookDown(m.stopper.i, m.stopper.snapshot, ok), m.starter);
  }

  lemma StartReturnsKeepsHooks(c: Config, m: Machine)
    requires Inv(c, m) && HookInv(c, m) && Enabled(c, m, StartReturns)
    ensures HookInv(c, Apply(c, m, StartReturns))
  {
    var e := StartOk(m.starter.snapshot);
    UpsAppend(m.trace, e);
    OkAppend(c, m.trace, e);
    OutsideAppend(c, m.trace, e);
    hide InRun, GoodRun, OkAfterHooks, OutsideLifetimes, HooksGood;
  }

  lemma OverIsGood(c: Config, m: Machine)
    requires Hooked(c, m.trace, m.starter) && OkAfterHooks(c, m.trace) && OutsideLifetimes(c, m.trace)
    requires StartErr !in m.trace && (m.starter.RollingBack? || m.starter.NoStart?)
    ensures HooksGood(c, OverWith(m))
  {
    PlainEvent(c, m.trace, StartErr, m.starter);
    hide OkAfterHooks, OutsideLifetimes, CutShort;
    assert StartErr in OverWith(m) <==> m.starter.RollingBack?;
  }

  lemma FinishStopKeepsHooks(c: Config, m: Machine)
    requires InRun(c, m) && m.f.phase.Stopping? && (m.starter.RollingBack? || m.starter.NoStart?)
    requires HookInv(c, m) && Enabled(c, m, FinishStop)
    ensures HookInv(c, Apply(c, m, FinishStop))
  {
    assert Counted(m.trace, m.f.phase, m.starter, m.stopper);
    hide InRun, OkAfterHooks, OutsideLifetimes, Hooked, HooksGood;
    OverIsGood(c, m);
  }

  lemma StoppingKeepsHooks(c: Config, m: Machine, step: Step)
    requires Inv(c, m) && HookInv(c, m) && Enabled(c, m, step) && (step.StopHook? || step.FinishStop?)
    ensures HookInv(c, Apply(c, m, step))
  {
    assert m.stopper.HookingDown?;
    hide Inv, HookInv, Apply, InRun;
    StoppingIsARun(c, m);
    if step.StopHook? {
      StopHookKeepsHooks(c, m, step.ok);
    } else {
      FinishStopKeepsHooks(c, m);
    }
  }

  lemma TeardownKeepsHooks(c: Config, m: Machine, step: Step)
    requires Inv(c, m) && HookInv(c, m) && Enabled(c, m, step) && Disciplined(m, step) && CanStop(m.f)
    requires step.Rollback? || step.CallEnvStop?
    ensures HookInv(c, Apply(c, m, step))
  {
    PlainEvent(c, m.trace, StopWon, m.starter);
    hide InRun, GoodRun, OkAfterHooks, OutsideLifetimes, CutShort, HooksGood;
  }

  lemma MoveKeepsHooks(c: Config, m: Machine, step: Step)
    requires Inv(c, m) && HookInv(c, m) && Enabled(c, m, step)
    requires step.CallStart? || step.StartSucceeds? || step.StartFails? || step.ReadProps? || step.CallStop?
          || step.StopReturns?
    ensures HookInv(c, Apply(c, m, step))
  {
    assert !m.f.phase.Idle?;
    var n := Apply(c, m, step);
    if step.StartSucceeds? {
      InStartIsService(c, m, step.p);
    }
    assert n.trace == m.trace + [Last(n.trace)];
    PlainEvent(c, m.trace, Last(n.trace), m.starter);
    hide Inv, OkAfterHooks, OutsideLifetimes, CutShort, HooksGood, Hooked;
  }

  lemma InStartIsService(c: Config, m: Machine, p: Pos)
    requires Inv(c, m) && Stat(m.status, p).InStart?
    ensures !m.f.phase.Idle? && CanPublish(m.f, p)
  {
    assert IsService(c, p);
  }

  lemma StepKeepsHooks(c: Config, m: Machine, step: Step)
    requires Inv(c, m) && HookInv(c, m) && Enabled(c, m, step) && Disciplined(m, step)
    ensures HookInv(c, Apply(c, m, step))
  {
    assert m.starter.Aborting? ==> CanStop(m.f);
    assert step.CallEnvStop? && !CanStop(m.f) ==> Apply(c, m, step) == m;
    hide Inv, HookInv, Apply, Enabled;
    match step
    case StartHook(ok) => StartHookKeepsHooks(c, m, ok);
    case StopHook(_) => StoppingKeepsHooks(c, m, step);
    case StartReturns => StartReturnsKeepsHooks(c, m);
    case FinishStop => StoppingKeepsHooks(c, m, step);
    case Rollback => RollbackKeepsHooks(c, m);
    case CallEnvStop => if CanStop(m.f) { TeardownKeepsHooks(c, m, step); }
    case CallEnvStart => OthersKeepHooks(c, m, step);
    case NextStage(_) => OthersKeepHooks(c, m, step);
    case TrackFails(_) => OthersKeepHooks(c, m, step);
    case JoinTracks => OthersKeepHooks(c, m, step);
    case PrevStage(_) => OthersKeepHooks(c, m, step);
    case JoinStops => OthersKeepHooks(c, m, step);
    case _ => MoveKeepsHooks(c, m, step);
  }

  lemma RollbackKeepsHooks(c: Config, m: Machine)
    requires Inv(c, m) && HookInv(c, m) && Enabled(c, m, Rollback)
    ensures HookInv(c, Apply(c, m, Rollback))
  {
    assert CanStop(m.f);
    hide Inv, HookInv, Apply;
    TeardownKeepsHooks(c, m, Rollback);
  }

  lemma OthersKeepHooks(c: Config, m: Machine, step: Step)
    requires Inv(c, m) && HookInv(c, m) && Enabled(c, m, step)
    requires step.CallEnvStart? || step.NextStage? || step.TrackFails? || step.JoinTracks? || step.PrevStage?
          || step.JoinStops?
    ensures HookInv(c, Apply(c, m, step))
  {
    hide InRun, GoodRun, HooksGood;
  }

  lemma {:induction false} RunKeepsHooks(c: Config, m: Machine, steps: seq<Step>, n: Machine)
    requires Inv(c, m) && HookInv(c, m) && Runs(c, m, steps, n)
    ensures HookInv(c, n)
    decreases |steps|
  {
    hide Inv, HookInv, Apply, Enabled;
    if steps != [] {
      StepKeeps(c, m, steps[0]);
      StepKeepsHooks(c, m, steps[0]);
      RunKeepsHooks(c, Apply(c, m, steps[0]), steps[1..], n);
    }
  }

  // ---------- Main results ----------

  lemma HooksOfRun(c: Config, m: Machine, t: Trace)
    requires IsRun(c, m, t)
    ensures OkAfterHooks(c, t) && OutsideLifetimes(c, t)
    ensures t in m.past ==> HooksGood(c, t)
    ensures (exists snapshot :: StartOk(snapshot) in t) ==> Ups(t) == FirstOk(c.hooks)
  {
    var steps :| Runs(c, INITIAL, steps, m);
    assert Inv(c, INITIAL) && HookInv(c, INITIAL);
    RunKeepsHooks(c, INITIAL, steps, m);
    RunKeeps(c, INITIAL, steps, m);
    hide OkAfterHooks, OutsideLifetimes, Hooked;
    if t in m.past {
      var i :| 0 <= i < |m.past| && m.past[i] == t;
      assert HooksGood(c, t) && GoodRun(c, t);
    } else if m.f.phase.Idle? {
      NoHooks(c);
    } else {
      assert Counted(t, m.f.phase, m.starter, m.stopper);
      assert Hooked(c, t, m.starter) && ((exists snapshot :: StartOk(snapshot) in t) ==> m.starter.NoStart?);
      OkMeansHooked(c, t, m.starter);
    }
  }

  lemma OkMeansHooked(c: Config, t: Trace, starter: Starter)
    requires Hooked(c, t, starter)
    ensures starter.NoStart? ==> Ups(t) == FirstOk(c.hooks)
  {}

  lemma NoHooks(c: Config)
    ensures OkAfterHooks(c, []) && OutsideLifetimes(c, [])
  {}

  /** When Start reports success, the AfterStart hooks have run: all of them, once each, in order, all
      without error; and none runs after that. */
  lemma StartRunsItsHooks(c: Config, m: Machine, t: Trace, k: nat)
    requires IsRun(c, m, t) && k < |t| && t[k].StartOk?
    ensures Ups(t[..k]) == Ups(t) == seq(c.hooks, i => (i, true))
  {
    HooksOfRun(c, m, t);
    assert StartOk(t[k].snapshot) in t;
    hide OkAfterHooks, OutsideLifetimes, Ups;
  }

  /** In a run that is over the AfterStart calls are all of the hooks, each successful, if Start reported
      no error; otherwise there are none, or the first few in order, of which exactly the last failed. */
  lemma HooksOfFinishedRun(c: Config, m: Machine, t: Trace)
    requires Reachable(c, m) && t in m.past
    ensures StartErr !in t ==> |Ups(t)| == c.hooks && forall i :: 0 <= i < c.hooks ==> Ups(t)[i] == (i, true)
    ensures StartErr in t && Ups(t) != [] ==>
              var last := |Ups(t)| - 1;
              last < c.hooks && Ups(t)[last] == (last, false) && forall i :: 0 <= i < last ==> Ups(t)[i] == (i, true)
  {
    HooksOfRun(c, m, t);
    hide Reachable, OkAfterHooks, OutsideLifetimes, Ups;
  }

  /** Hooks run outside the lifetimes of services: AfterStart only when every service's Start has
      returned nil, AfterStop only when every started service's Stop has returned. */
  lemma HooksOutsideLifetimes(c: Config, m: Machine, t: Trace, k: nat, p: Pos)
    requires IsRun(c, m, t) && k < |t| && IsService(c, p)
    ensures t[k].HookUp? ==> HasStarted(t[..k], p)
    ensures t[k].HookDown? && HasStarted(t[..k], p) ==> HasStopped(t[..k], p)
  {
    HooksOfRun(c, m, t);
    hide IsRun, HasStarted, HasStopped, OkAfterHooks;
  }
}
