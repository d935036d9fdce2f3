/** No deadlock and no livelock: while a Start or Stop call is under way some step can be taken, and
    only so many are left until it returns. */
module EnvProgress {
  import opened EnvProtocol
  import opened EnvTrace
  import opened EnvInvariant
  import opened EnvSteps

  /** A step of the engine itself, of a service that returns, or of a hook. */
  predicate Internal(step: Step) {
    !step.CallEnvStart? && !step.CallEnvStop? && !step.ReadProps?
  }

  /** Somebody is starting or stopping the environment. */
  predicate Busy(m: Machine) {
    !m.f.phase.Idle? && !(m.f.phase.Running? && m.starter.NoStart?)
  }

  // ---------- Something can always be done ----------

  lemma TrackStep(c: Config, m: Machine, t: nat) returns (step: Step)
    requires Inv(c, m) && TrackActive(c, m, t)
    ensures Internal(step) && Enabled(c, m, step)
  {
    var j := m.tracks[t].stage;
    if p :| IsService(c, p) && p.track == t && p.stage == j && Stat(m.status, p).Fresh? {
      step := CallStart(p);
    } else if p :| IsService(c, p) && p.track == t && p.stage == j && Stat(m.status, p).InStart? {
      step := StartFails(p);
    } else if p :| IsService(c, p) && p.track == t && p.stage == j && Stat(m.status, p).Failed? {
      step := TrackFails(t);
    } else {
      step := NextStage(t);
    }
  }

  lemma BringingStep(c: Config, m: Machine) returns (step: Step)
    requires Inv(c, m) && m.starter.Bringing?
    ensures Internal(step) && Enabled(c, m, step)
  {
    if t: nat :| t < |m.tracks| && !TrackOver(c, m.tracks, t) {
      assert Staged(c, m.tracks, m.status);
      step := TrackStep(c, m, t);
    } else {
      step := JoinTracks;
    }
  }

  lemma TearingStep(c: Config, m: Machine) returns (step: Step)
    requires Inv(c, m) && m.stopper.Tearing?
    ensures Internal(step) && Enabled(c, m, step)
  {
    var copy, left := m.stopper.copy, m.stopper.left;
    assert Torn(c, m.stopper, m.f.started, m.status) && CubeExact(c, copy, m.status);
    if t: nat :| t < |left| && left[t] > 0 {
      var stage := copy[t][left[t] - 1];
      if k: nat :| k < |stage| && !Stat(m.status, stage[k]).Down? {
        step := if Stat(m.status, stage[k]).Up? then CallStop(stage[k]) else StopReturns(stage[k], true);
      } else {
        step := PrevStage(t);
      }
    } else {
      step := JoinStops;
    }
  }

  /** No deadlock: as long as a Start or Stop call is under way, some step can be taken. */
  lemma NeverStuck(c: Config, m: Machine) returns (step: Step)
    requires Reachable(c, m) && Busy(m)
    ensures Internal(step) && Enabled(c, m, step)
  {
    ReachableInv(c, m);
    assert Control(c, m.f, m.starter, m.stopper);
    if m.stopper.Tearing? {
      step := TearingStep(c, m);
    } else if m.stopper.HookingDown? {
      step := if m.stopper.i < c.hooks then StopHook(true) else FinishStop;
    } else if m.starter.Bringing? {
      step := BringingStep(c, m);
    } else if m.starter.Hooking? {
      step := if m.starter.i < c.hooks then StartHook(true) else StartReturns;
    } else {
      step := Rollback;
    }
  }

  // ---------- The work that is left ----------

  function StageServices(c: Config, t: nat, j: nat): seq<Pos>
    requires t < |c.tracks| && j < |c.tracks[t]|
  {
    seq(|c.tracks[t][j]|, k requires 0 <= k => Pos(t, j, k))
  }

  function TrackServices(c: Config, t: nat, j: nat): seq<Pos>
    requires t < |c.tracks| && j <= |c.tracks[t]|
  {
    if j == 0 then [] else TrackServices(c, t, j - 1) + StageServices(c, t, j - 1)
  }

  function Services(c: Config, t: nat): seq<Pos>
    requires t <= |c.tracks|
  {
    if t == 0 then [] else Services(c, t - 1) + TrackServices(c, t - 1, |c.tracks[t - 1]|)
  }

  lemma {:induction false} InTrack(c: Config, p: Pos, j: nat)
    requires IsService(c, p) && p.stage < j <= |c.tracks[p.track]|
    ensures p in TrackServices(c, p.track, j)
  {
    if p.stage == j - 1 {
      assert StageServices(c, p.track, p.stage)[p.slot] == p;
    } else {
      InTrack(c, p, j - 1);
    }
  }

  lemma {:induction false} InServices(c: Config, p: Pos, t: nat)
    requires IsService(c, p) && p.track < t <= |c.tracks|
    ensures p in Services(c, t)
  {
    if p.track == t - 1 {
      InTrack(c, p, |c.tracks[p.track]|);
    } else {
      InServices(c, p, t - 1);
    }
  }

  /** What is still to happen to a service, at most. */
  function Weight(s: Status): nat {
    match s
    case Fresh => 4
    case InStart => 3
    case Up(_) => 2
    case InStop(_) => 1
    case Down(_, _) => 0
    case Failed => 0
  }

  function Sum(ps: seq<Pos>, st: Statuses): nat {
    if ps == [] then 0 else Sum(ps[..|ps| - 1], st) + Weight(Stat(st, ps[|ps| - 1]))
  }

  lemma {:induction false} SumDrops(ps: seq<Pos>, st: Statuses, p: Pos, s: Status)
    requires Weight(s) < Weight(Stat(st, p))
    ensures Sum(ps, st[p := s]) <= Sum(ps, st)
    ensures p in ps ==> Sum(ps, st[p := s]) < Sum(ps, st)
  {
    if ps != [] {
      SumDrops(ps[..|ps| - 1], st, p, s);
    }
  }

  /** Stages still to go through on the way up. */
  function TrackWork(c: Config, tracks: seq<Track>): nat
    requires |tracks| <= |c.tracks|
  {
    if tracks == [] then 0
    else
      var t := |tracks| - 1;
      TrackWork(c, tracks[..t]) + (if tracks[t].failed then 0 else 1)
      + (if tracks[t].stage < |c.tracks[t]| then |c.tracks[t]| - tracks[t].stage else 0)
  }

  lemma {:induction false} TrackWorkDrops(c: Config, tracks: seq<Track>, t: nat, track: Track)
    requires |tracks| <= |c.tracks| && t < |tracks| && !tracks[t].failed && tracks[t].stage < |c.tracks[t]|
    requires track == tracks[t].(stage := tracks[t].stage + 1) || track == tracks[t].(failed := true)
    ensures TrackWork(c, tracks[t := track]) < TrackWork(c, tracks)
  {
    var last := |tracks| - 1;
    if t == last {
      assert tracks[t := track][..last] == tracks[..last];
    } else {
      assert tracks[t := track][..last] == tracks[..last][t := track];
      TrackWorkDrops(c, tracks[..last], t, track);
    }
  }

  /** Stages still to go through on the way down. */
  function LeftWork(left: seq<nat>): nat {
    if left == [] then 0 else LeftWork(left[..|left| - 1]) + left[|left| - 1]
  }

  lemma {:induction false} LeftWorkDrops(left: seq<nat>, t: nat)
    requires t < |left| && left[t] > 0
    ensures LeftWork(left[t := left[t] - 1]) < LeftWork(left)
  {
    var last := |left| - 1;
    if t == last {
      assert left[t := left[t] - 1][..last] == left[..last];
    } else {
      assert left[t := left[t] - 1][..last] == left[..last][t := left[t] - 1];
      LeftWorkDrops(left[..last], t);
    }
  }

  function Stages(tracks: seq<seq<seq<string>>>): nat {
    if tracks == [] then 0 else Stages(tracks[..|tracks| - 1]) + |tracks[|tracks| - 1]|
  }

  lemma {:induction false} LeftIsStages(tracks: seq<seq<seq<string>>>, left: seq<nat>)
    requires |left| == |tracks| && forall t :: 0 <= t < |left| ==> left[t] == |tracks[t]|
    ensures LeftWork(left) == Stages(tracks)
  {
    if tracks != [] {
      LeftIsStages(tracks[..|tracks| - 1], left[..|left| - 1]);
    }
  }

  function StarterWork(c: Config, s: Starter): int {
    match s
    case Bringing => c.hooks + 3
    case Hooking(i, _) => c.hooks - i + 2
    case Aborting => 1
    case _ => 0
  }

  function StopperWork(c: Config, s: Stopper): int {
    match s
    case NoStop => Stages(c.tracks) + c.hooks + 3
    case Tearing(_, left) => LeftWork(left) + c.hooks + 2
    case HookingDown(i, _) => c.hooks - i + 1
  }

  /** An upper bound on the steps left until the environment is idle or rests in its running state. */
  function Work(c: Config, m: Machine): int
    requires |m.tracks| <= |c.tracks|
  {
    Sum(Services(c, |c.tracks|), m.status) + TrackWork(c, m.tracks) + StarterWork(c, m.starter)
        + StopperWork(c, m.stopper)
  }

  lemma WorkIsLeft(c: Config, m: Machine)
    requires Inv(c, m) && !m.f.phase.Idle?
    ensures |m.tracks| <= |c.tracks| && Work(c, m) >= 0
  {
    assert Staged(c, m.tracks, m.status);
  }

  lemma ServiceStepDrops(c: Config, m: Machine, p: Pos, s: Status)
    requires IsService(c, p) && Weight(s) < Weight(Stat(m.status, p))
    ensures Sum(Services(c, |c.tracks|), m.status[p := s]) < Sum(Services(c, |c.tracks|), m.status)
  {
    InServices(c, p, |c.tracks|);
    SumDrops(Services(c, |c.tracks|), m.status, p, s);
  }

  lemma TeardownDrops(c: Config, m: Machine)
    requires CubeExact(c, m.f.started, m.status)
    ensures StopperWork(c, BeginTeardown(m).stopper) < StopperWork(c, NoStop)
  {
    LeftIsStages(c.tracks, BeginTeardown(m).stopper.left);
  }

  // ---------- Every step takes some of it off ----------

  predicate OfService(step: Step) {
    step.CallStart? || step.StartSucceeds? || step.StartFails? || step.CallStop? || step.StopReturns?
  }

  predicate OfStage(step: Step) {
    step.NextStage? || step.TrackFails? || step.PrevStage?
  }

  lemma ServiceWorks(c: Config, m: Machine, step: Step)
    requires Inv(c, m) && !m.f.phase.Idle? && OfService(step) && Enabled(c, m, step)
    ensures var n := Apply(c, m, step); |n.tracks| <= |c.tracks| && |m.tracks| <= |c.tracks| && Work(c, n) < Work(c, m)
  {
    var p, n := step.p, Apply(c, m, step);
    assert Staged(c, m.tracks, m.status) && OnlyServices(c, m.status) && CubeExact(c, m.f.started, m.status);
    assert IsService(c, p) && (step.StartSucceeds? ==> CanPublish(m.f, p));
    hide Inv, Services, TrackWork, Sum, LeftWork, Stages;
    ServiceStepDrops(c, m, p, Stat(n.status, p));
    assert n.status == m.status[p := Stat(n.status, p)];
  }

  lemma StageWorks(c: Config, m: Machine, step: Step)
    requires Inv(c, m) && !m.f.phase.Idle? && OfStage(step) && Enabled(c, m, step)
    ensures var n := Apply(c, m, step); |n.tracks| <= |c.tracks| && |m.tracks| <= |c.tracks| && Work(c, n) < Work(c, m)
  {
    assert Staged(c, m.tracks, m.status);
    hide Inv, Services, Sum, Stages;
    if step.PrevStage? {
      LeftWorkDrops(m.stopper.left, step.t);
    } else {
      TrackWorkDrops(c, m.tracks, step.t, Apply(c, m, step).tracks[step.t]);
    }
  }

  /** A Stop that gets past beginStop. */
  predicate BeginsTeardown(m: Machine, step: Step) {
    (step.Rollback? || step.CallEnvStop?) && CanStop(m.f)
  }

  lemma TeardownWorks(c: Config, m: Machine, step: Step)
    requires Inv(c, m) && Enabled(c, m, step) && BeginsTeardown(m, step)
    ensures var n := Apply(c, m, step);
            |n.tracks| <= |c.tracks| && |m.tracks| <= |c.tracks| && Work(c, n) < Work(c, m)
  {
    assert Staged(c, m.tracks, m.status) && CubeExact(c, m.f.started, m.status);
    hide Inv, Services, Sum, TrackWork, Stages, Staged, CubeExact;
    TeardownDrops(c, m);
  }

  lemma OthersWork(c: Config, m: Machine, step: Step)
    requires Inv(c, m) && !m.f.phase.Idle? && Enabled(c, m, step) && Disciplined(m, step)
    requires !OfService(step) && !OfStage(step) && !BeginsTeardown(m, step)
    ensures var n := Apply(c, m, step);
            && |n.tracks| <= |c.tracks| && |m.tracks| <= |c.tracks|
            && (n.f.phase.Idle? || (Work(c, n) <= Work(c, m) && (Internal(step) ==> Work(c, n) < Work(c, m))))
  {
    assert Staged(c, m.tracks, m.status) && Control(c, m.f, m.starter, m.stopper);
    hide Inv, Services, Sum, TrackWork, Stages, Staged;
  }

  lemma StepWorks(c: Config, m: Machine, step: Step)
    requires Inv(c, m) && !m.f.phase.Idle? && Enabled(c, m, step) && Disciplined(m, step)
    ensures var n := Apply(c, m, step);
            && |n.tracks| <= |c.tracks| && |m.tracks| <= |c.tracks|
            && (n.f.phase.Idle? || (Work(c, n) <= Work(c, m) && (Internal(step) ==> Work(c, n) < Work(c, m))))
  {
    hide Inv, Enabled, Apply, Work;
    if OfService(step) {
      ServiceWorks(c, m, step);
    } else if OfStage(step) {
      StageWorks(c, m, step);
    } else if BeginsTeardown(m, step) {
      TeardownWorks(c, m, step);
    } else {
      OthersWork(c, m, step);
    }
  }

  function InternalSteps(steps: seq<Step>): nat {
    if steps == [] then 0 else (if Internal(steps[0]) then 1 else 0) + InternalSteps(steps[1..])
  }

  /** The environment is not idle at any point of the run. */
  ghost predicate StaysUp(c: Config, m: Machine, steps: seq<Step>)
    decreases |steps|
  {
    && !m.f.phase.Idle?
    && (steps != [] && Enabled(c, m, steps[0]) ==> StaysUp(c, Apply(c, m, steps[0]), steps[1..]))
  }

  /** No livelock: whatever callers do and however things interleave, only so many steps of the engine,
      its services and hooks fit between two idle states. */
  lemma {:induction false} OnlySoManySteps(c: Config, m: Machine, steps: seq<Step>, n: Machine)
    requires Inv(c, m) && Runs(c, m, steps, n) && StaysUp(c, m, steps)
    ensures |m.tracks| <= |c.tracks| && InternalSteps(steps) <= Work(c, m)
    decreases |steps|
  {
    WorkIsLeft(c, m);
    if steps != [] {
      var u := Apply(c, m, steps[0]);
      StepWorks(c, m, steps[0]);
      StepKeeps(c, m, steps[0]);
      OnlySoManySteps(c, u, steps[1..], n);
    }
  }

  /** So a Start call together with the Stop that ends its run, from the moment it is accepted, takes at
      most four steps a service, two a stage, one a track and two a hook, and six more. */
  lemma StartEnds(c: Config, m: Machine, steps: seq<Step>, n: Machine)
    requires Reachable(c, m) && m.f.phase.Idle? && UniqueNames(c) && Enabled(c, m, CallEnvStart)
    requires Runs(c, Apply(c, m, CallEnvStart), steps, n) && StaysUp(c, Apply(c, m, CallEnvStart), steps)
    ensures InternalSteps(steps) <= 4 * |Services(c, |c.tracks|)| + 2 * Stages(c.tracks) + |c.tracks| + 2 * c.hooks + 6
  {
    ReachableInv(c, m);
    var u := Apply(c, m, CallEnvStart);
    StepKeeps(c, m, CallEnvStart);
    OnlySoManySteps(c, u, steps, n);
    FreshSum(Services(c, |c.tracks|));
    FreshTracks(c, u.tracks);
    assert c.tracks[..|u.tracks|] == c.tracks;
  }

  lemma {:induction false} FreshSum(ps: seq<Pos>)
    ensures Sum(ps, map[]) == 4 * |ps|
  {
    if ps != [] { FreshSum(ps[..|ps| - 1]); }
  }

  lemma {:induction false} FreshTracks(c: Config, tracks: seq<Track>)
    requires |tracks| <= |c.tracks| && forall t :: 0 <= t < |tracks| ==> tracks[t] == Track(0, false)
    ensures TrackWork(c, tracks) == Stages(c.tracks[..|tracks|]) + |tracks|
  {
    if tracks != [] {
      FreshTracks(c, tracks[..|tracks| - 1]);
      assert c.tracks[..|tracks|][..|tracks| - 1] == c.tracks[..|tracks| - 1];
    }
  }
}
