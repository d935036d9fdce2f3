/** What every reachable state of the environment satisfies, and that every step keeps it. */
module EnvInvariant {
  import opened EnvProtocol
  import opened EnvTrace

  /** What a service's status says about its part of the trace. */
  function Story(s: Status): seq<Kind> {
    match s
    case Fresh => []
    case InStart => [Called]
    case Up(props) => [Called, Came(props)]
    case Failed => [Called, Broke]
    case InStop(props) => [Called, Came(props), StopCalled]
    case Down(props, ok) => [Called, Came(props), StopCalled, StopDone(ok)]
  }

  ghost predicate Traced(t: Trace, st: Statuses) {
    forall p: Pos :: Proj(t, p) == Story(Stat(st, p))
  }

  ghost predicate OnlyServices(c: Config, st: Statuses) {
    forall p :: !Stat(st, p).Fresh? ==> IsService(c, p)
  }

  /** How far each track is, told by its services. */
  ghost predicate Staged(c: Config, tracks: seq<Track>, st: Statuses) {
    && |tracks| == |c.tracks|
    && (forall t :: 0 <= t < |tracks| ==> tracks[t].stage <= |c.tracks[t]|)
    && (forall p :: IsService(c, p) ==>
          var track := tracks[p.track];
          && (p.stage < track.stage ==> HasCome(Stat(st, p)))
          && (p.stage > track.stage ==> Stat(st, p).Fresh?)
          && (p.stage == track.stage && track.failed ==> HasCome(Stat(st, p)) || Stat(st, p).Failed?))
    && (forall t :: 0 <= t < |tracks| && tracks[t].failed ==>
          exists p :: IsService(c, p) && p.track == t && Stat(st, p).Failed?)
  }

  ghost predicate Over(c: Config, tracks: seq<Track>) {
    forall t :: 0 <= t < |tracks| ==> TrackOver(c, tracks, t)
  }

  /** The record of started services: the shape of the configuration, each started service once. */
  ghost predicate CubeExact(c: Config, cube: seq<seq<seq<Pos>>>, st: Statuses) {
    && |cube| == |c.tracks|
    && (forall t :: 0 <= t < |cube| ==> |cube[t]| == |c.tracks[t]|)
    && (forall t, j, k :: 0 <= t < |cube| && 0 <= j < |cube[t]| && 0 <= k < |cube[t][j]| ==>
          cube[t][j][k].track == t && cube[t][j][k].stage == j && HasCome(Stat(st, cube[t][j][k])))
    && (forall p :: IsService(c, p) && HasCome(Stat(st, p)) ==> p in cube[p.track][p.stage])
    && (forall t, j, k, l :: 0 <= t < |cube| && 0 <= j < |cube[t]| && 0 <= k < l < |cube[t][j]| ==>
          cube[t][j][k] != cube[t][j][l])
  }

  /** How far the teardown is, told by the services. */
  ghost predicate Torn(c: Config, stopper: Stopper, started: seq<seq<seq<Pos>>>, st: Statuses) {
    match stopper
    case NoStop => forall p: Pos :: !Stat(st, p).InStop? && !Stat(st, p).Down?
    case Tearing(copy, left) =>
      && copy == started
      && |left| == |c.tracks| && (forall t :: 0 <= t < |left| ==> left[t] <= |c.tracks[t]|)
      && (forall p :: IsService(c, p) && HasCome(Stat(st, p)) ==>
            && (p.stage >= left[p.track] ==> Stat(st, p).Down?)
            && (p.stage + 1 < left[p.track] ==> Stat(st, p).Up?))
    case HookingDown(_, _) => forall p: Pos :: HasCome(Stat(st, p)) ==> Stat(st, p).Down?
  }

  ghost predicate Failure(t: Trace, st: Statuses) {
    HookFailed(t) || exists p: Pos :: Stat(st, p).Failed?
  }

  /** Who is doing what, phase by phase. */
  predicate Control(c: Config, f: Fields, starter: Starter, stopper: Stopper) {
    && (f.phase.Idle? ==> f == AT_REST && starter.NoStart?)
    && (!f.phase.Idle? ==> f.properties.Some?)
    && (f.phase.Starting? ==> starter.Bringing? || starter.Aborting?)
    && (f.phase.Running? ==> starter.Hooking? || starter.Aborting? || starter.NoStart?)
    && (f.phase.Stopping? ==> starter.RollingBack? || starter.NoStart?)
    && (stopper.NoStop? <==> !f.phase.Stopping?)
    && (starter.Hooking? ==> starter.i <= c.hooks && Some(starter.snapshot) == f.properties)
    && (stopper.HookingDown? ==> stopper.i <= c.hooks && Some(stopper.snapshot) == f.properties)
  }

  /** A failure is exactly what makes Start abort. */
  ghost predicate Blame(t: Trace, st: Statuses, starter: Starter) {
    && (starter.Bringing? ==> !HookFailed(t))
    && (!starter.Bringing? ==> (Failure(t, st) <==> starter.Aborting? || starter.RollingBack?))
  }

  /** What the trace counts: teardowns won, hooks run down, outcomes reported. */
  ghost predicate Counted(t: Trace, phase: Phase, starter: Starter, stopper: Stopper) {
    && Wins(t) == (if phase.Stopping? then 1 else 0)
    && Downs(t) == Iota(if stopper.HookingDown? then stopper.i else 0)
    && StartErr !in t
    && ((exists snapshot :: StartOk(snapshot) in t) <==> starter.NoStart?)
    && (!phase.Stopping? ==> NoStopYet(t))
  }

  ghost predicate NoStopYet(t: Trace) {
    forall i :: 0 <= i < |t| ==> !(t[i].Svc? && t[i].kind.StopCalled?)
  }

  ghost predicate Ordered(c: Config, t: Trace) {
    StartsInOrder(c, t) && StopsInOrder(c, t) && SeesMerged(t) && ReadsInStart(t)
  }

  ghost predicate AtRest(t: Trace, st: Statuses) {
    t == [] && forall p: Pos :: !Stat(st, p).InStart? && !Stat(st, p).InStop?
  }

  ghost predicate InRun(c: Config, m: Machine) {
    && Traced(m.trace, m.status) && OnlyServices(c, m.status)
    && Staged(c, m.tracks, m.status) && (!m.starter.Bringing? ==> Over(c, m.tracks))
    && CubeExact(c, m.f.started, m.status) && Torn(c, m.stopper, m.f.started, m.status)
    && Ordered(c, m.trace) && m.f.properties == Some(Merged(m.trace))
    && Blame(m.trace, m.status, m.starter)
    && Counted(m.trace, m.f.phase, m.starter, m.stopper)
  }

  /** A service that was not called, or failed to start, or was started and then stopped. */
  ghost predicate Closed(ks: seq<Kind>) {
    || ks == []
    || ks == [Called, Broke]
    || (|ks| == 4 && ks[0].Called? && ks[1].Came? && ks[2].StopCalled? && ks[3].StopDone?)
  }

  ghost predicate SomeBroke(t: Trace) {
    exists p: Pos :: Broke in Proj(t, p)
  }

  /** A run that is over: see the results for what this means. */
  ghost predicate GoodRun(c: Config, t: Trace) {
    && Ordered(c, t)
    && (forall p: Pos :: Closed(Proj(t, p)) && (Proj(t, p) != [] ==> IsService(c, p)))
    && Wins(t) == 1 && Downs(t) == Iota(c.hooks)
    && (StartErr in t <==> HookFailed(t) || SomeBroke(t))
    && (StartErr in t <==> forall snapshot :: StartOk(snapshot) !in t)
    && (StartErr !in t ==> forall p :: IsService(c, p) ==> HasStarted(t, p))
  }

  ghost predicate Inv(c: Config, m: Machine) {
    && !m.crashed
    && Control(c, m.f, m.starter, m.stopper)
    && (if m.f.phase.Idle? then AtRest(m.trace, m.status) else InRun(c, m))
    && (forall i :: 0 <= i < |m.past| ==> GoodRun(c, m.past[i]))
  }
}
