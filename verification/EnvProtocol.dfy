/** The environment's lifecycle as a state machine: any number of callers of Start and Stop, tracks that
    run side by side, stages in sequence within a track, services side by side within a stage, rollback,
    and teardown in reverse. A step is one mutex-held region, one call or return of a service or hook,
    or one thing a joining goroutine does. */
module EnvProtocol {
  datatype Option<T> = None | Some(value: T)

  type Props = map<string, string>

  /** A service, by its place in the configuration. */
  datatype Pos = Pos(track: nat, stage: nat, slot: nat)

  /** `tracks[t][j]` are the names of the services of stage j of track t. */
  datatype Config = Config(tracks: seq<seq<seq<string>>>, hooks: nat)

  datatype Phase = Idle | Starting | Running | Stopping

  /** What has happened to a service, in the order it happened. */
  datatype Kind = Called | Came(props: Props) | Broke | StopCalled | StopDone(ok: bool)

  datatype Status =
    | Fresh
    | InStart
    | Up(props: Props)
    | Failed
    | InStop(props: Props)
    | Down(props: Props, ok: bool)

  datatype Event =
    | Svc(p: Pos, kind: Kind)
    | Read(p: Pos, seen: Props)         // a service reads Properties() during its Start
    | HookUp(i: nat, seen: Props, ok: bool)
    | HookDown(i: nat, seen: Props, ok: bool)
    | StartOk(snapshot: Props)
    | StartErr
    | StopWon                           // a Stop call got past beginStop

  /** How far a track's goroutine has come; `failed` once it has returned an error. */
  datatype Track = Track(stage: nat, failed: bool)

  datatype Starter =
    | NoStart
    | Bringing                             // the tracks are running
    | Hooking(i: nat, snapshot: Props)     // AfterStart hooks
    | Aborting                             // failed, about to call Stop
    | RollingBack                          // inside its own Stop

  datatype Stopper =
    | NoStop
    | Tearing(copy: seq<seq<seq<Pos>>>, left: seq<nat>)  // left[t]: stages of track t still to stop
    | HookingDown(i: nat, snapshot: Props)               // AfterStop hooks

  /** The fields of the environment that the mutex guards. */
  datatype Fields = Fields(phase: Phase, properties: Option<Props>, started: seq<seq<seq<Pos>>>)

  datatype Machine = Machine(
    f: Fields,
    status: Statuses,             // absent means Fresh
    tracks: seq<Track>,
    starter: Starter,
    stopper: Stopper,
    trace: seq<Event>,          // the current run
    past: seq<seq<Event>>,      // the runs that are over
    crashed: bool)              // a goroutine panicked

  const AT_REST := Fields(Idle, None, [])
  const INITIAL := Machine(AT_REST, map[], [], NoStart, NoStop, [], [], false)

  predicate IsService(c: Config, p: Pos) {
    p.track < |c.tracks| && p.stage < |c.tracks[p.track]| && p.slot < |c.tracks[p.track][p.stage]|
  }

  function NameOf(c: Config, p: Pos): string
    requires IsService(c, p)
  {
    c.tracks[p.track][p.stage][p.slot]
  }

  ghost predicate UniqueNames(c: Config) {
    forall p, q :: IsService(c, p) && IsService(c, q) && NameOf(c, p) == NameOf(c, q) ==> p == q
  }

  type Statuses = map<Pos, Status>

  function Stat(st: Statuses, p: Pos): Status {
    if p in st then st[p] else Fresh
  }

  predicate HasCome(s: Status) {
    s.Up? || s.InStop? || s.Down?
  }

  // ---------- The mutex-held regions, on the fields alone ----------

  function EmptyCube(c: Config): seq<seq<seq<Pos>>> {
    seq(|c.tracks|, t requires 0 <= t < |c.tracks| => seq(|c.tracks[t]|, j => []))
  }

  /** beginStart; `unique` is whether the service names are. */
  function BeginStart(f: Fields, c: Config, unique: bool): Fields {
    if f.phase != Idle || !unique then f else Fields(Starting, Some(map[]), EmptyCube(c))
  }

  /** The indexing that publishing does, all in bounds. */
  predicate CanPublish(f: Fields, p: Pos) {
    f.properties.Some? && p.track < |f.started| && p.stage < |f.started[p.track]|
  }

  /** A service's properties are merged in and the service recorded as started. */
  function Publish(f: Fields, p: Pos, props: Props): Fields
    requires CanPublish(f, p)
  {
    f.(properties := Some(f.properties.value + props),
       started := f.started[p.track := f.started[p.track][p.stage := f.started[p.track][p.stage] + [p]]])
  }

  function Snapshot(f: Fields): Props {
    if f.properties.None? then map[] else f.properties.value
  }

  predicate CanStop(f: Fields) {
    f.phase == Running || f.phase == Starting
  }

  // ---------- Steps ----------

  datatype Step =
    | CallEnvStart                              // anyone calls Start
    | CallStart(p: Pos)
    | StartSucceeds(p: Pos, props: Props)
    | StartFails(p: Pos)
    | ReadProps(p: Pos)
    | NextStage(t: nat)
    | TrackFails(t: nat)
    | JoinTracks
    | StartHook(ok: bool)
    | StartReturns
    | Rollback                                  // Start calls Stop after a failure
    | CallEnvStop                               // anyone else calls Stop
    | CallStop(p: Pos)
    | StopReturns(p: Pos, ok: bool)
    | PrevStage(t: nat)
    | JoinStops
    | StopHook(ok: bool)
    | FinishStop

  /** All services of the stage have started. */
  ghost predicate StageUp(c: Config, st: Statuses, t: nat, j: nat) {
    forall p :: IsService(c, p) && p.track == t && p.stage == j ==> HasCome(Stat(st, p))
  }

  /** All services of the stage have returned from Start, some with an error. */
  ghost predicate StageBroken(c: Config, st: Statuses, t: nat, j: nat) {
    && (forall p :: IsService(c, p) && p.track == t && p.stage == j ==> HasCome(Stat(st, p)) || Stat(st, p).Failed?)
    && (exists p :: IsService(c, p) && p.track == t && p.stage == j && Stat(st, p).Failed?)
  }

  predicate TrackActive(c: Config, m: Machine, t: nat) {
    m.starter.Bringing? && t < |m.tracks| && t < |c.tracks| && !m.tracks[t].failed && m.tracks[t].stage < |c.tracks[t]|
  }

  predicate TrackOver(c: Config, tracks: seq<Track>, t: nat)
    requires t < |tracks|
  {
    tracks[t].failed || (t < |c.tracks| && tracks[t].stage == |c.tracks[t]|)
  }

  ghost predicate Enabled(c: Config, m: Machine, step: Step) {
    match step
    case CallEnvStart => m.f.phase != Idle || !UniqueNames(c) || m.starter.NoStart?
    case CallStart(p) =>
      IsService(c, p) && TrackActive(c, m, p.track) && m.tracks[p.track].stage == p.stage && Stat(m.status, p).Fresh?
    case StartSucceeds(p, _) => Stat(m.status, p).InStart?
    case StartFails(p) => Stat(m.status, p).InStart?
    case ReadProps(p) => Stat(m.status, p).InStart?
    case NextStage(t) => TrackActive(c, m, t) && StageUp(c, m.status, t, m.tracks[t].stage)
    case TrackFails(t) => TrackActive(c, m, t) && StageBroken(c, m.status, t, m.tracks[t].stage)
    case JoinTracks => m.starter.Bringing? && forall t :: 0 <= t < |m.tracks| ==> TrackOver(c, m.tracks, t)
    case StartHook(_) => m.starter.Hooking? && m.starter.i < c.hooks
    case StartReturns => m.starter.Hooking? && m.starter.i == c.hooks
    case Rollback => m.starter.Aborting? && (CanStop(m.f) ==> m.stopper.NoStop?)
    case CallEnvStop => CanStop(m.f) ==> m.stopper.NoStop?
    case CallStop(p) =>
      && m.stopper.Tearing? && p.track < |m.stopper.left| && p.track < |m.stopper.copy|
      && p.stage < |m.stopper.copy[p.track]| && m.stopper.left[p.track] == p.stage + 1
      && p in m.stopper.copy[p.track][p.stage] && Stat(m.status, p).Up?
    case StopReturns(p, _) => Stat(m.status, p).InStop?
    case PrevStage(t) =>
      && m.stopper.Tearing? && t < |m.stopper.left| && t < |m.stopper.copy|
      && 0 < m.stopper.left[t] <= |m.stopper.copy[t]|
      && forall p :: p in m.stopper.copy[t][m.stopper.left[t] - 1] ==> Stat(m.status, p).Down?
    case JoinStops => m.stopper.Tearing? && forall t :: 0 <= t < |m.stopper.left| ==> m.stopper.left[t] == 0
    case StopHook(_) => m.stopper.HookingDown? && m.stopper.i < c.hooks
    case FinishStop => m.stopper.HookingDown? && m.stopper.i == c.hooks
  }

  function Log(m: Machine, e: Event): Machine {
    m.(trace := m.trace + [e])
  }

  /** A service event, with the service's new status. */
  function Move(m: Machine, p: Pos, kind: Kind, s: Status): Machine {
    Log(m.(status := m.status[p := s]), Svc(p, kind))
  }

  /** beginStop, for a caller that gets past it: the started services are copied. */
  function BeginTeardown(m: Machine): Machine {
    Log(m.(f := m.f.(phase := Stopping),
           stopper := Tearing(m.f.started, seq(|m.f.started|, t requires 0 <= t < |m.f.started| => |m.f.started[t]|))),
        StopWon)
  }

  ghost function Apply(c: Config, m: Machine, step: Step): Machine
    requires Enabled(c, m, step)
  {
    match step
    case CallEnvStart =>
      if m.f.phase != Idle || !UniqueNames(c) then m
      else m.(f := BeginStart(m.f, c, true), status := map[], tracks := seq(|c.tracks|, t => Track(0, false)),
              starter := Bringing)
    case CallStart(p) => Move(m, p, Called, InStart)
    case StartSucceeds(p, props) =>
      if CanPublish(m.f, p) then Move(m.(f := Publish(m.f, p, props)), p, Came(props), Up(props))
      else m.(crashed := true)
    case StartFails(p) => Move(m, p, Broke, Failed)
    case ReadProps(p) => Log(m, Read(p, Snapshot(m.f)))
    case NextStage(t) => m.(tracks := m.tracks[t := m.tracks[t].(stage := m.tracks[t].stage + 1)])
    case TrackFails(t) => m.(tracks := m.tracks[t := m.tracks[t].(failed := true)])
    case JoinTracks =>
      if exists t :: 0 <= t < |m.tracks| && m.tracks[t].failed then m.(starter := Aborting)
      else m.(f := m.f.(phase := Running), starter := Hooking(0, Snapshot(m.f)))
    case StartHook(ok) =>
      var h := m.starter;
      Log(m.(starter := if ok then Hooking(h.i + 1, h.snapshot) else Aborting), HookUp(h.i, h.snapshot, ok))
    case StartReturns => Log(m.(starter := NoStart), StartOk(m.starter.snapshot))
    case Rollback =>
      if CanStop(m.f) then BeginTeardown(m.(starter := RollingBack)) else Log(m.(starter := NoStart), StartErr)
    case CallEnvStop => if CanStop(m.f) then BeginTeardown(m) else m
    case CallStop(p) => Move(m, p, StopCalled, InStop(Stat(m.status, p).props))
    case StopReturns(p, ok) => Move(m, p, StopDone(ok), Down(Stat(m.status, p).props, ok))
    case PrevStage(t) =>
      m.(stopper := Tearing(m.stopper.copy, m.stopper.left[t := m.stopper.left[t] - 1]))
    case JoinStops => m.(stopper := HookingDown(0, Snapshot(m.f)))
    case StopHook(ok) =>
      var h := m.stopper;
      Log(m.(stopper := HookingDown(h.i + 1, h.snapshot)), HookDown(h.i, h.snapshot, ok))
    case FinishStop =>
      var over := if m.starter.RollingBack? then Log(m.(starter := NoStart), StartErr) else m;
      over.(f := AT_REST, stopper := NoStop, trace := [], past := m.past + [over.trace])
  }

  /** The discipline the environment asks of its users: nobody else calls Stop while a Start call is
      bringing services up or running its hooks. */
  predicate Disciplined(m: Machine, step: Step) {
    step.CallEnvStop? ==> m.starter.NoStart? || m.starter.RollingBack?
  }

  ghost predicate Runs(c: Config, m: Machine, steps: seq<Step>, n: Machine)
    decreases |steps|
  {
    if steps == [] then m == n
    else Enabled(c, m, steps[0]) && Disciplined(m, steps[0]) && Runs(c, Apply(c, m, steps[0]), steps[1..], n)
  }

  ghost predicate Reachable(c: Config, m: Machine) {
    exists steps :: Runs(c, INITIAL, steps, m)
  }
}
