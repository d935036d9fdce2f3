/** Every disciplined step keeps the invariant of the environment. */
module EnvSteps {
  import opened EnvProtocol
  import opened EnvTrace
  import opened EnvInvariant

  // ---------- What one more event does to the trace ----------

  lemma TracedMove(t: Trace, st: Statuses, p: Pos, kind: Kind, s: Status)
    requires Traced(t, st) && Story(s) == Story(Stat(st, p)) + [kind]
    ensures Traced(t + [Svc(p, kind)], st[p := s])
  {
    forall q: Pos ensures Proj(t + [Svc(p, kind)], q) == Story(Stat(st[p := s], q)) {
      ProjAppend(t, Svc(p, kind), q);
    }
  }

  lemma TracedLog(t: Trace, st: Statuses, e: Event)
    requires Traced(t, st) && !e.Svc?
    ensures Traced(t + [e], st)
  {
    forall q: Pos ensures Proj(t + [e], q) == Story(Stat(st, q)) {
      ProjAppend(t, e, q);
    }
  }

  lemma Folds(t: Trace, e: Event)
    ensures Merged(t + [e]) == if e.Svc? && e.kind.Came? then Merged(t) + e.kind.props else Merged(t)
    ensures Downs(t + [e]) == if e.HookDown? then Downs(t) + [e.i] else Downs(t)
    ensures Wins(t + [e]) == Wins(t) + if e.StopWon? then 1 else 0
    ensures HookFailed(t + [e]) <==> HookFailed(t) || (e.HookUp? && !e.ok)
  {
    assert EnvTrace.Init(t + [e]) == t;
  }

  lemma StartedByStatus(t: Trace, st: Statuses, p: Pos)
    requires Traced(t, st)
    ensures HasStarted(t, p) <==> HasCome(Stat(st, p))
    ensures HasStopped(t, p) <==> Stat(st, p).Down?
  {}

  /** An event that reports no outcome, no teardown and no AfterStop call leaves the counts alone. */
  lemma CountedLog(t: Trace, e: Event, phase: Phase, starter: Starter, stopper: Stopper)
    requires Counted(t, phase, starter, stopper)
    requires !e.StartOk? && !e.StartErr? && !e.StopWon? && !e.HookDown?
    requires e.Svc? && e.kind.StopCalled? ==> phase.Stopping?
    ensures Counted(t + [e], phase, starter, stopper)
  {
    Folds(t, e);
    assert forall s :: StartOk(s) in t + [e] <==> StartOk(s) in t;
  }

  /** The two events that change what is counted before the teardown is over. */
  lemma CountedReturn(t: Trace, snapshot: Props, starter: Starter)
    requires Counted(t, Running, starter, NoStop)
    ensures Counted(t + [StartOk(snapshot)], Running, NoStart, NoStop)
  {
    Folds(t, StartOk(snapshot));
    assert StartOk(snapshot) in t + [StartOk(snapshot)];
  }

  lemma CountedWin(t: Trace, phase: Phase, starter: Starter, starter': Starter, copy: seq<seq<seq<Pos>>>,
      left: seq<nat>)
    requires Counted(t, phase, starter, NoStop) && !phase.Stopping? && (starter.NoStart? <==> starter'.NoStart?)
    ensures Counted(t + [StopWon], Stopping, starter', Tearing(copy, left))
  {
    Folds(t, StopWon);
    assert forall s :: StartOk(s) in t + [StopWon] <==> StartOk(s) in t;
  }

  lemma CountedDown(t: Trace, starter: Starter, i: nat, snapshot: Props, ok: bool)
    requires Counted(t, Stopping, starter, HookingDown(i, snapshot))
    ensures Counted(t + [HookDown(i, snapshot, ok)], Stopping, starter, HookingDown(i + 1, snapshot))
  {
    var e := HookDown(i, snapshot, ok);
    Folds(t, e);
    assert forall s :: StartOk(s) in t + [e] <==> StartOk(s) in t;
  }

  lemma CountedFrame(t: Trace, phase: Phase, starter: Starter, stopper: Stopper, starter': Starter, stopper': Stopper)
    requires Counted(t, phase, starter, stopper) && (starter.NoStart? <==> starter'.NoStart?)
    requires !stopper.HookingDown? && (stopper'.HookingDown? ==> stopper'.i == 0)
    ensures Counted(t, phase, starter', stopper')
  {}

  /** An event that is neither a service's call nor its return from Start, and shows nothing. */
  lemma OrderedLog(c: Config, t: Trace, e: Event)
    requires Ordered(c, t)
    requires e.Svc? ==> e.kind.Broke? || e.kind.StopDone?
    requires !e.Read? && (Seen(e).Some? ==> Seen(e).value == Merged(t))
    ensures Ordered(c, t + [e])
  {
    AppendStarts(c, t, e);
    AppendStops(c, t, e);
    AppendReads(t, e);
  }

  // ---------- Moving one service ----------

  /** A service in its Start is in the stage its track is at. */
  lemma InStartWhere(c: Config, tracks: seq<Track>, st: Statuses, p: Pos)
    requires Staged(c, tracks, st) && IsService(c, p) && Stat(st, p).InStart?
    ensures p.stage == tracks[p.track].stage && !tracks[p.track].failed && !Over(c, tracks)
  {
    assert !TrackOver(c, tracks, p.track);
  }

  lemma StagedStart(c: Config, tracks: seq<Track>, st: Statuses, p: Pos, s: Status)
    requires Staged(c, tracks, st) && IsService(c, p)
    requires p.stage == tracks[p.track].stage && !tracks[p.track].failed && !Stat(st, p).Failed?
    ensures Staged(c, tracks, st[p := s])
  {
    forall t | 0 <= t < |tracks| && tracks[t].failed
      ensures exists q :: IsService(c, q) && q.track == t && Stat(st[p := s], q).Failed?
    {
      var q :| IsService(c, q) && q.track == t && Stat(st, q).Failed?;
      assert Stat(st[p := s], q).Failed?;
    }
  }

  lemma StagedStop(c: Config, tracks: seq<Track>, st: Statuses, p: Pos, s: Status)
    requires Staged(c, tracks, st) && HasCome(Stat(st, p)) && HasCome(s)
    ensures Staged(c, tracks, st[p := s])
  {
    forall t | 0 <= t < |tracks| && tracks[t].failed
      ensures exists q :: IsService(c, q) && q.track == t && Stat(st[p := s], q).Failed?
    {
      var q :| IsService(c, q) && q.track == t && Stat(st, q).Failed?;
      assert Stat(st[p := s], q).Failed?;
    }
  }

  lemma CubeSame(c: Config, cube: seq<seq<seq<Pos>>>, st: Statuses, p: Pos, s: Status)
    requires CubeExact(c, cube, st) && (HasCome(Stat(st, p)) <==> HasCome(s))
    ensures CubeExact(c, cube, st[p := s])
  {
    assert forall q :: HasCome(Stat(st[p := s], q)) <==> HasCome(Stat(st, q));
  }

  lemma FailedSame(st: Statuses, st': Statuses, p: Pos)
    requires forall q :: q != p ==> Stat(st', q) == Stat(st, q)
    requires !Stat(st', p).Failed? && !Stat(st, p).Failed?
    ensures (exists q: Pos :: Stat(st', q).Failed?) <==> (exists q: Pos :: Stat(st, q).Failed?)
  {
    if q: Pos :| Stat(st, q).Failed? {
      assert Stat(st', q).Failed?;
    }
    if q: Pos :| Stat(st', q).Failed? {
      assert Stat(st, q).Failed?;
    }
  }

  lemma BlameSame(t: Trace, st: Statuses, starter: Starter, e: Event, p: Pos, s: Status)
    requires Blame(t, st, starter) && e.Svc? && !s.Failed? && !Stat(st, p).Failed?
    ensures Blame(t + [e], st[p := s], starter)
  {
    Folds(t, e);
    FailedSame(st, st[p := s], p);
  }

  lemma TornStart(c: Config, stopper: Stopper, started: seq<seq<seq<Pos>>>, st: Statuses, p: Pos, s: Status,
      started': seq<seq<seq<Pos>>>)
    requires Torn(c, stopper, started, st) && stopper.NoStop? && !s.InStop? && !s.Down?
    ensures Torn(c, stopper, started', st[p := s])
  {
    var st' := st[p := s];
    forall q: Pos ensures !Stat(st', q).InStop? && !Stat(st', q).Down? {
      assert !Stat(st, q).InStop? && !Stat(st, q).Down?;
    }
  }

  // ---------- Services starting ----------

  lemma OrderedCalled(c: Config, tracks: seq<Track>, t: Trace, st: Statuses, p: Pos)
    requires Ordered(c, t) && Traced(t, st) && Staged(c, tracks, st) && IsService(c, p)
    requires p.stage == tracks[p.track].stage
    ensures Ordered(c, t + [Svc(p, Called)])
  {
    var e := Svc(p, Called);
    forall q | Earlier(c, q, p) ensures HasStarted(t, q) {
      StartedByStatus(t, st, q);
    }
    hide Traced, Staged;
    AppendStarts(c, t, e);
    AppendStops(c, t, e);
    AppendReads(t, e);
  }

  lemma CallStartKeeps(c: Config, m: Machine, p: Pos)
    requires Inv(c, m) && Enabled(c, m, CallStart(p))
    ensures Inv(c, Apply(c, m, CallStart(p)))
  {
    hide Traced, Staged, CubeExact, Torn, Ordered, Blame, Counted, GoodRun;
    var e := Svc(p, Called);
    OrderedCalled(c, m.tracks, m.trace, m.status, p);
    TracedMove(m.trace, m.status, p, Called, InStart);
    StagedStart(c, m.tracks, m.status, p, InStart);
    CubeSame(c, m.f.started, m.status, p, InStart);
    TornStart(c, m.stopper, m.f.started, m.status, p, InStart, m.f.started);
    BlameSame(m.trace, m.status, m.starter, e, p, InStart);
    CountedLog(m.trace, e, m.f.phase, m.starter, m.stopper);
    Folds(m.trace, e);
  }

  lemma StartFailsKeeps(c: Config, m: Machine, p: Pos)
    requires Inv(c, m) && Enabled(c, m, StartFails(p))
    ensures Inv(c, Apply(c, m, StartFails(p)))
  {
    var e := Svc(p, Broke);
    hide Traced, Staged, Over, CubeExact, Torn, Ordered, Counted, GoodRun;
    InStartWhere(c, m.tracks, m.status, p);
    OrderedLog(c, m.trace, e);
    TracedMove(m.trace, m.status, p, Broke, Failed);
    StagedStart(c, m.tracks, m.status, p, Failed);
    CubeSame(c, m.f.started, m.status, p, Failed);
    TornStart(c, m.stopper, m.f.started, m.status, p, Failed, m.f.started);
    CountedLog(m.trace, e, m.f.phase, m.starter, m.stopper);
    Folds(m.trace, e);
  }

  lemma CubePublish(c: Config, f: Fields, st: Statuses, p: Pos, props: Props)
    requires CubeExact(c, f.started, st) && IsService(c, p) && Stat(st, p).InStart? && f.properties.Some?
    ensures CanPublish(f, p) && CubeExact(c, Publish(f, p, props).started, st[p := Up(props)])
  {
    var cube: seq<seq<seq<Pos>>>, cube': seq<seq<seq<Pos>>> := f.started, Publish(f, p, props).started;
    var st' := st[p := Up(props)];
    assert p !in cube[p.track][p.stage];
    forall t, j, k | 0 <= t < |cube'| && 0 <= j < |cube'[t]| && 0 <= k < |cube'[t][j]|
      ensures cube'[t][j][k].track == t && cube'[t][j][k].stage == j && HasCome(Stat(st', cube'[t][j][k]))
    {
      if !(t == p.track && j == p.stage && k == |cube[t][j]|) {
        assert cube'[t][j][k] == cube[t][j][k];
      }
    }
    forall q | IsService(c, q) && HasCome(Stat(st', q)) ensures q in cube'[q.track][q.stage] {
      if q != p {
        assert q in cube[q.track][q.stage];
      }
    }
  }

  lemma OrderedCame(c: Config, t: Trace, p: Pos, props: Props, phase: Phase, starter: Starter, stopper: Stopper)
    requires Ordered(c, t) && Counted(t, phase, starter, stopper) && !phase.Stopping?
    ensures Ordered(c, t + [Svc(p, Came(props))])
  {
    var e := Svc(p, Came(props));
    AppendStarts(c, t, e);
    AppendStops(c, t, e);
    AppendReads(t, e);
  }

  lemma StartSucceedsKeeps(c: Config, m: Machine, p: Pos, props: Props)
    requires Inv(c, m) && Enabled(c, m, StartSucceeds(p, props))
    ensures Inv(c, Apply(c, m, StartSucceeds(p, props)))
  {
    hide Traced, Staged, Over, CubeExact, Torn, Blame, Counted, GoodRun, Ordered;
    var e := Svc(p, Came(props));
    InStartWhere(c, m.tracks, m.status, p);
    OrderedCame(c, m.trace, p, props, m.f.phase, m.starter, m.stopper);
    CubePublish(c, m.f, m.status, p, props);
    TracedMove(m.trace, m.status, p, Came(props), Up(props));
    StagedStart(c, m.tracks, m.status, p, Up(props));
    TornStart(c, m.stopper, m.f.started, m.status, p, Up(props), Publish(m.f, p, props).started);
    BlameSame(m.trace, m.status, m.starter, e, p, Up(props));
    CountedLog(m.trace, e, m.f.phase, m.starter, m.stopper);
    Folds(m.trace, e);
  }

  lemma OrderedRead(c: Config, t: Trace, st: Statuses, p: Pos)
    requires Ordered(c, t) && Traced(t, st) && Stat(st, p).InStart?
    ensures Ordered(c, t + [Read(p, Merged(t))])
  {
    var e := Read(p, Merged(t));
    AppendStarts(c, t, e);
    AppendStops(c, t, e);
    AppendReads(t, e);
  }

  lemma ReadPropsKeeps(c: Config, m: Machine, p: Pos)
    requires Inv(c, m) && Enabled(c, m, ReadProps(p))
    ensures Inv(c, Apply(c, m, ReadProps(p)))
  {
    hide Traced, Staged, Over, CubeExact, Torn, Counted, GoodRun, Ordered;
    var e := Read(p, Snapshot(m.f));
    OrderedRead(c, m.trace, m.status, p);
    Folds(m.trace, e);
    TracedLog(m.trace, m.status, e);
    CountedLog(m.trace, e, m.f.phase, m.starter, m.stopper);
  }

  // ---------- Tracks ----------

  lemma NextStageKeeps(c: Config, m: Machine, t: nat)
    requires Inv(c, m) && Enabled(c, m, NextStage(t))
    ensures Inv(c, Apply(c, m, NextStage(t)))
  {
    hide Traced, CubeExact, Torn, Ordered, Blame, Counted, GoodRun;
    var tracks' := Apply(c, m, NextStage(t)).tracks;
    assert Staged(c, tracks', m.status) by {
      assert forall i :: 0 <= i < |m.tracks| ==> tracks'[i].failed == m.tracks[i].failed;
    }
  }

  lemma TrackFailsKeeps(c: Config, m: Machine, t: nat)
    requires Inv(c, m) && Enabled(c, m, TrackFails(t))
    ensures Inv(c, Apply(c, m, TrackFails(t)))
  {
    hide Traced, CubeExact, Torn, Ordered, Blame, Counted, GoodRun;
    var tracks' := Apply(c, m, TrackFails(t)).tracks;
    assert Staged(c, tracks', m.status) by {
      forall i | 0 <= i < |tracks'| && tracks'[i].failed
        ensures exists p :: IsService(c, p) && p.track == i && Stat(m.status, p).Failed?
      {
        assert i != t ==> m.tracks[i].failed;
      }
    }
  }

  lemma NoneFailed(c: Config, tracks: seq<Track>, st: Statuses, p: Pos)
    requires Staged(c, tracks, st) && Over(c, tracks) && OnlyServices(c, st)
    requires forall t :: 0 <= t < |tracks| ==> !tracks[t].failed
    ensures !Stat(st, p).Failed? && (IsService(c, p) ==> HasCome(Stat(st, p)))
  {
    if IsService(c, p) {
      assert TrackOver(c, tracks, p.track);
    }
  }

  lemma JoinTracksKeeps(c: Config, m: Machine)
    requires Inv(c, m) && Enabled(c, m, JoinTracks)
    ensures Inv(c, Apply(c, m, JoinTracks))
  {
    if t: nat :| t < |m.tracks| && m.tracks[t].failed {
      var p :| IsService(c, p) && p.track == t && Stat(m.status, p).Failed?;
    } else {
      forall p: Pos ensures !Stat(m.status, p).Failed? {
        NoneFailed(c, m.tracks, m.status, p);
      }
    }
    hide Traced, Staged, CubeExact, Ordered, GoodRun;
  }

  // ---------- AfterStart hooks and the end of Start ----------

  lemma StartHookKeeps(c: Config, m: Machine, ok: bool)
    requires Inv(c, m) && Enabled(c, m, StartHook(ok))
    ensures Inv(c, Apply(c, m, StartHook(ok)))
  {
    hide Traced, Staged, Over, CubeExact, Torn, Ordered, Counted, GoodRun;
    var h, n := m.starter, Apply(c, m, StartHook(ok));
    var e := HookUp(h.i, h.snapshot, ok);
    Folds(m.trace, e);
    OrderedLog(c, m.trace, e);
    TracedLog(m.trace, m.status, e);
    CountedLog(m.trace, e, m.f.phase, m.starter, m.stopper);
    CountedFrame(n.trace, m.f.phase, m.starter, m.stopper, n.starter, n.stopper);
  }

  lemma StartReturnsKeeps(c: Config, m: Machine)
    requires Inv(c, m) && Enabled(c, m, StartReturns)
    ensures Inv(c, Apply(c, m, StartReturns))
  {
    hide Traced, Staged, Over, CubeExact, Torn, Ordered, Counted, GoodRun;
    var e := StartOk(m.starter.snapshot);
    Folds(m.trace, e);
    OrderedLog(c, m.trace, e);
    TracedLog(m.trace, m.status, e);
    CountedReturn(m.trace, m.starter.snapshot, m.starter);
  }

  // ---------- Teardown ----------

  lemma TornAtOnce(c: Config, started: seq<seq<seq<Pos>>>, st: Statuses, left: seq<nat>)
    requires Torn(c, NoStop, started, st) && |left| == |c.tracks|
    requires forall t :: 0 <= t < |left| ==> left[t] == |c.tracks[t]|
    ensures Torn(c, Tearing(started, left), started, st)
  {}

  lemma BeginTeardownKeeps(c: Config, m: Machine, step: Step)
    requires Inv(c, m) && Enabled(c, m, step) && Disciplined(m, step) && CanStop(m.f)
    requires step.Rollback? || step.CallEnvStop?
    ensures Inv(c, Apply(c, m, step))
  {
    hide Traced, Staged, Over, Torn, Ordered, Counted, GoodRun;
    var n := Apply(c, m, step);
    Folds(m.trace, StopWon);
    OrderedLog(c, m.trace, StopWon);
    TracedLog(m.trace, m.status, StopWon);
    TornAtOnce(c, m.f.started, m.status, n.stopper.left);
    CountedWin(m.trace, m.f.phase, m.starter, n.starter, n.stopper.copy, n.stopper.left);
  }

  lemma CallStopKeeps(c: Config, m: Machine, p: Pos)
    requires Inv(c, m) && Enabled(c, m, CallStop(p))
    ensures Inv(c, Apply(c, m, CallStop(p)))
  {
    var e := Svc(p, StopCalled);
    var s := InStop(Stat(m.status, p).props);
    hide Traced, Staged, Over, CubeExact, Torn, Blame, Counted, GoodRun, Ordered;
    CallStopOrdered(c, m, p);
    TracedMove(m.trace, m.status, p, StopCalled, s);
    CountedLog(m.trace, e, m.f.phase, m.starter, m.stopper);
    StopMoveKeeps(c, m.tracks, m.stopper, m.f.started, m.status, p, s);
    Folds(m.trace, e);
    BlameSame(m.trace, m.status, m.starter, e, p, s);
  }

  lemma CallStopOrdered(c: Config, m: Machine, p: Pos)
    requires Inv(c, m) && Enabled(c, m, CallStop(p))
    ensures Ordered(c, m.trace + [Svc(p, StopCalled)])
  {
    hide Staged, CubeExact, Counted, Blame, GoodRun;
    var e := Svc(p, StopCalled);
    forall q | Earlier(c, p, q) && HasStarted(m.trace, q) ensures HasStopped(m.trace, q) {
      StartedByStatus(m.trace, m.status, q);
    }
    AppendStarts(c, m.trace, e);
    AppendStops(c, m.trace, e);
    AppendReads(m.trace, e);
  }

  lemma StopMoveKeeps(c: Config, tracks: seq<Track>, stopper: Stopper, started: seq<seq<seq<Pos>>>, st: Statuses,
      p: Pos, s: Status)
    requires Staged(c, tracks, st) && OnlyServices(c, st) && CubeExact(c, started, st) && Torn(c, stopper, started, st)
    requires stopper.Tearing? && p.track < |stopper.left| && stopper.left[p.track] == p.stage + 1
    requires HasCome(Stat(st, p)) && !Stat(st, p).Down? && (s.InStop? || s.Down?)
    ensures Staged(c, tracks, st[p := s]) && OnlyServices(c, st[p := s])
    ensures CubeExact(c, started, st[p := s]) && Torn(c, stopper, started, st[p := s])
  {
    StagedStop(c, tracks, st, p, s);
    CubeSame(c, started, st, p, s);
    hide Staged, CubeExact;
  }

  /** A service in its Stop is in the stage its track's teardown is at. */
  lemma InStopWhere(c: Config, m: Machine, p: Pos)
    requires Inv(c, m) && Stat(m.status, p).InStop?
    ensures m.f.phase.Stopping? && m.stopper.Tearing? && p.track < |m.stopper.left|
        && m.stopper.left[p.track] == p.stage + 1
  {}

  lemma StopReturnsKeeps(c: Config, m: Machine, p: Pos, ok: bool)
    requires Inv(c, m) && Enabled(c, m, StopReturns(p, ok))
    ensures Inv(c, Apply(c, m, StopReturns(p, ok)))
  {
    hide Traced, Staged, Over, CubeExact, Torn, Blame, Counted, GoodRun, Ordered;
    var e := Svc(p, StopDone(ok));
    var s := Down(Stat(m.status, p).props, ok);
    InStopWhere(c, m, p);
    OrderedLog(c, m.trace, e);
    TracedMove(m.trace, m.status, p, StopDone(ok), s);
    CountedLog(m.trace, e, m.f.phase, m.starter, m.stopper);
    StopMoveKeeps(c, m.tracks, m.stopper, m.f.started, m.status, p, s);
    Folds(m.trace, e);
    BlameSame(m.trace, m.status, m.starter, e, p, s);
  }

  lemma TornPrev(c: Config, copy: seq<seq<seq<Pos>>>, left: seq<nat>, st: Statuses, t: nat)
    requires Torn(c, Tearing(copy, left), copy, st) && CubeExact(c, copy, st) && OnlyServices(c, st)
    requires t < |left| && 0 < left[t] && forall p :: p in copy[t][left[t] - 1] ==> Stat(st, p).Down?
    ensures Torn(c, Tearing(copy, left[t := left[t] - 1]), copy, st)
  {}

  lemma PrevStageKeeps(c: Config, m: Machine, t: nat)
    requires Inv(c, m) && Enabled(c, m, PrevStage(t))
    ensures Inv(c, Apply(c, m, PrevStage(t)))
  {
    assert m.stopper.copy == m.f.started;
    hide Traced, Staged, Over, CubeExact, Torn, Blame, Counted, GoodRun, Ordered;
    var n := Apply(c, m, PrevStage(t));
    TornPrev(c, m.f.started, m.stopper.left, m.status, t);
    CountedFrame(m.trace, m.f.phase, m.starter, m.stopper, n.starter, n.stopper);
  }

  lemma TornOver(c: Config, copy: seq<seq<seq<Pos>>>, left: seq<nat>, st: Statuses, snapshot: Props)
    requires Torn(c, Tearing(copy, left), copy, st) && OnlyServices(c, st)
    requires forall t :: 0 <= t < |left| ==> left[t] == 0
    ensures Torn(c, HookingDown(0, snapshot), copy, st)
  {}

  lemma JoinStopsKeeps(c: Config, m: Machine)
    requires Inv(c, m) && Enabled(c, m, JoinStops)
    ensures Inv(c, Apply(c, m, JoinStops))
  {
    assert m.stopper.copy == m.f.started;
    hide Traced, Staged, Over, CubeExact, Torn, Blame, Counted, GoodRun, Ordered;
    var n := Apply(c, m, JoinStops);
    TornOver(c, m.f.started, m.stopper.left, m.status, Snapshot(m.f));
    CountedFrame(m.trace, m.f.phase, m.starter, m.stopper, n.starter, n.stopper);
  }

  lemma StopHookKeeps(c: Config, m: Machine, ok: bool)
    requires Inv(c, m) && Enabled(c, m, StopHook(ok))
    ensures Inv(c, Apply(c, m, StopHook(ok)))
  {
    hide Traced, Staged, Over, CubeExact, Counted, GoodRun, Ordered;
    var e := HookDown(m.stopper.i, m.stopper.snapshot, ok);
    Folds(m.trace, e);
    CountedDown(m.trace, m.starter, m.stopper.i, m.stopper.snapshot, ok);
    OrderedLog(c, m.trace, e);
    TracedLog(m.trace, m.status, e);
  }

  lemma {:induction false} ClosedStory(s: Status)
    requires HasCome(s) ==> s.Down?
    requires !s.InStart?
    ensures Closed(Story(s)) && (Broke in Story(s) <==> s.Failed?)
  {}

  lemma NothingPending(c: Config, m: Machine, p: Pos)
    requires Inv(c, m) && Enabled(c, m, FinishStop)
    ensures !Stat(m.status, p).InStart? && !Stat(m.status, p).InStop?
  {
    hide CubeExact, Ordered, Traced, Blame, Counted, GoodRun;
    if Stat(m.status, p).InStart? {
      InStartWhere(c, m.tracks, m.status, p);
    }
  }

  /** The trace of a run, with the error its Start reports, if it does. */
  function OverWith(m: Machine): Trace {
    if m.starter.RollingBack? then m.trace + [StartErr] else m.trace
  }

  lemma OneClosed(c: Config, m: Machine, p: Pos)
    requires Inv(c, m) && Enabled(c, m, FinishStop)
    ensures var ks := Proj(OverWith(m), p);
            Closed(ks) && (ks != [] ==> IsService(c, p)) && (Broke in ks <==> Stat(m.status, p).Failed?)
    ensures m.starter.NoStart? && IsService(c, p) ==> HasStarted(OverWith(m), p)
  {
    NothingPending(c, m, p);
    hide CubeExact, Ordered, Blame, Counted, GoodRun, Staged;
    ProjAppend(m.trace, StartErr, p);
    ClosedStory(Stat(m.status, p));
    if m.starter.NoStart? && IsService(c, p) {
      AllUp(c, m, p);
    }
  }

  lemma RunIsGood(c: Config, m: Machine)
    requires Inv(c, m) && Enabled(c, m, FinishStop)
    ensures GoodRun(c, OverWith(m))
    ensures forall p :: !Stat(m.status, p).InStart? && !Stat(m.status, p).InStop?
  {
    hide CubeExact, Ordered, Traced, Staged, Closed;
    var over := OverWith(m);
    forall p ensures !Stat(m.status, p).InStart? && !Stat(m.status, p).InStop? { NothingPending(c, m, p); }
    forall p: Pos
      ensures Closed(Proj(over, p)) && (Proj(over, p) != [] ==> IsService(c, p))
      ensures Broke in Proj(over, p) <==> Stat(m.status, p).Failed?
      ensures m.starter.NoStart? && IsService(c, p) ==> HasStarted(over, p)
    {
      OneClosed(c, m, p);
    }
    Folds(m.trace, StartErr);
    OrderedLog(c, m.trace, StartErr);
    assert forall s :: StartOk(s) in over <==> StartOk(s) in m.trace;
  }

  lemma NoTrackFailed(c: Config, tracks: seq<Track>, st: Statuses)
    requires Staged(c, tracks, st) && forall q: Pos :: !Stat(st, q).Failed?
    ensures forall t :: 0 <= t < |tracks| ==> !tracks[t].failed
  {}

  /** Where nothing has failed and the tracks are joined, everything is up or has been. */
  lemma AllUp(c: Config, m: Machine, p: Pos)
    requires InRun(c, m) && m.starter.NoStart? && IsService(c, p)
    ensures HasStarted(m.trace, p)
  {
    NoTrackFailed(c, m.tracks, m.status);
    NoneFailed(c, m.tracks, m.status, p);
    StartedByStatus(m.trace, m.status, p);
  }

  lemma FinishStopKeeps(c: Config, m: Machine)
    requires Inv(c, m) && Enabled(c, m, FinishStop)
    ensures Inv(c, Apply(c, m, FinishStop))
  {
    hide InRun, GoodRun;
    RunIsGood(c, m);
  }

  // ---------- Start is called ----------

  lemma CallEnvStartKeeps(c: Config, m: Machine)
    requires Inv(c, m) && Enabled(c, m, CallEnvStart)
    ensures Inv(c, Apply(c, m, CallEnvStart))
  {
    var n := Apply(c, m, CallEnvStart);
    if m.f.phase.Idle? && UniqueNames(c) {
      assert forall p :: Stat(n.status, p) == Fresh;
      hide GoodRun;
    }
  }

  lemma StepKeeps(c: Config, m: Machine, step: Step)
    requires Inv(c, m) && Enabled(c, m, step) && Disciplined(m, step)
    ensures Inv(c, Apply(c, m, step))
  {
    assert m.starter.Aborting? ==> CanStop(m.f);
    assert step.CallEnvStop? && !CanStop(m.f) ==> Apply(c, m, step) == m;
    hide Inv, Apply, Enabled;
    match step
    case CallEnvStart => CallEnvStartKeeps(c, m);
    case CallStart(p) => CallStartKeeps(c, m, p);
    case StartSucceeds(p, props) => StartSucceedsKeeps(c, m, p, props);
    case StartFails(p) => StartFailsKeeps(c, m, p);
    case ReadProps(p) => ReadPropsKeeps(c, m, p);
    case NextStage(t) => NextStageKeeps(c, m, t);
    case TrackFails(t) => TrackFailsKeeps(c, m, t);
    case JoinTracks => JoinTracksKeeps(c, m);
    case StartHook(ok) => StartHookKeeps(c, m, ok);
    case StartReturns => StartReturnsKeeps(c, m);
    case Rollback => RollbackKeeps(c, m);
    case CallEnvStop => if CanStop(m.f) { BeginTeardownKeeps(c, m, step); }
    case CallStop(p) => CallStopKeeps(c, m, p);
    case StopReturns(p, ok) => StopReturnsKeeps(c, m, p, ok);
    case PrevStage(t) => PrevStageKeeps(c, m, t);
    case JoinStops => JoinStopsKeeps(c, m);
    case StopHook(ok) => StopHookKeeps(c, m, ok);
    case FinishStop => FinishStopKeeps(c, m);
  }

  lemma RollbackKeeps(c: Config, m: Machine)
    requires Inv(c, m) && Enabled(c, m, Rollback)
    ensures Inv(c, Apply(c, m, Rollback))
  {
    assert CanStop(m.f);
    hide Inv, Apply;
    BeginTeardownKeeps(c, m, Rollback);
  }

  lemma {:induction false} RunKeeps(c: Config, m: Machine, steps: seq<Step>, n: Machine)
    requires Inv(c, m) && Runs(c, m, steps, n)
    ensures Inv(c, n)
    decreases |steps|
  {
    hide Inv, Apply;
    if steps != [] {
      StepKeeps(c, m, steps[0]);
      RunKeeps(c, Apply(c, m, steps[0]), steps[1..], n);
    }
  }

  lemma ReachableInv(c: Config, m: Machine)
    requires Reachable(c, m)
    ensures Inv(c, m)
  {
    var steps :| Runs(c, INITIAL, steps, m);
    RunKeeps(c, INITIAL, steps, m);
  }
}
