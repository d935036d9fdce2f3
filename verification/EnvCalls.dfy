/** What callers of Start and Stop get, and what services and hooks are free to do. */
module EnvCalls {
  import opened EnvProtocol
  import opened EnvTrace
  import opened EnvInvariant
  import opened EnvSteps

  /** A Start call is accepted exactly if the environment is idle and service names are unique. Then a new
      run begins: no properties, nobody started, every track at its first stage. Else nothing changes. */
  lemma StartCall(c: Config, m: Machine)
    requires Reachable(c, m)
    ensures Enabled(c, m, CallEnvStart)
    ensures var n := Apply(c, m, CallEnvStart);
            && (m.f.phase.Idle? && UniqueNames(c) ==>
                  && n.f.phase.Starting? && n.f.properties == Some(map[]) && n.starter.Bringing? && n.trace == []
                  && |n.f.started| == |c.tracks| && |n.tracks| == |c.tracks|
                  && (forall t, j :: 0 <= t < |c.tracks| && 0 <= j < |c.tracks[t]| ==>
                        |n.f.started[t]| == |c.tracks[t]| && n.f.started[t][j] == [])
                  && (forall t :: 0 <= t < |c.tracks| ==> n.tracks[t].stage == 0 && !n.tracks[t].failed)
                  && (forall p: Pos :: Stat(n.status, p).Fresh?))
            && (!m.f.phase.Idle? || !UniqueNames(c) ==> n == m)
  {
    ReachableInv(c, m);
    hide InRun, GoodRun, Reachable;
  }

  /** A Stop call by anybody tears down a running environment: every service that has come up is in the
      teardown's copy, in its own track and stage, and every stage is still to be stopped. On an idle or
      stopping environment it changes nothing. */
  lemma StopCall(c: Config, m: Machine)
    requires Reachable(c, m)
    ensures Enabled(c, m, CallEnvStop)
    ensures var n := Apply(c, m, CallEnvStop);
            && (m.f.phase.Running? ==>
                  && n.f.phase.Stopping? && n.stopper.Tearing? && n.status == m.status
                  && |n.stopper.copy| == |n.stopper.left| == |c.tracks|
                  && (forall t :: 0 <= t < |c.tracks| ==>
                        n.stopper.left[t] == |n.stopper.copy[t]| == |c.tracks[t]|)
                  && (forall p :: IsService(c, p) ==>
                        (p in n.stopper.copy[p.track][p.stage] <==> Stat(m.status, p).Up?)))
            && (m.f.phase.Idle? || m.f.phase.Stopping? ==> n == m)
  {
    ReachableInv(c, m);
    hide Traced, Ordered, Blame, Counted, GoodRun, Reachable;
    if m.f.phase.Running? {
      assert CubeExact(c, m.f.started, m.status) && Torn(c, NoStop, m.f.started, m.status);
      forall p | IsService(c, p)
        ensures p in m.f.started[p.track][p.stage] <==> Stat(m.status, p).Up?
      {
        InCube(c, m.f.started, m.status, p);
      }
    }
  }

  lemma InCube(c: Config, cube: seq<seq<seq<Pos>>>, st: Statuses, p: Pos)
    requires CubeExact(c, cube, st) && Torn(c, NoStop, cube, st) && IsService(c, p)
    ensures p in cube[p.track][p.stage] <==> Stat(st, p).Up?
  {
    if p in cube[p.track][p.stage] {
      var k :| 0 <= k < |cube[p.track][p.stage]| && cube[p.track][p.stage][k] == p;
      assert HasCome(Stat(st, cube[p.track][p.stage][k]));
    }
  }

  /** Services of one stage are called side by side, up and down, whatever the others of the stage or the
      other tracks do. */
  lemma SideBySide(c: Config, m: Machine, p: Pos)
    requires Reachable(c, m) && IsService(c, p)
    ensures m.starter.Bringing? ==> p.track < |m.tracks|
    ensures m.starter.Bringing? && Stat(m.status, p).Fresh? && m.tracks[p.track] == Track(p.stage, false) ==>
              Enabled(c, m, CallStart(p))
    ensures m.stopper.Tearing? ==> p.track < |m.stopper.left|
    ensures m.stopper.Tearing? && Stat(m.status, p).Up? && m.stopper.left[p.track] == p.stage + 1 ==>
              Enabled(c, m, CallStop(p))
  {
    ReachableInv(c, m);
    hide Traced, Ordered, Blame, Counted, GoodRun, Reachable;
  }

  /** A track moves on by itself, up and down: as soon as its own stage has come up, has failed once all of
      it returned, or is down. Start and Stop go on when every track has. */
  lemma TracksMoveAlone(c: Config, m: Machine, t: nat)
    requires Reachable(c, m) && t < |c.tracks|
    ensures m.starter.Bringing? ==> |m.tracks| == |c.tracks|
    ensures m.starter.Bringing? && !m.tracks[t].failed && m.tracks[t].stage < |c.tracks[t]|
            && (forall p :: IsService(c, p) && p.track == t && p.stage == m.tracks[t].stage ==>
                Stat(m.status, p).Up?) ==>
              Enabled(c, m, NextStage(t))
    ensures m.starter.Bringing? && !m.tracks[t].failed && m.tracks[t].stage < |c.tracks[t]|
            && (forall p :: IsService(c, p) && p.track == t && p.stage == m.tracks[t].stage ==>
                  Stat(m.status, p).Up? || Stat(m.status, p).Failed?)
            && (exists p ::
                  IsService(c, p) && p.track == t && p.stage == m.tracks[t].stage && Stat(m.status, p).Failed?) ==>
              Enabled(c, m, TrackFails(t))
    ensures m.stopper.Tearing? ==> |m.stopper.left| == |m.stopper.copy| == |c.tracks|
    ensures m.stopper.Tearing? && 0 < m.stopper.left[t] <= |m.stopper.copy[t]|
            && (forall p :: p in m.stopper.copy[t][m.stopper.left[t] - 1] ==> Stat(m.status, p).Down?) ==>
              Enabled(c, m, PrevStage(t))
  {
    ReachableInv(c, m);
    hide Traced, Ordered, Blame, Counted, GoodRun, Reachable;
  }

  lemma TracksJoin(c: Config, m: Machine)
    requires Reachable(c, m)
    ensures m.starter.Bringing?
            && (forall t :: 0 <= t < |m.tracks| && t < |c.tracks| ==>
                  m.tracks[t].failed || m.tracks[t].stage == |c.tracks[t]|) ==>
              Enabled(c, m, JoinTracks)
    ensures m.stopper.Tearing? && (forall t :: 0 <= t < |m.stopper.left| ==> m.stopper.left[t] == 0) ==>
              Enabled(c, m, JoinStops)
  {
    ReachableInv(c, m);
    hide Traced, Ordered, Blame, Counted, GoodRun, Reachable, CubeExact, Torn;
  }

  /** Every result of a service or hook is possible at any time, and so is a look at the properties. */
  lemma NothingIsRuledOut(c: Config, m: Machine, p: Pos, props: Props, ok: bool)
    ensures Stat(m.status, p).InStart? ==>
              Enabled(c, m, StartSucceeds(p, props)) && Enabled(c, m, StartFails(p)) && Enabled(c, m, ReadProps(p))
    ensures Stat(m.status, p).InStop? ==> Enabled(c, m, StopReturns(p, ok))
    ensures m.starter.Hooking? && m.starter.i < c.hooks ==> Enabled(c, m, StartHook(ok))
    ensures m.stopper.HookingDown? && m.stopper.i < c.hooks ==> Enabled(c, m, StopHook(ok))
  {}
}
