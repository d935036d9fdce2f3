/** What the environment promises, over every interleaving of callers, tracks, stages and services. */
module EnvResults {
  import opened EnvProtocol
  import opened EnvTrace
  import opened EnvInvariant
  import opened EnvSteps

  /** A run of a reachable environment: the current one or one that is over. */
  ghost predicate IsRun(c: Config, m: Machine, t: Trace) {
    Reachable(c, m) && (t == m.trace || t in m.past)
  }

  /** What one service can have gone through, at any moment: called, then up or broken, then called to
      stop, then down. */
  predicate Shape(ks: seq<Kind>) {
    && |ks| <= 4
    && (|ks| > 0 ==> ks[0].Called?)
    && (|ks| > 1 ==> ks[1].Came? || ks[1].Broke?)
    && (|ks| > 2 ==> ks[1].Came? && ks[2].StopCalled?)
    && (|ks| > 3 ==> ks[3].StopDone?)
  }

  lemma RunFacts(c: Config, m: Machine, t: Trace)
    requires IsRun(c, m, t)
    ensures Ordered(c, t)
    ensures forall p: Pos :: Shape(Proj(t, p)) && (Proj(t, p) != [] ==> IsService(c, p))
  {
    ReachableInv(c, m);
    if t in m.past {
      var i :| 0 <= i < |m.past| && m.past[i] == t;
      assert GoodRun(c, t);
    } else if m.f.phase.Idle? {
      assert t == [];
    } else {
      forall p: Pos ensures Shape(Proj(t, p)) && (Proj(t, p) != [] ==> IsService(c, p)) {
        assert Proj(t, p) == Story(Stat(m.status, p));
      }
    }
  }

  // ---------- Rollback and teardown ----------

  /** Exactness of every run that is over, however it ended: no service is left in its Start or its
      Stop; a service was stopped exactly once if its Start returned nil, and never otherwise; one Stop
      call did the teardown; every AfterStop hook ran exactly once, in order; Start reported an error
      exactly if a service or an AfterStart hook failed, and otherwise had brought every service up. */
  lemma RunsEndExactly(c: Config, m: Machine, t: Trace, p: Pos)
    requires Reachable(c, m) && t in m.past
    ensures var ks := Proj(t, p);
            && ks != [Called] && |ks| != 3
            && multiset(ks)[StopCalled] == (if HasStarted(t, p) then 1 else 0)
            && (HasStarted(t, p) <==> HasStopped(t, p))
            && (multiset(ks)[Called] == 1 <==> HasStarted(t, p) || Broke in ks)
            && multiset(ks)[Called] <= 1
    ensures Wins(t) == 1 && Downs(t) == Iota(c.hooks)
    ensures StartErr in t <==> HookFailed(t) || SomeBroke(t)
    ensures StartErr !in t && IsService(c, p) ==> HasStarted(t, p)
  {
    ReachableInv(c, m);
    var i :| 0 <= i < |m.past| && m.past[i] == t;
    assert GoodRun(c, t);
    hide Inv, Reachable, Ordered, Proj, SomeBroke, Wins, Downs, HookFailed;
    ClosedCounts(Proj(t, p));
  }

  lemma ClosedCounts(ks: seq<Kind>)
    requires Closed(ks)
    ensures ks != [Called] && |ks| != 3
    ensures multiset(ks)[StopCalled] == (if |ks| >= 2 && ks[1].Came? then 1 else 0)
    ensures multiset(ks)[Called] == (if |ks| >= 2 then 1 else 0)
    ensures Broke in ks <==> |ks| >= 2 && ks[1].Broke?
  {
    if |ks| == 4 {
      assert ks == [ks[0], ks[1], ks[2], ks[3]];
    }
  }

  /** Start returns an error only together with the environment going idle, all fields reset, and the
      error is the last thing the run reports. */
  lemma ErrorMeansIdle(c: Config, m: Machine, step: Step)
    requires Reachable(c, m) && Enabled(c, m, step) && Disciplined(m, step)
    requires !m.starter.NoStart? && !m.starter.Hooking? && Apply(c, m, step).starter.NoStart?
    ensures var n := Apply(c, m, step);
            && n.f == AT_REST && n.stopper.NoStop?
            && n.past == m.past + [m.trace + [StartErr]]
  {
    ReachableInv(c, m);
  }

  /** Properties exist exactly while the environment is not idle, and nothing ever panics: every
      recording of a started service is in bounds, every merge goes into a live map. */
  lemma NeverCrashes(c: Config, m: Machine)
    requires Reachable(c, m)
    ensures !m.crashed
    ensures m.f.properties == None <==> m.f.phase == Idle
    ensures forall p :: Stat(m.status, p).InStart? ==> CanPublish(m.f, p)
  {
    ReachableInv(c, m);
    forall p | Stat(m.status, p).InStart? ensures CanPublish(m.f, p) {
      assert !m.f.phase.Idle? && IsService(c, p);
    }
  }

  /** As Runs, for callers that keep no discipline. */
  ghost predicate Undisciplined(c: Config, m: Machine, steps: seq<Step>, n: Machine)
    decreases |steps|
  {
    if steps == [] then m == n
    else Enabled(c, m, steps[0]) && Undisciplined(c, Apply(c, m, steps[0]), steps[1..], n)
  }

  const ONE := Config([[["svc"]]], 0)
  const SVC := Pos(0, 0, 0)
  const IN_START := Machine(Fields(Starting, Some(map[]), [[[]]]), map[SVC := InStart], [Track(0, false)], Bringing,
                            NoStop, [Svc(SVC, Called)], [], false)
  const TORN_DOWN := IN_START.(f := Fields(Stopping, Some(map[]), [[[]]]), stopper := HookingDown(0, map[]),
                               trace := [Svc(SVC, Called), StopWon])

  lemma OneService()
    ensures IsService(ONE, SVC) && forall p :: IsService(ONE, p) ==> p == SVC
  {}

  lemma CubeOfOne()
    ensures EmptyCube(ONE) == [[[]]]
  {
    assert EmptyCube(ONE)[0] == [[]];
  }

  lemma ReachInStart()
    ensures Reachable(ONE, IN_START)
  {
    OneService();
    var m := Apply(ONE, INITIAL, CallEnvStart);
    CubeOfOne();
    assert Apply(ONE, m, CallStart(SVC)) == IN_START;
    var steps := [CallEnvStart, CallStart(SVC)];
    assert steps[1..][1..] == [] && Runs(ONE, IN_START, [], IN_START);
    assert Runs(ONE, m, steps[1..], IN_START);
    assert Runs(ONE, INITIAL, steps, IN_START);
  }

  const TEARING := TORN_DOWN.(stopper := Tearing([[[]]], [1]))
  const TORN := TORN_DOWN.(stopper := Tearing([[[]]], [0]))

  lemma StopUnderIt()
    ensures Enabled(ONE, IN_START, CallEnvStop) && Apply(ONE, IN_START, CallEnvStop) == TEARING
  {
    assert BeginTeardown(IN_START).stopper.left == [1];
  }

  lemma StageUnderIt()
    ensures Enabled(ONE, TEARING, PrevStage(0)) && Apply(ONE, TEARING, PrevStage(0)) == TORN
  {
    assert [1][0 := 0] == [0];
  }

  lemma JoinUnderIt()
    ensures Enabled(ONE, TORN, JoinStops) && Apply(ONE, TORN, JoinStops) == TORN_DOWN
  {}

  lemma TearDownUnderIt()
    ensures Enabled(ONE, IN_START, CallEnvStop)
    ensures Undisciplined(ONE, Apply(ONE, IN_START, CallEnvStop), [PrevStage(0), JoinStops], TORN_DOWN)
  {
    StopUnderIt();
    StageUnderIt();
    JoinUnderIt();
    hide Enabled, Apply;
    var steps := [PrevStage(0), JoinStops];
    assert steps[1..][1..] == [] && Undisciplined(ONE, TORN_DOWN, [], TORN_DOWN);
    assert Undisciplined(ONE, TORN, steps[1..], TORN_DOWN);
  }

  /** The discipline is needed: in a reachable state where a service is in its Start, a Stop call can
      run to its end, and the service's return from Start then panics. */
  lemma StopDuringStartCrashes()
    ensures Reachable(ONE, IN_START) && Enabled(ONE, IN_START, CallEnvStop) && !Disciplined(IN_START, CallEnvStop)
    ensures Undisciplined(ONE, Apply(ONE, IN_START, CallEnvStop), [PrevStage(0), JoinStops], TORN_DOWN)
    ensures Enabled(ONE, TORN_DOWN, FinishStop)
    ensures var idle := Apply(ONE, TORN_DOWN, FinishStop);
            && idle.f.phase == Idle
            && Enabled(ONE, idle, StartSucceeds(SVC, map[])) && Apply(ONE, idle, StartSucceeds(SVC, map[])).crashed
  {
    ReachInStart();
    TearDownUnderIt();
  }

  // ---------- Accepted Starts, won Stops, hooks ----------

  /** How many Start calls among `steps` were accepted. */
  ghost function Accepted(c: Config, m: Machine, steps: seq<Step>): nat
    decreases |steps|
  {
    if steps == [] || !Enabled(c, m, steps[0]) then 0
    else (if steps[0].CallEnvStart? && m.f.phase.Idle? && UniqueNames(c) then 1 else 0)
         + Accepted(c, Apply(c, m, steps[0]), steps[1..])
  }

  function RunsSoFar(m: Machine): nat {
    |m.past| + if m.f.phase.Idle? then 0 else 1
  }

  lemma StepCounts(c: Config, m: Machine, step: Step)
    requires Inv(c, m) && Enabled(c, m, step) && Disciplined(m, step)
    ensures RunsSoFar(Apply(c, m, step))
         == RunsSoFar(m) + if step.CallEnvStart? && m.f.phase.Idle? && UniqueNames(c) then 1 else 0
  {
    hide InRun, GoodRun;
    assert m.starter.Aborting? ==> CanStop(m.f);
    assert step.StartSucceeds? ==> !m.f.phase.Idle? by {
      AtRestMeansNoStart(c, m);
    }
  }

  lemma AtRestMeansNoStart(c: Config, m: Machine)
    requires Inv(c, m)
    ensures m.f.phase.Idle? ==> forall p :: !Stat(m.status, p).InStart?
  {}

  lemma {:induction false} AcceptedFrom(c: Config, m: Machine, steps: seq<Step>, n: Machine)
    requires Inv(c, m) && Runs(c, m, steps, n)
    ensures RunsSoFar(n) == RunsSoFar(m) + Accepted(c, m, steps)
    decreases |steps|
  {
    hide Inv, Apply, RunsSoFar;
    if steps != [] {
      StepCounts(c, m, steps[0]);
      StepKeeps(c, m, steps[0]);
      AcceptedFrom(c, Apply(c, m, steps[0]), steps[1..], n);
    }
  }

  /** How often hook i's AfterStop has run, over all runs that are over. */
  function HookCount(past: seq<Trace>, i: nat): nat {
    if past == [] then 0 else HookCount(past[..|past| - 1], i) + multiset(Downs(past[|past| - 1]))[i]
  }

  lemma {:induction false} IotaOnce(n: nat, i: nat)
    ensures multiset(Iota(n))[i] == if i < n then 1 else 0
  {
    if n > 0 {
      IotaOnce(n - 1, i);
    }
  }

  lemma {:induction false} HooksOnce(c: Config, past: seq<Trace>, i: nat)
    requires forall k :: 0 <= k < |past| ==> GoodRun(c, past[k])
    ensures HookCount(past, i) == if i < c.hooks then |past| else 0
  {
    if past != [] {
      assert GoodRun(c, past[|past| - 1]);
      HooksOnce(c, past[..|past| - 1], i);
      IotaOnce(c.hooks, i);
    }
  }

  /** Balance: whenever the environment is idle, every accepted Start has had its teardown, and every
      hook's AfterStop has run exactly as often as Start was accepted. */
  lemma BalancedTeardown(c: Config, steps: seq<Step>, m: Machine, i: nat)
    requires Runs(c, INITIAL, steps, m) && m.f.phase.Idle? && i < c.hooks
    ensures |m.past| == Accepted(c, INITIAL, steps)
    ensures HookCount(m.past, i) == Accepted(c, INITIAL, steps)
  {
    AcceptedFrom(c, INITIAL, steps, m);
    RunKeeps(c, INITIAL, steps, m);
    HooksOnce(c, m.past, i);
  }

  // ---------- Nested lifetimes ----------

  /** Within a track lifetimes nest: the Start of a service is called only after every service of every
      earlier stage has returned from Start with nil, and the Stop of a service is called only after the
      Stop of every later-stage service that ever started has returned. */
  lemma NestedLifetimes(c: Config, m: Machine, t: Trace, i: nat, q: Pos) returns (k: nat)
    requires IsRun(c, m, t) && i < |t| && t[i].Svc?
    requires (t[i].kind.Called? && Earlier(c, q, t[i].p))
          || (t[i].kind.StopCalled? && Earlier(c, t[i].p, q) && HasStarted(t, q))
    ensures k < i && t[k].Svc? && t[k].p == q
    ensures if t[i].kind.Called? then t[k].kind.Came? else t[k].kind.StopDone?
  {
    RunFacts(c, m, t);
    if t[i].kind.Called? {
      assert HasStarted(t[..i], q);
      k := ProjFind(t[..i], q, 1);
    } else {
      assert HasStopped(t[..i], q);
      k := ProjFind(t[..i], q, 3);
    }
  }
}
