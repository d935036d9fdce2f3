/** The environment as an object: the fields its mutex guards, and each mutex-held region as a method
    that does to them what the protocol's steps say. */
module Env {
  import opened EnvProtocol

  /** p comes before position (t, j, k) in a walk over tracks, stages and services. */
  predicate Before(p: Pos, t: nat, j: nat, k: nat) {
    p.track < t || (p.track == t && (p.stage < j || (p.stage == j && p.slot < k)))
  }

  /** What the walk knows at position (t, j, k): `seen` are exactly the names so far, all different. */
  ghost predicate SeenSoFar(c: Config, seen: set<string>, t: nat, j: nat, k: nat) {
    && (forall p :: IsService(c, p) && Before(p, t, j, k) ==> NameOf(c, p) in seen)
    && (forall n :: n in seen ==> exists p :: IsService(c, p) && Before(p, t, j, k) && NameOf(c, p) == n)
    && (forall p, q ::
          IsService(c, p) && IsService(c, q) && Before(p, t, j, k) && Before(q, t, j, k) && NameOf(c, p) == NameOf(c, q)
          ==> p == q)
  }

  lemma SeenOneMore(c: Config, seen: set<string>, t: nat, j: nat, k: nat)
    requires SeenSoFar(c, seen, t, j, k) && IsService(c, Pos(t, j, k)) && NameOf(c, Pos(t, j, k)) !in seen
    ensures SeenSoFar(c, seen + {NameOf(c, Pos(t, j, k))}, t, j, k + 1)
  {
    var here := Pos(t, j, k);
    assert forall p :: IsService(c, p) && Before(p, t, j, k + 1) ==> Before(p, t, j, k) || p == here;
    forall n | n in seen + {NameOf(c, here)}
      ensures exists p :: IsService(c, p) && Before(p, t, j, k + 1) && NameOf(c, p) == n
    {
      if n in seen {
        var p :| IsService(c, p) && Before(p, t, j, k) && NameOf(c, p) == n;
        assert Before(p, t, j, k + 1);
      } else {
        assert Before(here, t, j, k + 1);
      }
    }
  }

  lemma SeenNextRow(c: Config, seen: set<string>, t: nat, j: nat, k: nat, t': nat, j': nat)
    requires SeenSoFar(c, seen, t, j, k)
    requires forall p :: IsService(c, p) ==> (Before(p, t, j, k) <==> Before(p, t', j', 0))
    ensures SeenSoFar(c, seen, t', j', 0)
  {
    forall n | n in seen ensures exists p :: IsService(c, p) && Before(p, t', j', 0) && NameOf(c, p) == n {
      var p :| IsService(c, p) && Before(p, t, j, k) && NameOf(c, p) == n;
      assert Before(p, t', j', 0);
    }
  }

  lemma SeenTwice(c: Config, seen: set<string>, t: nat, j: nat, k: nat)
    requires SeenSoFar(c, seen, t, j, k) && IsService(c, Pos(t, j, k)) && NameOf(c, Pos(t, j, k)) in seen
    ensures Clash(c, NameOf(c, Pos(t, j, k)))
  {
    var p :| IsService(c, p) && Before(p, t, j, k) && NameOf(c, p) == NameOf(c, Pos(t, j, k));
    assert p != Pos(t, j, k);
  }

  lemma SeenAll(c: Config, seen: set<string>)
    requires SeenSoFar(c, seen, |c.tracks|, 0, 0)
    ensures UniqueNames(c)
  {
    assert forall p :: IsService(c, p) ==> Before(p, |c.tracks|, 0, 0);
  }

  /** Two services share this name. */
  ghost predicate Clash(c: Config, name: string) {
    exists p, q :: IsService(c, p) && IsService(c, q) && p != q && NameOf(c, p) == NameOf(c, q) == name
  }

  /** No name stands at two places. */
  ghost predicate AllDifferent(tracks: seq<seq<seq<string>>>) {
    forall t: nat, j: nat, k: nat, t': nat, j': nat, k': nat ::
      (t < |tracks| && j < |tracks[t]| && k < |tracks[t][j]|
       && t' < |tracks| && j' < |tracks[t']| && k' < |tracks[t'][j']| && tracks[t][j][k] == tracks[t'][j'][k']) ==>
        t == t' && j == j' && k == k'
  }

  lemma UniqueMeansDifferent(c: Config)
    ensures UniqueNames(c) <==> AllDifferent(c.tracks)
  {
    if UniqueNames(c) {
      forall t: nat, j: nat, k: nat, t': nat, j': nat, k': nat |
        && t < |c.tracks| && j < |c.tracks[t]| && k < |c.tracks[t][j]|
        && t' < |c.tracks| && j' < |c.tracks[t']| && k' < |c.tracks[t'][j']|
        && c.tracks[t][j][k] == c.tracks[t'][j'][k']
        ensures t == t' && j == j' && k == k'
      {
        assert NameOf(c, Pos(t, j, k)) == NameOf(c, Pos(t', j', k'));
      }
    }
  }

  /** Looks for a name that two services share. */
  method ValidateServiceNames(c: Config) returns (duplicate: Option<string>)
    ensures duplicate.None? <==> UniqueNames(c)
    ensures duplicate.None? <==> AllDifferent(c.tracks)
    ensures duplicate.Some? ==> Clash(c, duplicate.value)
  {
    var seen: set<string> := {};
    assert SeenSoFar(c, {}, 0, 0, 0);
    hide SeenSoFar, AllDifferent;
    for t := 0 to |c.tracks|
      invariant SeenSoFar(c, seen, t, 0, 0)
    {
      for j := 0 to |c.tracks[t]|
        invariant SeenSoFar(c, seen, t, j, 0)
      {
        for k := 0 to |c.tracks[t][j]|
          invariant SeenSoFar(c, seen, t, j, k)
        {
          var name := c.tracks[t][j][k];
          assert name == NameOf(c, Pos(t, j, k));
          if name in seen {
            SeenTwice(c, seen, t, j, k);
            UniqueMeansDifferent(c);
            return Some(name);
          }
          SeenOneMore(c, seen, t, j, k);
          seen := seen + {name};
        }
        SeenNextRow(c, seen, t, j, |c.tracks[t][j]|, t, j + 1);
      }
      SeenNextRow(c, seen, t, |c.tracks[t]|, 0, t + 1, 0);
    }
    SeenAll(c, seen);
    UniqueMeansDifferent(c);
    return None;
  }

  lemma MoveEntry<K, V>(base: map<K, V>, rest: map<K, V>, k: K)
    requires k in rest
    ensures base[k := rest[k]] + (rest - {k}) == base + rest
    ensures |rest - {k}| < |rest|
  {
    assert (rest - {k}).Keys == rest.Keys - {k};
  }

  /** The entries of `props` are written into `base` one by one, in any order. */
  method Merge(base: Props, props: Props) returns (merged: Props)
    ensures merged == base + props
  {
    merged := base;
    var rest := props;
    while rest != map[]
      invariant merged + rest == base + props
      decreases |rest|
    {
      var k :| k in rest.Keys;
      MoveEntry(merged, rest, k);
      merged := merged[k := rest[k]];
      rest := rest - {k};
    }
    assert merged + map[] == merged;
  }

  class Env {
    const config: Config
    var phase: Phase
    var properties: Option<Props>
    var started: seq<seq<seq<Pos>>>

    ghost function Now(): Fields
      reads this
    {
      Fields(phase, properties, started)
    }

    constructor (config: Config)
      ensures this.config == config && Now() == AT_REST
    {
      this.config := config;
      phase, properties, started := Idle, None, [];
    }

    method BeginStart() returns (ok: bool)
      modifies this
      ensures ok <==> old(phase) == Idle && UniqueNames(config)
      ensures Now() == EnvProtocol.BeginStart(old(Now()), config, UniqueNames(config))
      ensures ok ==> phase == Starting && properties == Some(map[]) && |started| == |config.tracks|
      ensures ok ==> forall t :: 0 <= t < |started| ==> |started[t]| == |config.tracks[t]|
      ensures ok ==> forall t, j :: 0 <= t < |started| && 0 <= j < |started[t]| ==> started[t][j] == []
      ensures !ok ==> unchanged(this)
    {
      if phase != Idle { return false; }
      var duplicate := ValidateServiceNames(config);
      if duplicate.Some? { return false; }
      properties := Some(map[]);
      started := [];
      for t := 0 to |config.tracks|
        invariant |started| == t && forall i :: 0 <= i < t ==> started[i] == seq(|config.tracks[i]|, j => [])
        invariant properties == Some(map[]) && phase == Idle
      {
        started := started + [seq(|config.tracks[t]|, j => [])];
      }
      phase := Starting;
      return true;
    }

    /** A service has started: merge what it published, record it. */
    method Publish(p: Pos, props: Props)
      requires CanPublish(Now(), p)
      modifies this
      ensures Now() == EnvProtocol.Publish(old(Now()), p, props)
    {
      var merged := Merge(properties.value, props);
      properties := Some(merged);
      ghost var was := started;
      RecordStarted(p);
      ghost var row := was[p.track][p.stage := was[p.track][p.stage] + [p]];
      assert forall t :: 0 <= t < |was| ==> started[t] == if t == p.track then row else was[t];
      assert started == was[p.track := row];
    }

    /** The one stage's record is longer by the service; every other stage's is as it was. */
    method RecordStarted(p: Pos)
      requires p.track < |started| && p.stage < |started[p.track]|
      modifies this`started
      ensures |started| == |old(started)| && forall t :: 0 <= t < |started| ==> |started[t]| == |old(started)[t]|
      ensures forall t, j :: 0 <= t < |started| && 0 <= j < |started[t]| && !(t == p.track && j == p.stage) ==>
                started[t][j] == old(started)[t][j]
      ensures started[p.track][p.stage] == old(started)[p.track][p.stage] + [p]
    {
      started := started[p.track := started[p.track][p.stage := started[p.track][p.stage] + [p]]];
    }

    /** All services are up: the run becomes a running environment. */
    method Commit() returns (snapshot: Props)
      modifies this`phase
      ensures Now() == old(Now()).(phase := Running) && snapshot == Snapshot(old(Now()))
    {
      phase := Running;
      snapshot := if properties.Some? then properties.value else map[];
    }

    method BeginStop() returns (copy: seq<seq<seq<Pos>>>, ok: bool)
      modifies this`phase
      ensures ok <==> CanStop(old(Now()))
      ensures ok <==> old(phase) == Running || old(phase) == Starting
      ensures ok ==> copy == started && Now() == old(Now()).(phase := Stopping)
      ensures !ok ==> Now() == old(Now())
    {
      if phase != Running && phase != Starting { return [], false; }
      phase := Stopping;
      copy := [];
      for t := 0 to |started|
        invariant copy == started[..t] && phase == Stopping
      {
        var track := [];
        for j := 0 to |started[t]|
          invariant track == started[t][..j] && phase == Stopping
        {
          track := track + [started[t][j]];
        }
        assert track == started[t];
        copy := copy + [track];
      }
      return copy, true;
    }

    method FinishStop()
      modifies this
      ensures Now() == AT_REST && phase == Idle && properties == None && started == []
    {
      properties := None;
      started := [];
      phase := Idle;
    }

    method Properties() returns (props: Props)
      ensures props == Snapshot(Now())
      ensures properties.Some? ==> props == properties.value
      ensures properties.None? ==> props == map[]
    {
      if properties.None? { return map[]; }
      return properties.value;
    }
  }
}
