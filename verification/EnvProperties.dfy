/** What services, hooks and the caller of Start see of the published properties. */
module EnvProperties {
  import opened EnvProtocol
  import opened EnvTrace
  import opened EnvInvariant
  import opened EnvResults

  /** What a service has published by the end of `t`. */
  function PropsOf(t: Trace, p: Pos): Option<Props> {
    if HasStarted(t, p) then Some(Proj(t, p)[1].props) else None
  }

  predicate Publishes(t: Trace, p: Pos, k: string) {
    PropsOf(t, p).Some? && k in PropsOf(t, p).value
  }

  /** Key k has at most one publisher per stage, all in one track. */
  ghost predicate Settled(t: Trace, k: string) {
    forall p, q :: Publishes(t, p, k) && Publishes(t, q, k) && p != q ==> p.track == q.track && p.stage != q.stage
  }

  /** No later stage than p's publishes key k. */
  ghost predicate LastOf(t: Trace, p: Pos, k: string) {
    forall q :: Publishes(t, q, k) ==> q.stage <= p.stage
  }

  /** The part of what a run guarantees that this module needs; it holds of every prefix, too. */
  ghost predicate Sound(c: Config, t: Trace) {
    && StartsInOrder(c, t)
    && forall p: Pos :: Shape(Proj(t, p)) && (Proj(t, p) != [] ==> IsService(c, p))
  }

  predicate Writes(e: Event, k: string) {
    e.Svc? && e.kind.Came? && k in e.kind.props
  }

  // ---------- Merging ----------

  /** The last writer of a key decides its value. */
  lemma {:induction false} LastWriter(t: Trace, k: string) returns (i: nat)
    requires k in Merged(t)
    ensures i < |t| && Writes(t[i], k) && Merged(t)[k] == t[i].kind.props[k]
    ensures forall j :: i < j < |t| ==> !Writes(t[j], k)
    decreases |t|
  {
    if Writes(Last(t), k) {
      i := |t| - 1;
    } else {
      i := LastWriter(EnvTrace.Init(t), k);
    }
  }

  lemma {:induction false} WritersShow(t: Trace, i: nat, k: string)
    requires i < |t| && Writes(t[i], k)
    ensures k in Merged(t)
    decreases |t|
  {
    if i < |t| - 1 {
      WritersShow(EnvTrace.Init(t), i, k);
    }
  }

  lemma {:induction false} MergedGrows(t: Trace, i: nat)
    requires i <= |t|
    ensures Merged(t[..i]).Keys <= Merged(t).Keys
    decreases |t|
  {
    if i == |t| {
      assert t[..i] == t;
    } else {
      MergedGrows(EnvTrace.Init(t), i);
      assert EnvTrace.Init(t)[..i] == t[..i];
    }
  }

  // ---------- One publication per service, in stage order ----------

  lemma SoundPrefix(c: Config, t: Trace, i: nat)
    requires Sound(c, t) && i <= |t|
    ensures Sound(c, t[..i])
  {
    forall a, q: Pos | 0 <= a < i && t[a].Svc? && t[a].kind.Called? && Earlier(c, q, t[a].p)
      ensures HasStarted(t[..i][..a], q)
    {
      assert t[..i][..a] == t[..a];
    }
    forall p: Pos ensures Shape(Proj(t[..i], p)) && (Proj(t[..i], p) != [] ==> IsService(c, p)) {
      ProjPrefix(t, i, p);
    }
  }

  /** The event by which a service published is the second thing that happened to it. */
  lemma CameIsSecond(c: Config, t: Trace, i: nat)
    requires Sound(c, t) && i < |t| && t[i].Svc? && t[i].kind.Came?
    ensures Proj(t[..i], t[i].p) == [Called]
    ensures PropsOf(t, t[i].p) == Some(t[i].kind.props)
  {
    var before, ks := Proj(t[..i], t[i].p), Proj(t, t[i].p);
    ProjAt(t, i);
    assert ks[|before|].Came?;
    assert before == ks[..|before|];
  }

  lemma CameOnce(c: Config, t: Trace, i: nat, j: nat)
    requires Sound(c, t) && i < |t| && j < |t| && t[i].Svc? && t[i].kind.Came? && t[j].Svc? && t[j].kind.Came?
    requires t[i].p == t[j].p
    ensures i == j
  {
    CameIsSecond(c, t, i);
    CameIsSecond(c, t, j);
    var lo, hi := if i < j then i else j, if i < j then j else i;
    var before := t[..hi];
    assert before[..lo] == t[..lo];
    if lo < hi {
      ProjAt(before, lo);
    }
  }

  /** Services of an earlier stage have all published before a later-stage service does. */
  lemma CameInStageOrder(c: Config, t: Trace, i: nat, j: nat)
    requires Sound(c, t) && i < |t| && j < |t| && t[i].Svc? && t[i].kind.Came? && t[j].Svc? && t[j].kind.Came?
    requires Earlier(c, t[i].p, t[j].p)
    ensures i < j
  {
    var q, p := t[i].p, t[j].p;
    CameIsSecond(c, t, j);
    var a := ProjFind(t[..j], p, 0);
    assert t[..j][..a] == t[..a];
    assert HasStarted(t[..a], q);
    var b := ProjFind(t[..a], q, 1);
    CameOnce(c, t, i, b);
  }

  lemma WriterOf(c: Config, t: Trace, p: Pos, k: string) returns (i: nat)
    requires Sound(c, t) && Publishes(t, p, k)
    ensures i < |t| && t[i] == Svc(p, Came(PropsOf(t, p).value)) && Writes(t[i], k)
  {
    i := ProjFind(t, p, 1);
  }

  /** For a settled key the latest stage that publishes it wins. */
  lemma LatestStageWins(c: Config, t: Trace, p: Pos, k: string)
    requires Sound(c, t) && Settled(t, k) && Publishes(t, p, k)
    requires LastOf(t, p, k)
    ensures k in Merged(t) && Merged(t)[k] == PropsOf(t, p).value[k]
  {
    var j := WriterOf(c, t, p, k);
    WritersShow(t, j, k);
    var i := LastWriter(t, k);
    CameIsSecond(c, t, i);
    var q := t[i].p;
    if q != p {
      assert Publishes(t, q, k);
      assert Earlier(c, q, p);
      CameInStageOrder(c, t, i, j);
    } else {
      CameOnce(c, t, i, j);
    }
  }

  /** A key is there exactly if some service published it. */
  lemma KeysArePublished(c: Config, t: Trace, k: string)
    requires Sound(c, t)
    ensures k in Merged(t) <==> exists p: Pos :: Publishes(t, p, k)
  {
    if k in Merged(t) {
      var i := LastWriter(t, k);
      CameIsSecond(c, t, i);
      assert Publishes(t, t[i].p, k);
    }
    if p: Pos :| Publishes(t, p, k) {
      var i := WriterOf(c, t, p, k);
      WritersShow(t, i, k);
    }
  }

  // ---------- Main results ----------

  lemma RunIsSound(c: Config, m: Machine, t: Trace)
    requires IsRun(c, m, t)
    ensures Sound(c, t)
  {
    RunFacts(c, m, t);
  }

  /** Stage visibility: a service that reads properties during its Start sees every key published by the
      services of earlier stages of its track, and, for a settled key, the value published last in stage
      order. */
  lemma EarlierStagesAreVisible(c: Config, m: Machine, t: Trace, i: nat, q: Pos)
    requires IsRun(c, m, t) && i < |t| && t[i].Read? && Earlier(c, q, t[i].p)
    ensures PropsOf(t[..i], q).Some? && PropsOf(t[..i], q).value.Keys <= t[i].seen.Keys
    ensures forall k :: Settled(t[..i], k) && Publishes(t[..i], q, k) && LastOf(t[..i], q, k) ==>
              t[i].seen[k] == PropsOf(t[..i], q).value[k]
  {
    RunFacts(c, m, t);
    RunIsSound(c, m, t);
    SoundPrefix(c, t, i);
    var u := t[..i];
    var a := ProjFind(u, t[i].p, 0);
    assert u[..a] == t[..a];
    assert HasStarted(t[..a], q);
    ProjPrefix(u, a, q);
    assert Seen(t[i]) == Some(Merged(u));
    forall k | Publishes(u, q, k)
      ensures k in t[i].seen
      ensures Settled(u, k) && LastOf(u, q, k) ==> t[i].seen[k] == PropsOf(u, q).value[k]
    {
      KeysArePublished(c, u, k);
      if Settled(u, k) && LastOf(u, q, k) {
        LatestStageWins(c, u, q, k);
      }
    }
  }

  /** The visible keys only ever grow during a run, whoever looks. */
  lemma VisibleKeysGrow(c: Config, m: Machine, t: Trace, i: nat, j: nat)
    requires IsRun(c, m, t) && i <= j < |t| && Seen(t[i]).Some? && Seen(t[j]).Some?
    ensures Seen(t[i]).value.Keys <= Seen(t[j]).value.Keys
  {
    RunFacts(c, m, t);
    MergedGrows(t[..j], i);
    assert t[..j][..i] == t[..i];
  }

  lemma SameLastWriter(c: Config, t: Trace, u: Trace, k: string)
    requires Sound(c, t) && Sound(c, u) && Settled(t, k)
    requires forall p: Pos :: PropsOf(t, p) == PropsOf(u, p)
    requires k in Merged(t) && k in Merged(u)
    ensures Merged(t)[k] == Merged(u)[k]
  {
    var i := LastWriter(t, k);
    var j := LastWriter(u, k);
    CameIsSecond(c, t, i);
    CameIsSecond(c, u, j);
    var p, q := t[i].p, u[j].p;
    if p != q {
      assert Publishes(t, p, k) && Publishes(t, q, k) && Publishes(u, p, k);
      var i' := WriterOf(c, t, q, k);
      var j' := WriterOf(c, u, p, k);
      if p.stage < q.stage {
        CameInStageOrder(c, t, i, i');
      } else {
        CameInStageOrder(c, u, j, j');
      }
    }
  }

  /** Confluence: two runs in which the services published the same end up with the same properties,
      whatever the interleavings, if every key is settled; in particular if no two services publish the
      same key. */
  lemma Confluence(c: Config, t: Trace, u: Trace)
    requires Sound(c, t) && Sound(c, u)
    requires forall p: Pos :: PropsOf(t, p) == PropsOf(u, p)
    requires forall k :: Settled(t, k)
    ensures Merged(t) == Merged(u)
  {
    forall k ensures k in Merged(t) <==> k in Merged(u) {
      KeysArePublished(c, t, k);
      KeysArePublished(c, u, k);
      assert forall p: Pos :: Publishes(t, p, k) <==> Publishes(u, p, k);
    }
    forall k | k in Merged(t) ensures Merged(t)[k] == Merged(u)[k] {
      SameLastWriter(c, t, u, k);
    }
  }

  /** What Start returns is determined by what the services published: two successful Starts of one
      configuration return the same snapshot, however their steps interleaved. */
  lemma StartIsDeterministic(c: Config, m: Machine, t: Trace, i: nat, n: Machine, u: Trace, j: nat)
    requires IsRun(c, m, t) && i < |t| && t[i].StartOk?
    requires IsRun(c, n, u) && j < |u| && u[j].StartOk?
    requires forall p: Pos :: PropsOf(t[..i], p) == PropsOf(u[..j], p)
    requires forall k :: Settled(t[..i], k)
    ensures t[i].snapshot == u[j].snapshot
  {
    RunFacts(c, m, t);
    RunFacts(c, n, u);
    SoundPrefix(c, t, i);
    SoundPrefix(c, u, j);
    Confluence(c, t[..i], u[..j]);
    assert Seen(t[i]) == Some(Merged(t[..i])) && Seen(u[j]) == Some(Merged(u[..j]));
  }

  /** With pairwise disjoint key sets the snapshot is the union of what was published. */
  lemma DisjointKeysGiveUnion(c: Config, m: Machine, t: Trace, i: nat, p: Pos, k: string)
    requires IsRun(c, m, t) && i < |t| && t[i].StartOk?
    requires forall q, r, x :: Publishes(t[..i], q, x) && Publishes(t[..i], r, x) ==> q == r
    ensures Publishes(t[..i], p, k) ==> k in t[i].snapshot && t[i].snapshot[k] == PropsOf(t[..i], p).value[k]
    ensures k in t[i].snapshot ==> exists q: Pos :: Publishes(t[..i], q, k)
  {
    RunFacts(c, m, t);
    SoundPrefix(c, t, i);
    assert Seen(t[i]) == Some(Merged(t[..i]));
    KeysArePublished(c, t[..i], k);
    if Publishes(t[..i], p, k) {
      LatestStageWins(c, t[..i], p, k);
    }
  }

  /** The properties once two services that are both in their Start have published, p first. */
  ghost function AfterBoth(c: Config, m: Machine, p: Pos, a: Props, q: Pos, b: Props): Option<Props>
    requires p != q && Enabled(c, m, StartSucceeds(p, a)) && Enabled(c, m, StartSucceeds(q, b))
  {
    Apply(c, Apply(c, m, StartSucceeds(p, a)), StartSucceeds(q, b)).f.properties
  }

  lemma MergesCommuteExactly(base: Props, a: Props, b: Props)
    ensures base + a + b == base + b + a <==> forall k :: k in a && k in b ==> a[k] == b[k]
  {
    if k :| k in a && k in b && a[k] != b[k] {
      assert (base + a + b)[k] == b[k] && (base + b + a)[k] == a[k];
    } else {
      assert base + a + b == base + b + a;
    }
  }

  /** Exactly when the order of two concurrent publications matters: for keys both publish with
      different values. So keys shared by concurrent services have no settled value. */
  lemma OrderMattersExactly(c: Config, m: Machine, p: Pos, a: Props, q: Pos, b: Props)
    requires Reachable(c, m) && p != q && Enabled(c, m, StartSucceeds(p, a)) && Enabled(c, m, StartSucceeds(q, b))
    ensures AfterBoth(c, m, p, a, q, b) == AfterBoth(c, m, q, b, p, a)
       <==> forall k :: k in a && k in b ==> a[k] == b[k]
  {
    NeverCrashes(c, m);
    var base := m.f.properties.value;
    assert AfterBoth(c, m, p, a, q, b) == Some(base + a + b);
    assert AfterBoth(c, m, q, b, p, a) == Some(base + b + a);
    MergesCommuteExactly(base, a, b);
  }
}
