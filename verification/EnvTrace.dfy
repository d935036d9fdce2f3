/** Reading a run's trace: what one service went through, what the services published so far add up to,
    and the orderings a run promises. */
module EnvTrace {
  import opened EnvProtocol

  type Trace = seq<Event>

  function Last(t: Trace): Event
    requires t != []
  {
    t[|t| - 1]
  }

  function Init(t: Trace): Trace
    requires t != []
  {
    t[..|t| - 1]
  }

  /** What happened to one service, in order. */
  function Proj(t: Trace, p: Pos): seq<Kind> {
    if t == [] then []
    else if Last(t).Svc? && Last(t).p == p then Proj(Init(t), p) + [Last(t).kind]
    else Proj(Init(t), p)
  }

  /** The properties published so far, later ones over earlier ones. */
  function Merged(t: Trace): Props {
    if t == [] then map[]
    else if Last(t).Svc? && Last(t).kind.Came? then Merged(Init(t)) + Last(t).kind.props
    else Merged(Init(t))
  }

  /** The AfterStop calls, by hook. */
  function Downs(t: Trace): seq<nat> {
    if t == [] then []
    else if Last(t).HookDown? then Downs(Init(t)) + [Last(t).i]
    else Downs(Init(t))
  }

  /** How many Stop calls got past beginStop. */
  function Wins(t: Trace): nat {
    if t == [] then 0 else Wins(Init(t)) + if Last(t).StopWon? then 1 else 0
  }

  predicate HookFailed(t: Trace) {
    t != [] && (HookFailed(Init(t)) || (Last(t).HookUp? && !Last(t).ok))
  }

  function Iota(n: nat): seq<nat> {
    if n == 0 then [] else Iota(n - 1) + [n - 1]
  }

  /** The service's Start has returned nil. */
  predicate HasStarted(t: Trace, p: Pos) {
    var ks := Proj(t, p);
    |ks| >= 2 && ks[1].Came?
  }

  /** The service's Stop has returned. */
  predicate HasStopped(t: Trace, p: Pos) {
    var ks := Proj(t, p);
    |ks| >= 4 && ks[3].StopDone?
  }

  // ---------- The orderings ----------

  predicate Earlier(c: Config, q: Pos, p: Pos) {
    IsService(c, q) && IsService(c, p) && q.track == p.track && q.stage < p.stage
  }

  /** Whenever a service's Start is called, all services of earlier stages of its track have started. */
  ghost predicate StartsInOrder(c: Config, t: Trace) {
    forall i, q: Pos :: 0 <= i < |t| && t[i].Svc? && t[i].kind.Called? && Earlier(c, q, t[i].p) ==>
        HasStarted(t[..i], q)
  }

  /** Whenever a service's Stop is called, all services of later stages of its track that ever start have
      stopped. */
  ghost predicate StopsInOrder(c: Config, t: Trace) {
    forall i, q: Pos :: 0 <= i < |t| && t[i].Svc? && t[i].kind.StopCalled? && Earlier(c, t[i].p, q) && HasStarted(t, q)
      ==> HasStopped(t[..i], q)
  }

  /** The properties an event shows to a service, a hook or the caller of Start. */
  function Seen(e: Event): Option<Props> {
    match e
    case Read(_, seen) => Some(seen)
    case HookUp(_, seen, _) => Some(seen)
    case HookDown(_, seen, _) => Some(seen)
    case StartOk(snapshot) => Some(snapshot)
    case _ => None
  }

  /** Whoever reads properties sees exactly what was published by then. */
  ghost predicate SeesMerged(t: Trace) {
    forall i :: 0 <= i < |t| && Seen(t[i]).Some? ==> Seen(t[i]).value == Merged(t[..i])
  }

  /** Services only read during their own Start. */
  ghost predicate ReadsInStart(t: Trace) {
    forall i :: 0 <= i < |t| && t[i].Read? ==> Proj(t[..i], t[i].p) == [Called]
  }

  // ---------- Proj and prefixes ----------

  lemma ProjAppend(t: Trace, e: Event, p: Pos)
    ensures Proj(t + [e], p) == if e.Svc? && e.p == p then Proj(t, p) + [e.kind] else Proj(t, p)
  {
    assert Init(t + [e]) == t;
  }

  lemma {:induction false} ProjPrefix(t: Trace, i: nat, p: Pos)
    requires i <= |t|
    ensures Proj(t[..i], p) <= Proj(t, p)
    decreases |t|
  {
    if i < |t| {
      assert Init(t)[..i] == t[..i];
      ProjPrefix(Init(t), i, p);
    } else {
      assert t[..i] == t;
    }
  }

  /** An event of p sits in Proj right after what went before it. */
  lemma ProjAt(t: Trace, i: nat)
    requires i < |t| && t[i].Svc?
    ensures Proj(t[..i], t[i].p) + [t[i].kind] <= Proj(t, t[i].p)
  {
    hide Proj;
    var before, p := t[..i], t[i].p;
    assert t[..i + 1] == before + [t[i]];
    ProjAppend(before, t[i], p);
    ProjPrefix(t, i + 1, p);
  }

  /** Every entry of Proj is an event of the trace, and the entries before it precede that event. */
  lemma {:induction false} ProjFind(t: Trace, p: Pos, k: nat) returns (i: nat)
    requires k < |Proj(t, p)|
    ensures i < |t| && t[i] == Svc(p, Proj(t, p)[k]) && Proj(t[..i], p) == Proj(t, p)[..k]
    decreases |t|
  {
    var s := Init(t);
    if k < |Proj(s, p)| {
      i := ProjFind(s, p, k);
      assert s[..i] == t[..i];
    } else {
      i := |t| - 1;
    }
  }

  lemma AppendStarts(c: Config, t: Trace, e: Event)
    requires StartsInOrder(c, t)
    requires e.Svc? && e.kind.Called? ==> forall q :: Earlier(c, q, e.p) ==> HasStarted(t, q)
    ensures StartsInOrder(c, t + [e])
  {
    var u := t + [e];
    forall i, q: Pos | 0 <= i < |u| && u[i].Svc? && u[i].kind.Called? && Earlier(c, q, u[i].p)
      ensures HasStarted(u[..i], q)
    {
      assert u[..i] == t[..i];
      if i == |t| { assert t[..i] == t; }
    }
  }

  lemma AppendStops(c: Config, t: Trace, e: Event)
    requires StopsInOrder(c, t)
    requires e.Svc? && e.kind.Came? ==> forall i :: 0 <= i < |t| ==> !(t[i].Svc? && t[i].kind.StopCalled?)
    requires e.Svc? && e.kind.StopCalled? ==> forall q :: Earlier(c, e.p, q) && HasStarted(t, q) ==> HasStopped(t, q)
    ensures StopsInOrder(c, t + [e])
  {
    var u := t + [e];
    forall i, q: Pos | 0 <= i < |u| && u[i].Svc? && u[i].kind.StopCalled? && Earlier(c, u[i].p, q) && HasStarted(u, q)
      ensures HasStopped(u[..i], q)
    {
      assert u[..i] == t[..i];
      ProjAppend(t, e, q);
      if i == |t| {
        assert t[..i] == t;
      } else {
        assert t[i] == u[i];
        assert HasStarted(t, q);
      }
    }
  }

  lemma AppendReads(t: Trace, e: Event)
    requires SeesMerged(t) && ReadsInStart(t)
    requires Seen(e).Some? ==> Seen(e).value == Merged(t)
    requires e.Read? ==> Proj(t, e.p) == [Called]
    ensures SeesMerged(t + [e]) && ReadsInStart(t + [e])
  {
    var u := t + [e];
    assert forall i :: 0 <= i < |t| ==> u[..i] == t[..i];
    assert u[..|t|] == t;
  }
}
