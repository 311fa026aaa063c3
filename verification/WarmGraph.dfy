/** The server's warm knowledge graph: a cache trusted only while a watcher invalidates it.

    `WarmGraph` is the holder; each of its methods is one critical section of `w.mu`.  The step
    system below interleaves those sections over any number of `Get` callers, the watcher's
    follower, the background reload loop and the capacity-1 reload channel.

    A graph is known by the moment its rebuild began.  Moments are counted by a clock that
    moves with every step, so "began after the last invalidation" is a comparison of moments
    and does not mention the generation counter the code uses.
 */
module WarmGraphCache {
  import opened Options

  datatype Graph = Graph(began: nat)

  /** The fields guarded by `w.mu`. */
  datatype Cache = Cache(graph: Option<Graph>, valid: bool, watching: bool, gen: nat)

  const COLD: Cache := Cache(None, false, false, 0)

  function Cached(c: Cache): Option<Graph> {
    if c.watching && c.valid then c.graph else None
  }

  function Invalidated(c: Cache): Cache {
    Cache(None, false, c.watching, c.gen + 1)
  }

  function Stopped(c: Cache): Cache {
    Cache(None, false, false, c.gen)
  }

  /** The end of a rebuild that read `startGen` and `saw` before it began. */
  function Published(c: Cache, startGen: nat, saw: bool, g: Graph): Cache {
    if saw && c.gen == startGen then Cache(Some(g), true, c.watching, c.gen)
    else Cache(None, false, c.watching, c.gen)
  }

  // ----- what a snapshot is good for -----

  /** The critical sections that may come between a snapshot and its publish. */
  datatype Section = Invalidation | WatchStarts | WatchStops | OtherPublish(startGen: nat, saw: bool, g: Graph)

  function Enter(c: Cache, section: Section): Cache {
    match section
    case Invalidation => Invalidated(c)
    case WatchStarts => c.(watching := true)
    case WatchStops => Stopped(c)
    case OtherPublish(startGen, saw, g) => Published(c, startGen, saw, g)
  }

  function EnterAll(c: Cache, sections: seq<Section>): Cache
    decreases |sections|
  {
    if sections == [] then c else EnterAll(Enter(c, sections[0]), sections[1..])
  }

  lemma {:induction false} GenerationCounts(c: Cache, sections: seq<Section>)
    ensures c.gen <= EnterAll(c, sections).gen
    ensures EnterAll(c, sections).gen == c.gen <==> Invalidation !in sections
    decreases |sections|
  {
    if sections != [] {
      GenerationCounts(Enter(c, sections[0]), sections[1..]);
    }
  }

  /**
   * A rebuild is believed if and only if the watcher was active at its snapshot and no invalidation
   * came since, whatever else did; and it answers callers if and only if, besides, the watcher is
   * active at the publish.
   */
  lemma BelievedIffUndisturbed(c: Cache, sections: seq<Section>, g: Graph)
    ensures var d := EnterAll(c, sections);
            var e := Published(d, c.gen, c.watching, g);
            && (e.valid <==> c.watching && Invalidation !in sections)
            && (Cached(e) == Some(g) <==> c.watching && d.watching && Invalidation !in sections)
            && (e.valid ==> e.graph == Some(g)) && (!e.valid ==> Cached(e) == None)
  {
    GenerationCounts(c, sections);
  }

  /** The holder: its mutators are the critical sections above, so `BelievedIffUndisturbed` says what
      a `Snapshot` and a later `Publish` come to, whatever runs between them. */
  class WarmGraph {
    var graph: Option<Graph>
    var valid: bool
    var watching: bool
    var gen: nat

    ghost function Value(): Cache
      reads this
    {
      Cache(graph, valid, watching, gen)
    }

    constructor ()
      ensures Value() == COLD
    {
      graph, valid, watching, gen := None, false, false, 0;
    }

    method GetCached() returns (g: Option<Graph>)
      ensures g == Cached(Value())
      ensures g.Some? ==> watching && valid && graph == g
    {
      if watching && valid {
        return graph;
      }
      return None;
    }

    method Snapshot() returns (startGen: nat, saw: bool)
      ensures startGen == gen && saw == watching
    {
      return gen, watching;
    }

    method Publish(startGen: nat, saw: bool, g: Graph)
      modifies this`graph, this`valid
      ensures Value() == Enter(old(Value()), OtherPublish(startGen, saw, g))
    {
      if saw && gen == startGen {
        graph, valid := Some(g), true;
      } else {
        graph, valid := None, false;
      }
    }

    method Invalidate()
      modifies this`graph, this`valid, this`gen
      ensures Value() == Enter(old(Value()), Invalidation)
      ensures Cached(Value()).None?
    {
      valid, graph := false, None;
      gen := gen + 1;
    }

    method StartWatching()
      modifies this`watching
      ensures Value() == Enter(old(Value()), WatchStarts)
    {
      watching := true;
    }

    method StopWatching()
      modifies this`graph, this`valid, this`watching
      ensures Value() == Enter(old(Value()), WatchStops)
      ensures Cached(Value()).None?
    {
      watching, valid, graph := false, false, None;
    }
  }
}

module WarmGraphProtocol {
  import opened Options
  import opened WarmGraphCache

  type Tid = nat

  datatype Res = Ok(g: Graph, fromCache: bool) | Err

  /** Where a `Get` stands. */
  datatype Pc =
    | Begun(refresh: bool)
    | WantMu(refresh: bool)                            // missed, or refresh
    | HasMu(refresh: bool)                             // has buildMu, has not looked again
    | Ready(refresh: bool)                             // will rebuild
    | Snapped(startGen: nat, saw: bool)                // read gen and watching
    | Building(startGen: nat, saw: bool, began: nat)   // rebuild is running
    | Built(startGen: nat, saw: bool, g: Graph)
    | Leaving(res: Res)                                // about to release buildMu
    | Done(res: Res)

  predicate InMu(pc: Pc) {
    !pc.Begun? && !pc.WantMu? && !pc.Done?
  }

  predicate PostSnap(pc: Pc) {
    pc.Snapped? || pc.Building? || pc.Built?
  }

  datatype Loop = LoopAbsent | Idle | Settling | Rebuilding(t: Tid) | LoopExited

  /** `watch` sets watching, spawns the loop, requests the first build, spawns the follower. */
  datatype Follow = Unwatched | Trusting | LoopSpawned | Following | BetweenInvalidateAndRequest | FollowStopped

  datatype State = State(
    c: Cache, now: nat, lastInval: nat,
    mu: Option<Tid>, th: map<Tid, Pc>,
    token: bool, loop: Loop, follow: Follow, bgFailed: bool)

  const INIT: State := State(COLD, 1, 0, None, map[], false, LoopAbsent, Unwatched, false)

  datatype Action =
    | Spawn(t: Tid, refresh: bool)
    | CheckFirst(t: Tid)
    | LockMu(t: Tid)
    | CheckAgain(t: Tid)
    | Snap(t: Tid)
    | BeginBuild(t: Tid)
    | BuildOk(t: Tid)
    | BuildErr(t: Tid)
    | Publish(t: Tid)
    | UnlockMu(t: Tid)
    | WatchTrust | WatchSpawnLoop | WatchRequest
    | FollowInvalidate | FollowRequest | FollowStop
    | LoopTake | LoopMore | LoopFire(t: Tid) | LoopDone | LoopExit

  predicate Enabled(s: State, a: Action) {
    match a
    case Spawn(t, _) => t !in s.th
    case CheckFirst(t) => t in s.th && s.th[t].Begun?
    case LockMu(t) => t in s.th && s.th[t].WantMu? && s.mu.None?
    case CheckAgain(t) => t in s.th && s.th[t].HasMu?
    case Snap(t) => t in s.th && s.th[t].Ready?
    case BeginBuild(t) => t in s.th && s.th[t].Snapped?
    case BuildOk(t) => t in s.th && s.th[t].Building?
    case BuildErr(t) => t in s.th && s.th[t].Building?
    case Publish(t) => t in s.th && s.th[t].Built?
    case UnlockMu(t) => t in s.th && s.th[t].Leaving?
    case WatchTrust => s.follow == Unwatched
    case WatchSpawnLoop => s.follow == Trusting
    case WatchRequest => s.follow == LoopSpawned
    case FollowInvalidate => s.follow == Following
    case FollowRequest => s.follow == BetweenInvalidateAndRequest
    case FollowStop => s.follow == Following
    case LoopTake => s.loop == Idle && s.token
    case LoopMore => s.loop == Settling && s.token
    case LoopFire(t) => s.loop == Settling && t !in s.th
    case LoopDone => s.loop.Rebuilding? && s.loop.t in s.th && s.th[s.loop.t].Done?
    case LoopExit => s.loop == Idle || s.loop == Settling
  }

  function Go(s: State, t: Tid, pc: Pc): State {
    s.(th := s.th[t := pc])
  }

  /** The step, before the clock moves. */
  function Effect(s: State, a: Action): State
    requires Enabled(s, a)
  {
    match a
    case Spawn(t, refresh) => Go(s, t, Begun(refresh))
    case CheckFirst(t) =>
      var hit := Cached(s.c);
      if !s.th[t].refresh && hit.Some? then Go(s, t, Done(Ok(hit.value, true))) else Go(s, t, WantMu(s.th[t].refresh))
    case LockMu(t) => Go(s.(mu := Some(t)), t, HasMu(s.th[t].refresh))
    case CheckAgain(t) =>
      var hit := Cached(s.c);
      if !s.th[t].refresh && hit.Some? then Go(s, t, Leaving(Ok(hit.value, true))) else Go(s, t, Ready(s.th[t].refresh))
    case Snap(t) => Go(s, t, Snapped(s.c.gen, s.c.watching))
    case BeginBuild(t) => Go(s, t, Building(s.th[t].startGen, s.th[t].saw, s.now))
    case BuildOk(t) => Go(s, t, Built(s.th[t].startGen, s.th[t].saw, Graph(s.th[t].began)))
    case BuildErr(t) => Go(s, t, Leaving(Err))
    case Publish(t) =>
      var pc := s.th[t];
      Go(s.(c := Published(s.c, pc.startGen, pc.saw, pc.g)), t, Leaving(Ok(pc.g, false)))
    case UnlockMu(t) => Go(s.(mu := None), t, Done(s.th[t].res))
    case WatchTrust => s.(c := s.c.(watching := true), follow := Trusting)
    case WatchSpawnLoop => s.(loop := Idle, follow := LoopSpawned)
    case WatchRequest => s.(token := true, follow := Following)
    case FollowInvalidate =>
      s.(c := Invalidated(s.c), lastInval := s.now, follow := BetweenInvalidateAndRequest)
    case FollowRequest => s.(token := true, follow := Following)
    case FollowStop => s.(c := Stopped(s.c), follow := FollowStopped)
    case LoopTake => s.(token := false, loop := Settling)
    case LoopMore => s.(token := false)
    case LoopFire(t) => Go(s, t, Begun(false)).(loop := Rebuilding(t))
    case LoopDone => s.(loop := Idle, bgFailed := s.th[s.loop.t].res.Err?)
    case LoopExit => s.(loop := LoopExited)
  }

  function Apply(s: State, a: Action): State
    requires Enabled(s, a)
  {
    Effect(s, a).(now := s.now + 1)
  }

  // ----- invariants -----

  /** buildMu is held by exactly the caller inside its section: rebuilds cannot overlap. */
  ghost predicate MuExclusive(s: State) {
    forall t :: t in s.th && InMu(s.th[t]) <==> s.mu == Some(t)
  }

  /** A rebuild whose generation is still current began after the last invalidation. */
  ghost predicate BuildsKnown(s: State) {
    forall t :: t in s.th && PostSnap(s.th[t]) ==>
      && s.th[t].startGen <= s.c.gen
      && (s.th[t].startGen == s.c.gen ==>
            && (s.th[t].Building? ==> s.lastInval < s.th[t].began)
            && (s.th[t].Built? ==> s.lastInval < s.th[t].g.began))
  }

  ghost predicate CacheFresh(s: State) {
    && s.lastInval < s.now
    && (s.c.valid ==> s.c.graph.Some? && s.lastInval < s.c.graph.value.began)
  }

  ghost predicate FreshInv(s: State) {
    MuExclusive(s) && BuildsKnown(s) && CacheFresh(s)
  }

  /** The steps of a `Get`. */
  predicate OfGet(a: Action) {
    || a.Spawn? || a.CheckFirst? || a.LockMu? || a.CheckAgain? || a.Snap? || a.BeginBuild?
    || a.BuildOk? || a.BuildErr? || a.Publish? || a.UnlockMu? || a.LoopFire?
  }

  /** A step of a `Get` moves that caller alone, and only a publish touches the cache; the
      watcher's and the loop's steps move no caller. */
  lemma StepShape(s: State, a: Action)
    requires Enabled(s, a)
    ensures var s' := Apply(s, a);
            && s'.now == s.now + 1
            && (OfGet(a) ==>
                  && a.t in s'.th && s'.th == s.th[a.t := s'.th[a.t]]
                  && s'.lastInval == s.lastInval && s'.follow == s.follow && s'.token == s.token
                  && (!a.Publish? ==> s'.c == s.c) && (!a.LockMu? && !a.UnlockMu? ==> s'.mu == s.mu))
            && (!OfGet(a) ==> s'.th == s.th && s'.mu == s.mu)
  {
  }

  lemma MuStep(s: State, a: Action)
    requires MuExclusive(s) && Enabled(s, a)
    ensures MuExclusive(Apply(s, a))
  {
    StepShape(s, a);
    if OfGet(a) {
      assert forall t :: t != a.t ==> (t in Apply(s, a).th <==> t in s.th);
      assert a.t in s.th && InMu(s.th[a.t]) <==> s.mu == Some(a.t);
    }
  }

  lemma GetKeepsBuilds(s: State, a: Action)
    requires BuildsKnown(s) && CacheFresh(s) && Enabled(s, a) && OfGet(a)
    ensures BuildsKnown(Apply(s, a))
  {
    StepShape(s, a);
    assert Apply(s, a).c.gen == s.c.gen;
  }

  lemma BuildsStep(s: State, a: Action)
    requires BuildsKnown(s) && CacheFresh(s) && Enabled(s, a)
    ensures BuildsKnown(Apply(s, a))
  {
    if OfGet(a) {
      GetKeepsBuilds(s, a);
    } else {
      StepShape(s, a);
    }
  }

  lemma CacheStep(s: State, a: Action)
    requires BuildsKnown(s) && CacheFresh(s) && Enabled(s, a)
    ensures CacheFresh(Apply(s, a))
  {
  }

  lemma FreshStep(s: State, a: Action)
    requires FreshInv(s) && Enabled(s, a)
    ensures FreshInv(Apply(s, a))
  {
    MuStep(s, a);
    BuildsStep(s, a);
    CacheStep(s, a);
  }

  ghost predicate Run(states: seq<State>, acts: seq<Action>) {
    && |states| == |acts| + 1 && states[0] == INIT
    && forall i :: 0 <= i < |acts| ==> Enabled(states[i], acts[i]) && states[i + 1] == Apply(states[i], acts[i])
  }

  lemma {:induction false} RunFresh(states: seq<State>, acts: seq<Action>, i: nat)
    requires Run(states, acts) && i < |states|
    ensures FreshInv(states[i])
  {
    if i > 0 {
      RunFresh(states, acts, i - 1);
      FreshStep(states[i - 1], acts[i - 1]);
    }
  }

  lemma InvalidationsOnlyMoveOn(s: State, a: Action)
    requires CacheFresh(s) && Enabled(s, a)
    ensures s.lastInval <= Apply(s, a).lastInval
    ensures a.FollowInvalidate? ==> Apply(s, a).lastInval == s.now
  {
  }

  /** `lastInval` is no earlier than any invalidation so far. */
  lemma {:induction false} LastInvalidationIsLatest(states: seq<State>, acts: seq<Action>, j: nat, i: nat)
    requires Run(states, acts) && j < i < |states| && acts[j].FollowInvalidate?
    ensures states[j].now <= states[i].lastInval
    decreases i
  {
    RunFresh(states, acts, i - 1);
    InvalidationsOnlyMoveOn(states[i - 1], acts[i - 1]);
    if j + 1 < i {
      LastInvalidationIsLatest(states, acts, j, i - 1);
    }
  }

  /** The action answers a `Get` out of the cache. */
  predicate AnswersFromCache(s: State, a: Action) {
    && Enabled(s, a) && (a.CheckFirst? || a.CheckAgain?)
    && !s.th[a.t].refresh && Cached(s.c).Some?
  }

  /** Never stale: a `Get` answered from the cache, at its first look or under buildMu, gets a
      graph whose rebuild began after every invalidation delivered before the answer. */
  lemma CachedAnswersAreFresh(states: seq<State>, acts: seq<Action>, i: nat, j: nat)
    requires Run(states, acts) && j < i < |acts|
    requires AnswersFromCache(states[i], acts[i]) && acts[j].FollowInvalidate?
    ensures states[j].now < Cached(states[i].c).value.began
    ensures var pc := states[i + 1].th[acts[i].t];
            (pc.Done? || pc.Leaving?) && pc.res == Ok(Cached(states[i].c).value, true)
  {
    RunFresh(states, acts, i);
    LastInvalidationIsLatest(states, acts, j, i);
  }

  /** At most one rebuild runs at a time. */
  lemma RebuildsNeverOverlap(states: seq<State>, acts: seq<Action>, i: nat, t: Tid, u: Tid)
    requires Run(states, acts) && i < |states|
    requires t in states[i].th && states[i].th[t].Building?
    requires u in states[i].th && states[i].th[u].Building?
    ensures t == u
  {
    RunFresh(states, acts, i);
    assert states[i].mu == Some(t) && states[i].mu == Some(u);
  }

  // ----- concurrent misses build once -----

  /** Nothing happens that could make a second rebuild necessary. */
  predicate Calm(a: Action) {
    !a.FollowInvalidate? && !a.FollowStop? && !a.WatchTrust? && !a.BuildErr?
  }

  predicate PlainSnap(s: State, a: Action) {
    a.Snap? && Enabled(s, a) && !s.th[a.t].refresh
  }

  /** Rebuilds begun by callers that did not ask for one, in `acts[lo..hi]`. */
  ghost function PlainRebuilds(states: seq<State>, acts: seq<Action>, lo: nat, hi: nat): nat
    requires lo <= hi <= |acts| < |states|
    decreases hi
  {
    if lo == hi then 0 else
    PlainRebuilds(states, acts, lo, hi - 1) + if PlainSnap(states[hi - 1], acts[hi - 1]) then 1 else 0
  }

  /** After a plain rebuild has begun every rebuild under way will be believed, and the cache is full
      or one is still under way. */
  ghost predicate Coalesced(s: State, n: nat) {
    && s.c.watching
    && (n == 1 ==> forall t :: t in s.th && PostSnap(s.th[t]) ==> s.th[t].saw && s.th[t].startGen == s.c.gen)
    && (s.c.valid ==> s.c.graph.Some?)
    && n <= 1
    && (n == 1 ==> s.c.valid || (s.mu.Some? && s.mu.value in s.th && PostSnap(s.th[s.mu.value])))
    && (n == 1 ==> forall t :: t in s.th && s.th[t].Ready? ==> s.th[t].refresh)
  }

  lemma CoalescedGetStep(s: State, a: Action, n: nat)
    requires MuExclusive(s) && Coalesced(s, n) && Enabled(s, a) && Calm(a) && OfGet(a)
    ensures Coalesced(Apply(s, a), n + if PlainSnap(s, a) then 1 else 0)
  {
    StepShape(s, a);
    assert a.t in s.th && InMu(s.th[a.t]) <==> s.mu == Some(a.t);
    assert forall t :: t in s.th && s.th[t].Ready? ==> s.mu == Some(t);
    assert forall t :: t in s.th && PostSnap(s.th[t]) ==> s.mu == Some(t);
  }

  lemma CoalescedStep(s: State, a: Action, n: nat)
    requires MuExclusive(s) && Coalesced(s, n) && Enabled(s, a) && Calm(a)
    ensures Coalesced(Apply(s, a), n + if PlainSnap(s, a) then 1 else 0)
  {
    if OfGet(a) {
      CoalescedGetStep(s, a, n);
    } else {
      StepShape(s, a);
    }
  }

  lemma {:induction false} RunCoalesced(states: seq<State>, acts: seq<Action>, lo: nat, hi: nat)
    requires Run(states, acts) && lo <= hi <= |acts|
    requires Coalesced(states[lo], 0)
    requires forall i :: lo <= i < hi ==> Calm(acts[i])
    ensures Coalesced(states[hi], PlainRebuilds(states, acts, lo, hi))
    decreases hi
  {
    if lo < hi {
      RunCoalesced(states, acts, lo, hi - 1);
      RunFresh(states, acts, hi - 1);
      CoalescedStep(states[hi - 1], acts[hi - 1], PlainRebuilds(states, acts, lo, hi - 1));
    }
  }

  /** While the watcher is active, with no invalidation and no failed rebuild, any number of
      concurrent non-refresh `Get`s begin at most one rebuild between them, whatever rebuild was
      under way before and whatever refreshes run beside them. */
  lemma MissesCoalesce(states: seq<State>, acts: seq<Action>, lo: nat, hi: nat)
    requires Run(states, acts) && lo <= hi <= |acts| && states[lo].c.watching
    requires forall i :: lo <= i < hi ==> Calm(acts[i])
    ensures PlainRebuilds(states, acts, lo, hi) <= 1
  {
    RunFresh(states, acts, lo);
    RunCoalesced(states, acts, lo, hi);
  }

  // ----- the background reload loses no wakeup -----

  predicate Awake(s: State) {
    s.c.valid || s.token || s.follow == BetweenInvalidateAndRequest
  }

  predicate Alive(s: State) {
    && (s.loop == Idle || s.loop == Settling || s.loop.Rebuilding?)
    && (s.follow == Following || s.follow == BetweenInvalidateAndRequest)
  }

  /** `watching` is set exactly between `watch` and `stopWatching`, and the cache is not
      believed before. */
  ghost predicate WatchPhases(s: State) {
    && (s.c.watching <==> s.follow != Unwatched && s.follow != FollowStopped)
    && (s.follow == Unwatched ==> !s.c.valid && forall t :: t in s.th && PostSnap(s.th[t]) ==> !s.th[t].saw)
    && (s.follow == Unwatched || s.follow == Trusting <==> s.loop == LoopAbsent)
    && (s.follow == LoopSpawned ==> s.loop == Idle || s.loop == LoopExited)
    && (s.follow == Unwatched || s.follow == Trusting || s.follow == LoopSpawned ==> !s.token)
    && (s.loop.Rebuilding? ==> s.loop.t in s.th)
  }

  /** A rebuild that will not be believed has nothing valid to overwrite. */
  ghost predicate NothingToLose(s: State) {
    s.c.watching ==> forall t :: t in s.th && PostSnap(s.th[t]) ==>
      (s.th[t].saw && s.th[t].startGen == s.c.gen) || !s.c.valid
  }

  /** What the loop's own `Get` can count on, by how far it has come. */
  ghost predicate LoopCovered(s: State) {
    Alive(s) && s.loop.Rebuilding? && s.loop.t in s.th ==>
      var pc := s.th[s.loop.t];
      && (PostSnap(pc) ==> pc.saw && (pc.startGen != s.c.gen ==> Awake(s)))
      && ((pc.Leaving? || pc.Done?) && pc.res.Ok? ==> Awake(s))
  }

  ghost predicate NoLostWakeup(s: State) {
    s.c.watching && Alive(s) ==>
      Awake(s) || s.loop == Settling || s.loop.Rebuilding? || s.bgFailed
  }

  ghost predicate WakeInv(s: State) {
    MuExclusive(s) && WatchPhases(s) && NothingToLose(s) && LoopCovered(s) && NoLostWakeup(s) && BuildsKnown(s)
  }

  lemma PhasesStep(s: State, a: Action)
    requires WatchPhases(s) && Enabled(s, a)
    ensures WatchPhases(Apply(s, a))
  {
  }

  lemma LoseStep(s: State, a: Action)
    requires MuExclusive(s) && WatchPhases(s) && NothingToLose(s) && Enabled(s, a)
    ensures NothingToLose(Apply(s, a))
  {
    StepShape(s, a);
    if a.Publish? {
      assert forall t :: t in s.th && PostSnap(s.th[t]) ==> s.mu == Some(t);
      assert s.mu == Some(a.t);
    }
  }

  /** Only the follower takes a wakeup away from a believed cache, and it leaves one behind. */
  lemma AwakeStep(s: State, a: Action)
    requires WatchPhases(s) && NothingToLose(s) && Enabled(s, a) && Awake(s) && Alive(s)
    requires !a.LoopTake? && !a.LoopMore? && !a.FollowStop?
    ensures Awake(Apply(s, a))
  {
  }

  lemma CoveredStep(s: State, a: Action)
    requires MuExclusive(s) && WatchPhases(s) && NothingToLose(s) && LoopCovered(s) && BuildsKnown(s) && Enabled(s, a)
    ensures LoopCovered(Apply(s, a))
  {
    var s' := Apply(s, a);
    if Alive(s') && s'.loop.Rebuilding? && !a.LoopFire? {
      assert s.loop == s'.loop;
      if Alive(s) && Awake(s) && !a.LoopTake? && !a.LoopMore? && !a.FollowStop? {
        AwakeStep(s, a);
      }
    }
  }

  lemma WakeupStep(s: State, a: Action)
    requires WatchPhases(s) && NothingToLose(s) && LoopCovered(s) && NoLostWakeup(s) && Enabled(s, a)
    ensures NoLostWakeup(Apply(s, a))
  {
    if Alive(s) && Awake(s) && !a.LoopTake? && !a.LoopMore? && !a.FollowStop? {
      AwakeStep(s, a);
    }
  }

  lemma {:induction false} RunWakeful(states: seq<State>, acts: seq<Action>, i: nat)
    requires Run(states, acts) && i < |states|
    ensures WakeInv(states[i])
  {
    RunFresh(states, acts, i);
    if i > 0 {
      RunWakeful(states, acts, i - 1);
      var s, a := states[i - 1], acts[i - 1];
      PhasesStep(s, a);
      LoseStep(s, a);
      CoveredStep(s, a);
      WakeupStep(s, a);
    }
  }

  /** In every state with follower and loop alive, the cache is valid, or a reload token is
      pending, or the loop is settling or rebuilding, or the follower is about to request, or
      the last background rebuild failed. */
  lemma BackgroundReloadLosesNoWakeup(states: seq<State>, acts: seq<Action>, i: nat)
    requires Run(states, acts) && i < |states| && Alive(states[i])
    ensures var s := states[i];
            || s.c.valid || s.token || s.loop == Settling || s.loop.Rebuilding?
            || s.follow == BetweenInvalidateAndRequest || s.bgFailed
  {
    RunWakeful(states, acts, i);
  }

  ghost predicate Reachable(s: State) {
    exists states: seq<State>, acts: seq<Action> :: Run(states, acts) && states[|acts|] == s
  }

  lemma ReachStep(s: State, a: Action)
    requires Reachable(s) && Enabled(s, a)
    ensures Reachable(Apply(s, a))
  {
    var states: seq<State>, acts: seq<Action> :| Run(states, acts) && states[|acts|] == s;
    assert Run(states + [Apply(s, a)], acts + [a]);
  }

  lemma ReachWatched() returns (s: State)
    ensures Reachable(s) && s.th == map[] && s.mu == None && s.follow == Following && s.c == COLD.(watching := true)
  {
    assert Run([INIT], []);
    s := INIT;
    ReachStep(s, WatchTrust);
    s := Apply(s, WatchTrust);
    ReachStep(s, WatchSpawnLoop);
    s := Apply(s, WatchSpawnLoop);
    ReachStep(s, WatchRequest);
    s := Apply(s, WatchRequest);
  }

  lemma ReachMissUnderWatch() returns (s: State)
    ensures Reachable(s) && s.th == map[0 := Ready(false)] && s.follow == Following && s.c == COLD.(watching := true)
  {
    s := ReachWatched();
    ReachStep(s, Spawn(0, false));
    s := Apply(s, Spawn(0, false));
    ReachStep(s, CheckFirst(0));
    s := Apply(s, CheckFirst(0));
    ReachStep(s, LockMu(0));
    s := Apply(s, LockMu(0));
    ReachStep(s, CheckAgain(0));
    s := Apply(s, CheckAgain(0));
  }

  /** `valid` alone is no promise: a rebuild in flight when the watcher stops publishes a graph
      although nothing will invalidate it, and no `Get` is answered with it. */
  lemma ValidMayOutliveTheWatcher()
    ensures exists s :: Reachable(s) && s.c.valid && !s.c.watching && Cached(s.c).None?
  {
    var s := ReachMissUnderWatch();
    ReachStep(s, Snap(0));
    s := Apply(s, Snap(0));
    ReachStep(s, BeginBuild(0));
    s := Apply(s, BeginBuild(0));
    ReachStep(s, BuildOk(0));
    s := Apply(s, BuildOk(0));
    ReachStep(s, FollowStop);
    s := Apply(s, FollowStop);
    ReachStep(s, Publish(0));
    s := Apply(s, Publish(0));
    assert s.c.valid && !s.c.watching;
  }

  // ----- exactly when the cache is valid with no watcher -----

  /** The rebuild of `t` would be believed if it were published now. */
  predicate Believes(s: State, t: Tid) {
    t in s.th && PostSnap(s.th[t]) && s.th[t].saw && s.th[t].startGen == s.c.gen
  }

  /** What the stop in `s` leaves true: who will be believed was settled then. */
  ghost predicate SinceStop(s: State, now: State) {
    && now.follow == FollowStopped && !now.c.watching && now.c.gen == s.c.gen
    && (forall t :: t in now.th && PostSnap(now.th[t]) ==> (Believes(s, t) <==> Believes(now, t)))
    && (forall t :: Believes(s, t) ==>
          t in now.th && (PostSnap(now.th[t]) || now.th[t].Leaving? || now.th[t].Done?))
  }

  lemma SinceStopStep(s: State, now: State, a: Action)
    requires SinceStop(s, now) && Enabled(now, a)
    ensures SinceStop(s, Apply(now, a)) && (!a.Publish? ==> Apply(now, a).c == now.c)
    ensures a.Publish? ==> (Apply(now, a).c.valid <==> Believes(s, a.t))
  {
    StepShape(now, a);
  }

  lemma {:induction false} StoppedFor(states: seq<State>, acts: seq<Action>, j: nat, i: nat)
    requires Run(states, acts) && j < i < |states| && acts[j].FollowStop?
    ensures SinceStop(states[j], states[i])
    decreases i
  {
    if j + 1 < i {
      StoppedFor(states, acts, j, i - 1);
      SinceStopStep(states[j], states[i - 1], acts[i - 1]);
    }
  }

  /** The last publish before `i`, at `p`, is of a rebuild in flight, and to be believed, at the stop. */
  ghost predicate InFlightPublished(states: seq<State>, acts: seq<Action>, j: nat, p: nat, t: Tid, i: nat) {
    && j < p < i <= |acts| < |states| && acts[j].FollowStop? && Believes(states[j], t) && acts[p] == Publish(t)
    && forall q :: p < q < i ==> !acts[q].Publish?
  }

  lemma {:induction false} ValidSinceStopIff(states: seq<State>, acts: seq<Action>, j: nat, i: nat)
    requires Run(states, acts) && j < i < |states| && acts[j].FollowStop?
    ensures states[i].c.valid <==> exists p: nat, t :: InFlightPublished(states, acts, j, p, t, i)
    decreases i
  {
    if j + 1 < i {
      var was, a := i - 1, acts[i - 1];
      ValidSinceStopIff(states, acts, j, was);
      StoppedFor(states, acts, j, was);
      SinceStopStep(states[j], states[was], a);
      if a.Publish? {
        assert Believes(states[j], a.t) ==> InFlightPublished(states, acts, j, was, a.t, i);
      } else {
        StillTheLast(states, acts, j, was, i);
      }
    }
  }

  lemma StillTheLast(states: seq<State>, acts: seq<Action>, j: nat, was: nat, i: nat)
    requires i == was + 1 <= |acts| && !acts[was].Publish?
    ensures (exists p: nat, t :: InFlightPublished(states, acts, j, p, t, was)) <==>
            (exists p: nat, t :: InFlightPublished(states, acts, j, p, t, i))
  {
    if p: nat, t :| InFlightPublished(states, acts, j, p, t, was) {
      assert InFlightPublished(states, acts, j, p, t, i);
    }
    if p: nat, t :| InFlightPublished(states, acts, j, p, t, i) {
      assert InFlightPublished(states, acts, j, p, t, was);
    }
  }

  lemma {:induction false} StopWasTaken(states: seq<State>, acts: seq<Action>, i: nat)
    requires Run(states, acts) && i < |states| && states[i].follow == FollowStopped
    ensures exists j: nat :: j < i && acts[j].FollowStop?
  {
    var a := acts[i - 1];
    if !a.FollowStop? {
      assert states[i - 1].follow == FollowStopped by {
        StepShape(states[i - 1], a);
      }
      StopWasTaken(states, acts, i - 1);
    }
  }

  /**
   * The cache is valid with no watcher if and only if the watcher stopped while a rebuild was in
   * flight that had seen it and the current generation, that rebuild has published, and nothing has
   * published since.
   */
  lemma ValidWithoutWatcherIff(states: seq<State>, acts: seq<Action>, i: nat)
    requires Run(states, acts) && i < |states|
    ensures states[i].c.valid && !states[i].c.watching <==>
            exists j: nat, p: nat, t :: InFlightPublished(states, acts, j, p, t, i)
  {
    RunWakeful(states, acts, i);
    if states[i].c.valid && !states[i].c.watching {
      StopWasTaken(states, acts, i);
      var j: nat :| j < i && acts[j].FollowStop?;
      ValidSinceStopIff(states, acts, j, i);
    }
    if j: nat, p: nat, t :| InFlightPublished(states, acts, j, p, t, i) {
      StoppedFor(states, acts, j, i);
      ValidSinceStopIff(states, acts, j, i);
    }
  }

  // ----- what a caller gets -----

  /** A `Get` begun at moment `since` has been asked to refresh or not, and has come as far as `pc`. */
  predicate GotSince(pc: Pc, refresh: bool, since: nat) {
    match pc
    case Begun(r) => r == refresh
    case WantMu(r) => r == refresh
    case HasMu(r) => r == refresh
    case Ready(r) => r == refresh
    case Snapped(_, _) => true
    case Building(_, _, began) => began >= since
    case Built(_, _, g) => g.began >= since
    case Leaving(res) => AnswerSince(res, refresh, since)
    case Done(res) => AnswerSince(res, refresh, since)
  }

  /** The answer is a rebuild of its own time, or from the cache, which a refresh is never given. */
  predicate AnswerSince(res: Res, refresh: bool, since: nat) {
    res.Ok? ==> if res.fromCache then !refresh else res.g.began >= since
  }

  lemma GotSinceStep(s: State, a: Action, t: Tid, refresh: bool, since: nat)
    requires Enabled(s, a) && t in s.th && GotSince(s.th[t], refresh, since) && since <= s.now
    ensures t in Apply(s, a).th && GotSince(Apply(s, a).th[t], refresh, since) && s.now < Apply(s, a).now
  {
    StepShape(s, a);
  }

  /** The step begins the `Get` of `t`. */
  predicate Begins(a: Action, t: Tid, refresh: bool) {
    a == Spawn(t, refresh) || (!refresh && a == LoopFire(t))
  }

  lemma GotSinceBegin(s: State, a: Action, t: Tid, refresh: bool)
    requires Enabled(s, a) && Begins(a, t, refresh)
    ensures t in Apply(s, a).th && GotSince(Apply(s, a).th[t], refresh, s.now) && s.now < Apply(s, a).now
  {
  }

  lemma {:induction false} RunGotSince(states: seq<State>, acts: seq<Action>, j: nat, i: nat, t: Tid, refresh: bool)
    requires Run(states, acts) && j < i < |states| && Begins(acts[j], t, refresh)
    ensures states[j].now < states[i].now
    ensures t in states[i].th && GotSince(states[i].th[t], refresh, states[j].now)
    decreases i
  {
    if j + 1 < i {
      RunGotSince(states, acts, j, i - 1, t, refresh);
      GotSinceStep(states[i - 1], acts[i - 1], t, refresh, states[j].now);
    } else {
      GotSinceBegin(states[j], acts[j], t, refresh);
    }
  }

  /** A refresh is never answered from the cache: its graph's rebuild began after it was asked for. */
  lemma RefreshIsRebuilt(states: seq<State>, acts: seq<Action>, j: nat, i: nat, t: Tid, g: Graph, fromCache: bool)
    requires Run(states, acts) && j < i < |states| && acts[j] == Spawn(t, true)
    requires t in states[i].th && states[i].th[t] == Done(Ok(g, fromCache))
    ensures !fromCache && g.began >= states[j].now
  {
    RunGotSince(states, acts, j, i, t, true);
  }

  /** At step `m` caller `t` looks at the cache, the first time or under buildMu. */
  predicate LooksAt(a: Action, t: Tid) {
    a == CheckFirst(t) || a == CheckAgain(t)
  }

  predicate FromCache(pc: Pc) {
    (pc.Leaving? || pc.Done?) && pc.res.Ok? && pc.res.fromCache
  }

  lemma FromCacheStep(s: State, a: Action, t: Tid)
    requires Enabled(s, a) && t in s.th && GotSince(s.th[t], false, 0)
    ensures var s' := Apply(s, a);
            && t in s'.th
            && (FromCache(s'.th[t]) <==> FromCache(s.th[t]) || (LooksAt(a, t) && Cached(s.c) != None))
            && (LooksAt(a, t) && Cached(s.c) != None ==> s'.th[t].res.g == Cached(s.c).value)
            && (FromCache(s.th[t]) ==> s'.th[t].res == s.th[t].res)
  {
    StepShape(s, a);
  }

  /** One of the looks of `t` between `j` and `i` found the cache good. */
  ghost predicate HitBetween(states: seq<State>, acts: seq<Action>, j: nat, i: nat, t: Tid, m: nat) {
    j < m < i <= |acts| < |states| && LooksAt(acts[m], t) && Cached(states[m].c) != None
  }

  lemma WeakerSince(pc: Pc, refresh: bool, since: nat)
    requires GotSince(pc, refresh, since)
    ensures GotSince(pc, refresh, 0)
  {
  }

  lemma {:induction false} HitSoFar(states: seq<State>, acts: seq<Action>, j: nat, i: nat, t: Tid)
    requires Run(states, acts) && j < i < |states| && Begins(acts[j], t, false)
    ensures t in states[i].th
    ensures FromCache(states[i].th[t]) <==> exists m: nat :: HitBetween(states, acts, j, i, t, m)
    ensures FromCache(states[i].th[t]) ==>
              exists m: nat :: HitBetween(states, acts, j, i, t, m)
                               && Cached(states[m].c) == Some(states[i].th[t].res.g)
    decreases i
  {
    if j + 1 < i {
      var was := i - 1;
      HitSoFar(states, acts, j, was, t);
      RunGotSince(states, acts, j, was, t, false);
      WeakerSince(states[was].th[t], false, states[j].now);
      FromCacheStep(states[was], acts[was], t);
      HitsGrow(states, acts, j, was, i, t);
      if m: nat :| HitBetween(states, acts, j, was, t, m) && Cached(states[m].c) == Some(states[was].th[t].res.g) {
        assert HitBetween(states, acts, j, i, t, m);
      }
      assert LooksAt(acts[was], t) && Cached(states[was].c) != None ==> HitBetween(states, acts, j, i, t, was);
    }
  }

  lemma HitsGrow(states: seq<State>, acts: seq<Action>, j: nat, was: nat, i: nat, t: Tid)
    requires j < was && i == was + 1 <= |acts| < |states|
    ensures forall m: nat :: HitBetween(states, acts, j, i, t, m) <==>
              || HitBetween(states, acts, j, was, t, m)
              || (m == was && LooksAt(acts[was], t) && Cached(states[was].c) != None)
  {
  }

  /** A plain `Get` is answered from the cache if and only if one of its two looks found it good, and then
      with what was there. */
  lemma PlainGetIsCachedIffItHit(states: seq<State>, acts: seq<Action>, j: nat, i: nat, t: Tid, g: Graph,
                                 fromCache: bool)
    requires Run(states, acts) && j < i < |states| && Begins(acts[j], t, false)
    requires t in states[i].th && states[i].th[t] == Done(Ok(g, fromCache))
    ensures fromCache <==> exists m: nat :: HitBetween(states, acts, j, i, t, m)
    ensures fromCache ==> exists m: nat :: HitBetween(states, acts, j, i, t, m) && Cached(states[m].c) == Some(g)
    ensures !fromCache ==> g.began >= states[j].now
  {
    HitSoFar(states, acts, j, i, t);
    RunGotSince(states, acts, j, i, t, false);
  }

  /** Step `m` ends the rebuild of `t` in failure. */
  ghost predicate FailedBetween(acts: seq<Action>, j: nat, i: nat, t: Tid, m: nat) {
    j < m < i <= |acts| && acts[m] == BuildErr(t)
  }

  predicate Failed(pc: Pc) {
    (pc.Leaving? || pc.Done?) && pc.res.Err?
  }

  lemma FailedStep(s: State, a: Action, t: Tid)
    requires Enabled(s, a) && t in s.th
    ensures t in Apply(s, a).th && (Failed(Apply(s, a).th[t]) <==> Failed(s.th[t]) || a == BuildErr(t))
  {
    StepShape(s, a);
  }

  /** A `Get` returns an error if and only if its rebuild failed. */
  lemma {:induction false} GetFailsIffItsRebuildDid(states: seq<State>, acts: seq<Action>, j: nat, i: nat, t: Tid,
                                                    refresh: bool)
    requires Run(states, acts) && j < i < |states| && Begins(acts[j], t, refresh)
    ensures t in states[i].th && (Failed(states[i].th[t]) <==> exists m: nat :: FailedBetween(acts, j, i, t, m))
    decreases i
  {
    if j + 1 < i {
      var was := i - 1;
      GetFailsIffItsRebuildDid(states, acts, j, was, t, refresh);
      FailedStep(states[was], acts[was], t);
      if m: nat :| FailedBetween(acts, j, was, t, m) {
        assert FailedBetween(acts, j, i, t, m);
      }
      if m: nat :| FailedBetween(acts, j, i, t, m) && m != was {
        assert FailedBetween(acts, j, was, t, m);
      }
      assert acts[was] == BuildErr(t) ==> FailedBetween(acts, j, i, t, was);
    }
  }

  // ----- what the reload loop remembers -----

  /** Step `j` leaves a reload token that no step before `i` takes. */
  ghost predicate Unanswered(acts: seq<Action>, j: nat, i: nat) {
    && j < i <= |acts| && (acts[j].WatchRequest? || acts[j].FollowRequest?)
    && forall m :: j < m < i ==> !acts[m].LoopTake? && !acts[m].LoopMore?
  }

  /** A token is pending if and only if the loop has received none since the last request. */
  lemma {:induction false} TokenIffUnanswered(states: seq<State>, acts: seq<Action>, i: nat)
    requires Run(states, acts) && i < |states|
    ensures states[i].token <==> exists j: nat :: Unanswered(acts, j, i)
  {
    if i > 0 {
      var was := i - 1;
      TokenIffUnanswered(states, acts, was);
      TokenStep(states[was], acts[was]);
      UnansweredOn(acts, was, i);
    }
  }

  lemma TokenStep(s: State, a: Action)
    requires Enabled(s, a)
    ensures Apply(s, a).token <==>
              a.WatchRequest? || a.FollowRequest? || (s.token && !a.LoopTake? && !a.LoopMore?)
  {
  }

  lemma UnansweredOn(acts: seq<Action>, was: nat, i: nat)
    requires i == was + 1 <= |acts|
    ensures (exists j: nat :: Unanswered(acts, j, i)) <==>
              || acts[was].WatchRequest? || acts[was].FollowRequest?
              || ((exists j: nat :: Unanswered(acts, j, was)) && !acts[was].LoopTake? && !acts[was].LoopMore?)
  {
    var a := acts[was];
    assert (a.WatchRequest? || a.FollowRequest?) ==> Unanswered(acts, was, i);
    if j: nat :| Unanswered(acts, j, was) && !a.LoopTake? && !a.LoopMore? {
      assert Unanswered(acts, j, i);
    }
    if j: nat :| Unanswered(acts, j, i) && j != was {
      assert Unanswered(acts, j, was);
    }
  }

  /** Step `j` is the end of a background rebuild that failed, and none has ended since. */
  ghost predicate FailedLast(states: seq<State>, acts: seq<Action>, j: nat, i: nat) {
    && j < i <= |acts| < |states| && acts[j].LoopDone?
    && states[j].loop.Rebuilding? && states[j].loop.t in states[j].th && states[j].th[states[j].loop.t] == Done(Err)
    && forall m :: j < m < i ==> !acts[m].LoopDone?
  }

  /** The loop remembers a failure if and only if the last background rebuild to end failed. */
  lemma {:induction false} FailureIsOfTheLastRebuild(states: seq<State>, acts: seq<Action>, i: nat)
    requires Run(states, acts) && i < |states|
    ensures states[i].bgFailed <==> exists j: nat :: FailedLast(states, acts, j, i)
  {
    if i > 0 {
      var was := i - 1;
      FailureIsOfTheLastRebuild(states, acts, was);
      var a := acts[was];
      assert a.LoopDone? && states[was].th[states[was].loop.t].res.Err? ==> FailedLast(states, acts, was, i);
      forall j: nat | j < was ensures FailedLast(states, acts, j, i) <==>
        FailedLast(states, acts, j, was) && !a.LoopDone?
      {
      }
    }
  }

  /** Step `j` receives a request, and no background rebuild has begun since. */
  ghost predicate TakenSince(acts: seq<Action>, j: nat, i: nat) {
    j < i <= |acts| && acts[j].LoopTake? && forall m :: j < m < i ==> !acts[m].LoopFire?
  }

  lemma SettlingStep(s: State, a: Action)
    requires Enabled(s, a) && Apply(s, a).loop == Settling
    ensures a.LoopTake? || (s.loop == Settling && !a.LoopFire?)
  {
  }

  lemma {:induction false} SettlingIsOnRequest(states: seq<State>, acts: seq<Action>, i: nat)
    requires Run(states, acts) && i < |states| && states[i].loop == Settling
    ensures exists j: nat :: TakenSince(acts, j, i)
  {
    var was := i - 1;
    SettlingStep(states[was], acts[was]);
    if acts[was].LoopTake? {
      assert TakenSince(acts, was, i);
    } else {
      SettlingIsOnRequest(states, acts, was);
      var j: nat :| TakenSince(acts, j, was);
      assert TakenSince(acts, j, i);
    }
  }

  /** The loop rebuilds only on request: each of its rebuilds follows a request received since the last. */
  lemma RebuildsOnlyOnRequest(states: seq<State>, acts: seq<Action>, i: nat)
    requires Run(states, acts) && i < |acts| && acts[i].LoopFire?
    ensures exists j: nat :: TakenSince(acts, j, i)
  {
    SettlingIsOnRequest(states, acts, i);
  }

  /** The next step of a `Get`, by where it stands. */
  predicate CanGoOn(s: State, t: Tid) {
    || Enabled(s, CheckFirst(t)) || Enabled(s, LockMu(t)) || Enabled(s, CheckAgain(t)) || Enabled(s, Snap(t))
    || Enabled(s, BeginBuild(t)) || (Enabled(s, BuildOk(t)) && Enabled(s, BuildErr(t))) || Enabled(s, Publish(t))
    || Enabled(s, UnlockMu(t))
  }

  /** A `Get` that has not returned can go on, or waits for one that can. */
  lemma GetNeverWedges(states: seq<State>, acts: seq<Action>, i: nat, t: Tid)
    requires Run(states, acts) && i < |states| && t in states[i].th && !states[i].th[t].Done?
    ensures var s := states[i];
            CanGoOn(s, t) || (s.th[t].WantMu? && s.mu.Some? && s.mu.value in s.th && CanGoOn(s, s.mu.value))
  {
    RunFresh(states, acts, i);
    var s := states[i];
    if s.th[t].WantMu? && s.mu.Some? {
      var u := s.mu.value;
      assert u in s.th && InMu(s.th[u]);
    }
  }

  /** The watcher can deliver a change whenever it follows, and always follows a change with a request. */
  lemma FollowerNeverWedges(s: State)
    requires s.follow == Following || s.follow == BetweenInvalidateAndRequest
    ensures if s.follow == Following then Enabled(s, FollowInvalidate) && Enabled(s, FollowStop)
            else Enabled(s, FollowRequest)
  {
  }

  /** The loop takes a pending token when idle, can rebuild when settled, and goes on after its rebuild. */
  lemma LoopNeverWedges(s: State, t: Tid)
    requires t !in s.th
    ensures s.loop == Idle && s.token ==> Enabled(s, LoopTake)
    ensures s.loop == Settling ==> Enabled(s, LoopFire(t)) && (s.token ==> Enabled(s, LoopMore))
    ensures s.loop.Rebuilding? && s.loop.t in s.th && s.th[s.loop.t].Done? ==> Enabled(s, LoopDone)
  {
  }
}
