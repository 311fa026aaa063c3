/** Supersession: which holder a run asks to stop, which request a holder answers, and which
    request a new holder sweeps.

    Both sides read the other's start time from a record, and a record stores a time to the
    second (RFC 3339 without a fraction), while each side knows its own start exactly.  Times
    are nanoseconds since the zero time, so 0 is `time.Time{}`.
 */
module Supersede {

  const SECOND: int := 1_000_000_000

  type Time = nat

  /** The part of a `projectLocker` that supersession reads; `pid` is its process. */
  datatype Locker = Locker(root: string, started: Time, gate: bool, background: bool, pid: nat)

  /** The part of a `processRecord` that supersession reads.  `pid` 0 is "nothing to say". */
  datatype Rec = Rec(pid: nat, root: string, started: Time, gate: bool, background: bool)

  /** What a reader gets back of a time another process wrote. */
  function Stored(t: Time): Time {
    t / SECOND * SECOND
  }

  /** `selfRecord` written and read back. */
  function Written(l: Locker): Rec {
    Rec(l.pid, l.root, Stored(l.started), l.gate, l.background)
  }

  /** `supersedes`: whether `l` takes the lock from the holder named by `owner`. */
  predicate Supersedes(l: Locker, owner: Rec) {
    if l.root == "" then false
    else if owner.pid == 0 || owner.root != l.root then false
    else if owner.background then !l.background
    else if !l.gate || !owner.gate then false
    else owner.started != 0 && owner.started < l.started
  }

  /** `pendingYield`: whether holder `l` stops for the request `marker`. */
  predicate Honours(l: Locker, marker: Rec, requesterAlive: bool) {
    if (!l.gate && !l.background) || l.root == "" then false
    else if marker.pid == 0 || marker.root != l.root then false
    else if !l.background && (!marker.gate || !(l.started < marker.started)) then false
    else requesterAlive
  }

  /** `clearStaleYield`: whether a new holder `l` removes `marker`. */
  predicate Sweeps(l: Locker, marker: Rec) {
    !(marker.pid != 0 && l.started < marker.started)
  }

  /** Two runs of one tree, each of which another may name. */
  predicate SameTree(h: Locker, r: Locker) {
    h.root == r.root && h.root != "" && h.pid != 0 && r.pid != 0
  }

  /** Two gates of one tree, neither of them background work. */
  predicate GatePair(h: Locker, r: Locker) {
    SameTree(h, r) && h.gate && r.gate && !h.background && !r.background
  }

  function SecondOf(t: Time): nat {
    t / SECOND
  }

  lemma StoredFacts(t: Time, u: Time)
    ensures Stored(t) <= t < Stored(t) + SECOND
    ensures t < Stored(u) <==> SecondOf(t) < SecondOf(u)
    ensures Stored(t) < u <==> SecondOf(t) < SecondOf(u) || (SecondOf(t) == SecondOf(u) && u % SECOND != 0)
    ensures Stored(t) == 0 <==> SecondOf(t) == 0
  {
    assert t == SecondOf(t) * SECOND + t % SECOND;
    assert u == SecondOf(u) * SECOND + u % SECOND;
  }

  /** Whom a run asks: nobody of another tree or without a record; background work whenever the run is
      not; and a gate asks a gate of an earlier second, or of its own second when it did not itself start
      exactly on it, but none whose recorded start is the zero time. */
  lemma SelectsExactly(h: Locker, r: Locker)
    ensures Supersedes(r, Written(h)) <==>
              && r.root != "" && h.root == r.root && h.pid != 0
              && if h.background then !r.background
                 else h.gate && r.gate && SecondOf(h.started) > 0 &&
                      (SecondOf(h.started) < SecondOf(r.started)
                       || (SecondOf(h.started) == SecondOf(r.started) && r.started % SECOND != 0))
  {
    StoredFacts(h.started, r.started);
  }

  /** Whom a run answers: nobody of another tree or without a name; background work any live requester, a
      gate a live gate of a strictly later second, and a plain run nobody. */
  lemma HonoursExactly(h: Locker, r: Locker, alive: bool)
    ensures Honours(h, Written(r), alive) <==>
              && alive && h.root != "" && h.root == r.root && r.pid != 0
              && (h.background || (h.gate && r.gate && SecondOf(h.started) < SecondOf(r.started)))
  {
    StoredFacts(h.started, r.started);
  }

  /** "The holder that is asked answers" is false of the code: two gates half a second apart. */
  lemma AskedHolderMayNotAnswer()
    ensures exists h, r :: GatePair(h, r) && h.started < r.started
                           && Supersedes(r, Written(h)) && !Honours(h, Written(r), true)
  {
    var h := Locker("/w", 5 * SECOND, true, false, 1);
    var r := Locker("/w", 5 * SECOND + SECOND / 2, true, false, 2);
    assert Stored(h.started) == 5 * SECOND && Stored(r.started) == 5 * SECOND;
    assert GatePair(h, r) && Supersedes(r, Written(h)) && !Honours(h, Written(r), true);
  }

  /** Exactly when it is true: a holder that is asked by a live run answers if and only if it is
      background work or the two started in different seconds. */
  lemma AskedHolderAnswersIffSecondsDiffer(h: Locker, r: Locker)
    requires SameTree(h, r) && SecondOf(h.started) > 0
    requires Supersedes(r, Written(h))
    ensures Honours(h, Written(r), true) <==> h.background || SecondOf(h.started) != SecondOf(r.started)
  {
    SelectsExactly(h, r);
    HonoursExactly(h, r, true);
  }

  /** The other way round, what is answered need not have asked only where both are background work;
      a gate never answers anybody it would not have been asked by. */
  lemma AnsweredRequestWasQualified(h: Locker, r: Locker)
    requires SameTree(h, r) && SecondOf(h.started) > 0
    requires Honours(h, Written(r), true)
    ensures Supersedes(r, Written(h)) <==> !(h.background && r.background)
    ensures !h.background ==> h.started < r.started
  {
    SelectsExactly(h, r);
    HonoursExactly(h, r, true);
    StoredFacts(r.started, h.started);
  }

  /** Asking is not even asymmetric: two gates ask each other exactly when they started in one
      second and neither on its first nanosecond. */
  lemma MutualAskIff(g: Locker, h: Locker)
    requires GatePair(g, h) && SecondOf(g.started) > 0 && SecondOf(h.started) > 0
    ensures Supersedes(g, Written(h)) && Supersedes(h, Written(g)) <==>
              SecondOf(g.started) == SecondOf(h.started) && g.started % SECOND != 0 && h.started % SECOND != 0
  {
    SelectsExactly(g, h);
    SelectsExactly(h, g);
  }

  /** Answering is a strict order on the gates of a tree. */
  lemma AnsweringIsStrictOrder(g: Locker, h: Locker, r: Locker)
    requires GatePair(g, g) && GatePair(g, h) && GatePair(h, g) && GatePair(h, r) && GatePair(g, r)
    ensures !Honours(g, Written(g), true)
    ensures !(Honours(g, Written(h), true) && Honours(h, Written(g), true))
    ensures Honours(g, Written(h), true) && Honours(h, Written(r), true) ==> Honours(g, Written(r), true)
  {
    HonoursExactly(g, g, true);
    HonoursExactly(g, h, true);
    HonoursExactly(h, g, true);
    HonoursExactly(h, r, true);
    HonoursExactly(g, r, true);
  }

  /** The gate that started last is stopped by no gate, alive or dead, and a plain run by
      nobody at all. */
  lemma LatestGateIsNeverStopped(h: Locker, others: set<Locker>)
    requires !h.background
    requires h.gate ==> forall r :: r in others && r.gate ==> r.started <= h.started
    ensures forall r, alive :: r in others ==> !Honours(h, Written(r), alive)
  {
    forall r, alive | r in others ensures !Honours(h, Written(r), alive) {
      StoredFacts(r.started, h.started);
    }
  }

  /** A gate is stopped by none of the live gates of its tree if and only if none of them started in
      a later second. */
  lemma UnstoppedIffOfTheLatestSecond(h: Locker, others: set<Locker>)
    requires forall r :: r in others ==> GatePair(h, r)
    ensures (forall r :: r in others ==> !Honours(h, Written(r), true)) <==>
            forall r :: r in others ==> SecondOf(r.started) <= SecondOf(h.started)
  {
    forall r | r in others
      ensures Honours(h, Written(r), true) <==> SecondOf(h.started) < SecondOf(r.started)
    {
      HonoursExactly(h, r, true);
    }
  }

  /** What a new holder sweeps: a request that names nobody, or that was written in no later second than
      its own start. */
  lemma SweepsExactly(h: Locker, r: Locker)
    ensures Sweeps(h, Written(r)) <==> r.pid == 0 || SecondOf(r.started) <= SecondOf(h.started)
  {
    StoredFacts(h.started, r.started);
  }

  /** A new holder sweeps a live request it would honour if and only if it is background work and the
      request was not written in a later second than its own start. */
  lemma SweepsAHonouredRequestIff(h: Locker, r: Locker)
    requires SameTree(h, r) && Honours(h, Written(r), true)
    ensures Sweeps(h, Written(r)) <==> h.background && SecondOf(r.started) <= SecondOf(h.started)
  {
    HonoursExactly(h, r, true);
    SweepsExactly(h, r);
  }

  lemma BackgroundMaySweepAHonouredRequest()
    ensures exists h, r :: Honours(h, Written(r), true) && Supersedes(r, Written(h)) && Sweeps(h, Written(r))
  {
    var h := Locker("/w", 9 * SECOND, false, true, 1);
    var r := Locker("/w", 3 * SECOND, false, false, 2);
    assert Stored(r.started) == 3 * SECOND;
    assert Honours(h, Written(r), true) && Supersedes(r, Written(h)) && Sweeps(h, Written(r));
  }
}
