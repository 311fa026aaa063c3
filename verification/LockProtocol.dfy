/** The two-level project lock as a step system: any number of processes, any number of
    concurrent calls of `acquire` and `lockIsHeld` in each, any interleaving, and a crash of
    any process at any moment.

    A session is one call on one lock path.  Its program counter says which of the call's
    steps it has passed.  A `flock` is an exclusive resource per open handle, freed when its
    process dies; the owner record is one atomic register per path that survives a crash.
 */
module LockProtocol {
  import opened LockSlots

  type Proc = nat
  type Path = nat

  /** One process's entry for one lock path.  Paths are numbered in the sort order of the
      project paths they guard. */
  datatype Place = Place(proc: Proc, path: Path)

  /** `Prober` runs `lockIsHeld`; an invocation runs `acquire` on the paths of `plan`. */
  datatype Kind = Prober | Invocation(plan: seq<Path>)
  datatype Agent = Agent(proc: Proc, id: nat, kind: Kind)
  datatype Key = Key(agent: Agent, path: Path)

  datatype Pc =
    | Joined(e: SlotId)      // counted on the slot, does not have it
    | Slotted(e: SlotId)     // has the slot, has not tried the flock
    | Contending(e: SlotId)  // the flock was busy: `contend` polls it
    | Flocked(e: SlotId)     // has the flock, owner record not written yet
    | Held(e: SlotId)        // `acquire` returned
    | Disowned(e: SlotId)    // release: owner record removed
    | Unlocked(e: SlotId)    // does not have the flock, still has the slot
    | Leaving(e: SlotId)     // does not have the slot, still counted

  predicate HasSlot(pc: Pc) { !pc.Joined? && !pc.Leaving? }
  predicate HasFlock(pc: Pc) { pc.Flocked? || pc.Held? || pc.Disowned? }

  function At(k: Key): Place {
    Place(k.agent.proc, k.path)
  }

  datatype State = State(
    table: Table<Place>,
    flock: map<Path, Key>,
    owner: map<Path, Key>,
    sess: map<Key, Pc>,
    crashed: set<Proc>)

  const INIT: State := State(Table(map[], map[], {}, 0), map[], map[], map[], {})

  datatype Action =
    | AJoin(k: Key)
    | ATakeSlot(k: Key)
    | AGiveUp(k: Key)              // the slot is not waited for any longer
    | ATryFlock(k: Key)            // TryLock, busy or not
    | AFlockError(k: Key)          // TryLock failed with an error
    | ARetryFlock(k: Key)          // a poll of contend that finds the flock free
    | ARefuse(k: Key)              // contend gives up
    | ARecord(k: Key, wrote: bool) // recordOwner, whose write may fail
    | ADisown(k: Key)              // removeOwner
    | AUnlock(k: Key)
    | AGive(k: Key)
    | ALeave(k: Key)
    | ACrash(q: Proc)

  predicate Enabled(s: State, a: Action) {
    match a
    case AJoin(k) => k !in s.sess && k.agent.proc !in s.crashed
    case ATakeSlot(k) => k in s.sess && s.sess[k].Joined? && s.sess[k].e !in s.table.full
    case AGiveUp(k) => k in s.sess && s.sess[k].Joined?
    case ATryFlock(k) => k in s.sess && s.sess[k].Slotted?
    case AFlockError(k) => k in s.sess && s.sess[k].Slotted?
    case ARetryFlock(k) => k in s.sess && s.sess[k].Contending? && k.path !in s.flock
    case ARefuse(k) => k in s.sess && s.sess[k].Contending?
    case ARecord(k, _) => k in s.sess && s.sess[k].Flocked? && k.agent.kind.Invocation?
    case ADisown(k) => k in s.sess && s.sess[k].Held?
    case AUnlock(k) => k in s.sess && (s.sess[k].Disowned? || (s.sess[k].Flocked? && k.agent.kind.Prober?))
    case AGive(k) => k in s.sess && s.sess[k].Unlocked?
    case ALeave(k) => k in s.sess && s.sess[k].Leaving?
    case ACrash(q) => true
  }

  function Go(s: State, k: Key, pc: Pc): State {
    s.(sess := s.sess[k := pc])
  }

  function Apply(s: State, a: Action): State
    requires Enabled(s, a)
  {
    match a
    case AJoin(k) => Go(s.(table := Join(s.table, At(k))), k, Joined(JoinedSlot(s.table, At(k))))
    case ATakeSlot(k) =>
      var e := s.sess[k].e;
      Go(s.(table := Fill(s.table, e)), k, Slotted(e))
    case AGiveUp(k) => Go(s, k, Leaving(s.sess[k].e))
    case ATryFlock(k) =>
      var e := s.sess[k].e;
      if k.path !in s.flock then Go(s.(flock := s.flock[k.path := k]), k, Flocked(e))
      else Go(s, k, if k.agent.kind.Prober? then Unlocked(e) else Contending(e))
    case AFlockError(k) => Go(s, k, Unlocked(s.sess[k].e))
    case ARetryFlock(k) => Go(s.(flock := s.flock[k.path := k]), k, Flocked(s.sess[k].e))
    case ARefuse(k) => Go(s, k, Unlocked(s.sess[k].e))
    case ARecord(k, wrote) =>
      Go(if wrote then s.(owner := s.owner[k.path := k]) else s, k, Held(s.sess[k].e))
    case ADisown(k) => Go(s.(owner := s.owner - {k.path}), k, Disowned(s.sess[k].e))
    case AUnlock(k) => Go(s.(flock := s.flock - {k.path}), k, Unlocked(s.sess[k].e))
    case AGive(k) =>
      var e := s.sess[k].e;
      Go(s.(table := Empty(s.table, e)), k, Leaving(e))
    case ALeave(k) => s.(table := Leave(s.table, At(k), s.sess[k].e), sess := s.sess - {k})
    case ACrash(q) =>
      State(s.table.(byPath := map pl | pl in s.table.byPath && pl.proc != q :: s.table.byPath[pl]),
            map p | p in s.flock && s.flock[p].agent.proc != q :: s.flock[p],
            s.owner,
            map k | k in s.sess && k.agent.proc != q :: s.sess[k],
            s.crashed + {q})
  }

  /** The steps between a session's join and its leave. */
  predicate Moves(a: Action) {
    !a.AJoin? && !a.ALeave? && !a.ACrash?
  }

  lemma MoveShape(s: State, a: Action)
    requires Enabled(s, a) && Moves(a)
    ensures var s' := Apply(s, a);
            && a.k in s.sess && a.k in s'.sess
            && s'.sess == s.sess[a.k := s'.sess[a.k]] && s'.sess[a.k].e == s.sess[a.k].e
            && s'.crashed == s.crashed && s'.table.(full := s.table.full) == s.table
            && s'.table.full <= s.table.full + {s.sess[a.k].e}
            && (!a.ATakeSlot? && !a.AGive? ==>
                  s'.table == s.table && HasSlot(s'.sess[a.k]) == HasSlot(s.sess[a.k]))
  {
  }

  // ----- the inductive invariant -----

  /** The sessions at one place: its process's holders, waiters and probers of the path. */
  function Sharers(sess: map<Key, Pc>, pl: Place): set<Key> {
    set k | k in sess && At(k) == pl
  }

  /** Every session points at the one slot its process has for the path. */
  ghost predicate SessionsOnEntry(s: State) {
    forall k :: k in s.sess ==>
      && k.agent.proc !in s.crashed
      && At(k) in s.table.byPath
      && s.table.byPath[At(k)] == s.sess[k].e
  }

  /** A path has an entry exactly when somebody shares it, and the count is their number. */
  ghost predicate Counted(s: State) {
    forall pl :: CountedAt(s.table, Sharers(s.sess, pl), pl)
  }

  ghost predicate CountedAt(t: Table<Place>, sharers: set<Key>, pl: Place) {
    && RefsOf(t, pl) == |sharers|
    && (pl in t.byPath <==> sharers != {})
  }

  ghost predicate CountFacet(s: State) {
    ValidTable(s.table) && SessionsOnEntry(s) && Counted(s)
  }

  /** A slot is full exactly while one session of its process has it. */
  ghost predicate SlotsExclusive(s: State) {
    && (forall k, l :: k in s.sess && l in s.sess && At(k) == At(l) && HasSlot(s.sess[k]) && HasSlot(s.sess[l])
          ==> k == l)
    && (forall k :: k in s.sess && HasSlot(s.sess[k]) ==> FullOf(s.table, At(k)))
    && (forall pl :: FullOf(s.table, pl) ==> SlotTaken(s.sess, pl))
  }

  ghost predicate SlotTaken(sess: map<Key, Pc>, pl: Place) {
    exists k :: k in sess && At(k) == pl && HasSlot(sess[k])
  }

  /** The flock register names exactly the sessions that are past taking it. */
  ghost predicate FlocksExclusive(s: State) {
    && (forall p :: p in s.flock ==>
          s.flock[p] in s.sess && s.flock[p].path == p && HasFlock(s.sess[s.flock[p]]))
    && (forall k :: k in s.sess && HasFlock(s.sess[k]) ==> k.path in s.flock && s.flock[k.path] == k)
  }

  /** An owner record names a process that crashed, or an invocation that holds the lock. */
  ghost predicate OwnersHold(s: State) {
    forall p :: p in s.owner ==>
      && s.owner[p].path == p
      && (s.owner[p].agent.proc in s.crashed || (s.owner[p] in s.sess && s.sess[s.owner[p]].Held?))
  }

  /** Only an invocation gets past the flock into the recorded stages. */
  ghost predicate KindsRight(s: State) {
    forall k :: k in s.sess && (s.sess[k].Held? || s.sess[k].Disowned? || s.sess[k].Contending?) ==>
      k.agent.kind.Invocation?
  }

  ghost predicate FlockFacet(s: State) {
    FlocksExclusive(s) && OwnersHold(s) && KindsRight(s)
  }

  ghost predicate Inv(s: State) {
    CountFacet(s) && SlotsExclusive(s) && FlockFacet(s)
  }

  lemma InitInv()
    ensures Inv(INIT)
  {
    forall pl ensures Sharers(INIT.sess, pl) == {} {}
  }

  // ----- the flock register and the owner records -----

  /** Session `k` moves, begins or ends away from the flock and the owner record. */
  ghost predicate Quiet(s: State, s': State, k: Key) {
    && s'.flock == s.flock && s'.owner == s.owner && s'.crashed == s.crashed
    && s'.sess == (if k in s'.sess then s.sess[k := s'.sess[k]] else s.sess - {k})
    && (k in s.sess ==> !HasFlock(s.sess[k]))
    && (k in s'.sess ==> !HasFlock(s'.sess[k]) && (s'.sess[k].Contending? ==> k.agent.kind.Invocation?))
  }

  lemma QuietKeepsFlocks(s: State, s': State, k: Key)
    requires FlockFacet(s) && Quiet(s, s', k)
    ensures FlockFacet(s')
  {
  }

  lemma LockKeepsFlocks(s: State, k: Key)
    requires FlockFacet(s) && k in s.sess && !HasFlock(s.sess[k]) && k.path !in s.flock
    ensures FlockFacet(Go(s.(flock := s.flock[k.path := k]), k, Flocked(s.sess[k].e)))
  {
  }

  lemma RecordKeepsFlocks(s: State, k: Key, wrote: bool)
    requires FlockFacet(s) && Enabled(s, ARecord(k, wrote))
    ensures FlockFacet(Apply(s, ARecord(k, wrote)))
  {
  }

  lemma DisownKeepsFlocks(s: State, k: Key)
    requires FlockFacet(s) && Enabled(s, ADisown(k))
    ensures FlockFacet(Apply(s, ADisown(k)))
  {
  }

  lemma UnlockKeepsFlocks(s: State, k: Key)
    requires FlockFacet(s) && Enabled(s, AUnlock(k))
    ensures FlockFacet(Apply(s, AUnlock(k)))
  {
  }

  lemma CrashKeepsFlocks(s: State, q: Proc)
    requires FlockFacet(s)
    ensures FlockFacet(Apply(s, ACrash(q)))
  {
  }

  lemma StepKeepsFlocks(s: State, a: Action)
    requires FlockFacet(s) && Enabled(s, a)
    ensures FlockFacet(Apply(s, a))
  {
    match a
    case ARetryFlock(k) => LockKeepsFlocks(s, k);
    case ATryFlock(k) =>
      if k.path !in s.flock {
        LockKeepsFlocks(s, k);
      } else {
        QuietKeepsFlocks(s, Apply(s, a), k);
      }
    case ARecord(k, wrote) => RecordKeepsFlocks(s, k, wrote);
    case ADisown(k) => DisownKeepsFlocks(s, k);
    case AUnlock(k) => UnlockKeepsFlocks(s, k);
    case ACrash(q) => CrashKeepsFlocks(s, q);
    case _ => QuietKeepsFlocks(s, Apply(s, a), a.k);
  }

  // ----- the slot table: entries and counts -----

  lemma SharersAfterJoin(sess: map<Key, Pc>, k: Key, pc: Pc, pl: Place)
    requires k !in sess
    ensures Sharers(sess[k := pc], pl) == Sharers(sess, pl) + if pl == At(k) then {k} else {}
  {
  }

  lemma SharersAfterLeave(sess: map<Key, Pc>, k: Key, pl: Place)
    requires k in sess
    ensures k in Sharers(sess, At(k))
    ensures Sharers(sess - {k}, pl) == Sharers(sess, pl) - if pl == At(k) then {k} else {}
  {
  }

  lemma JoinKeepsCounts(s: State, k: Key)
    requires CountFacet(s) && Enabled(s, AJoin(k))
    ensures CountFacet(Apply(s, AJoin(k)))
  {
    var s' := Apply(s, AJoin(k));
    JoinEffect(s.table, At(k));
    forall pl ensures CountedAt(s'.table, Sharers(s'.sess, pl), pl) {
      assert CountedAt(s.table, Sharers(s.sess, pl), pl);
      SharersAfterJoin(s.sess, k, s'.sess[k], pl);
    }
  }

  /** Nobody else's entry goes away when one sharer leaves. */
  lemma OthersKeepEntry(s: State, k: Key, l: Key)
    requires CountFacet(s) && k in s.sess && l in s.sess && k != l && At(k) == At(l)
    ensures RefsOf(s.table, At(k)) != 1
  {
    var sharers := Sharers(s.sess, At(k));
    assert CountedAt(s.table, sharers, At(k));
    assert l in sharers - {k};
    assert |sharers| == |sharers - {k}| + 1;
  }

  lemma LeaveKeepsCounts(s: State, k: Key)
    requires CountFacet(s) && Enabled(s, ALeave(k))
    ensures CountFacet(Apply(s, ALeave(k)))
  {
    var s' := Apply(s, ALeave(k));
    LeaveEffect(s.table, At(k));
    forall pl ensures CountedAt(s'.table, Sharers(s'.sess, pl), pl) {
      assert CountedAt(s.table, Sharers(s.sess, pl), pl);
      SharersAfterLeave(s.sess, k, pl);
    }
    forall l | l in s'.sess ensures At(l) in s'.table.byPath {
      if At(l) == At(k) {
        OthersKeepEntry(s, k, l);
      }
    }
  }

  /** A session that moves without leaving its slot object keeps every count. */
  lemma MoveKeepsCounts(s: State, s': State, k: Key)
    requires CountFacet(s) && k in s.sess && s'.crashed == s.crashed
    requires k in s'.sess && s'.sess == s.sess[k := s'.sess[k]] && s'.sess[k].e == s.sess[k].e
    requires s'.table.(full := s.table.full) == s.table && s'.table.full <= s.table.full + {s.sess[k].e}
    ensures CountFacet(s')
  {
    forall pl ensures CountedAt(s'.table, Sharers(s'.sess, pl), pl) {
      assert CountedAt(s.table, Sharers(s.sess, pl), pl);
      assert Sharers(s'.sess, pl) == Sharers(s.sess, pl);
    }
  }

  lemma CrashKeepsCounts(s: State, q: Proc)
    requires CountFacet(s)
    ensures CountFacet(Apply(s, ACrash(q)))
  {
    var s' := Apply(s, ACrash(q));
    forall pl ensures CountedAt(s'.table, Sharers(s'.sess, pl), pl) {
      assert CountedAt(s.table, Sharers(s.sess, pl), pl);
      assert Sharers(s'.sess, pl) == if pl.proc == q then {} else Sharers(s.sess, pl);
    }
  }

  lemma StepKeepsCounts(s: State, a: Action)
    requires CountFacet(s) && Enabled(s, a)
    ensures CountFacet(Apply(s, a))
  {
    match a
    case AJoin(k) => JoinKeepsCounts(s, k);
    case ALeave(k) => LeaveKeepsCounts(s, k);
    case ACrash(q) => CrashKeepsCounts(s, q);
    case _ =>
      MoveShape(s, a);
      MoveKeepsCounts(s, Apply(s, a), a.k);
  }

  // ----- the slots: at most one session has one -----

  /** The sessions on slots and the full slots are as before, away from place `pl0`. */
  ghost predicate SlotsSameBut(s: State, s': State, pl0: Place) {
    && (forall pl :: pl != pl0 ==> FullOf(s'.table, pl) == FullOf(s.table, pl))
    && (forall k :: At(k) != pl0 ==>
          ((k in s'.sess && HasSlot(s'.sess[k])) <==> (k in s.sess && HasSlot(s.sess[k]))))
  }

  /** At place `pl0` the slot is full exactly when `taken` has it. */
  ghost predicate SlotAt(s: State, pl0: Place, taken: Key) {
    && (FullOf(s.table, pl0) <==> taken in s.sess && At(taken) == pl0 && HasSlot(s.sess[taken]))
    && (forall k :: k in s.sess && At(k) == pl0 && HasSlot(s.sess[k]) ==> k == taken)
  }

  lemma ExclusionByPlace(s: State, s': State, pl0: Place, taken: Key)
    requires SlotsExclusive(s) && SlotsSameBut(s, s', pl0) && SlotAt(s', pl0, taken)
    ensures SlotsExclusive(s')
  {
    forall pl | FullOf(s'.table, pl) ensures SlotTaken(s'.sess, pl) {
      if pl != pl0 {
        assert SlotTaken(s.sess, pl);
        var l :| l in s.sess && At(l) == pl && HasSlot(s.sess[l]);
        assert l in s'.sess && HasSlot(s'.sess[l]);
      }
    }
  }

  /** Whoever has the slot at a place, or `k` when nobody does. */
  lemma TakerOf(s: State, k: Key) returns (taken: Key)
    requires SlotsExclusive(s)
    ensures SlotAt(s, At(k), taken)
  {
    taken := k;
    if FullOf(s.table, At(k)) {
      assert SlotTaken(s.sess, At(k));
      taken :| taken in s.sess && At(taken) == At(k) && HasSlot(s.sess[taken]);
    }
  }

  lemma FullElsewhere(t: Table<Place>, e: SlotId, pl0: Place)
    requires ValidTable(t) && pl0 in t.byPath && t.byPath[pl0] == e
    ensures forall pl :: pl != pl0 ==> FullOf(Fill(t, e), pl) == FullOf(t, pl)
    ensures forall pl :: pl != pl0 ==> FullOf(Empty(t, e), pl) == FullOf(t, pl)
  {
  }

  lemma TakeKeepsExclusion(s: State, k: Key)
    requires CountFacet(s) && SlotsExclusive(s) && Enabled(s, ATakeSlot(k))
    ensures SlotsExclusive(Apply(s, ATakeSlot(k)))
  {
    FullElsewhere(s.table, s.sess[k].e, At(k));
    ExclusionByPlace(s, Apply(s, ATakeSlot(k)), At(k), k);
  }

  lemma GiveKeepsExclusion(s: State, k: Key)
    requires CountFacet(s) && SlotsExclusive(s) && Enabled(s, AGive(k))
    ensures SlotsExclusive(Apply(s, AGive(k)))
  {
    FullElsewhere(s.table, s.sess[k].e, At(k));
    ExclusionByPlace(s, Apply(s, AGive(k)), At(k), k);
  }

  lemma JoinKeepsExclusion(s: State, k: Key)
    requires CountFacet(s) && SlotsExclusive(s) && Enabled(s, AJoin(k))
    ensures SlotsExclusive(Apply(s, AJoin(k)))
  {
    JoinEffect(s.table, At(k));
    var taken := TakerOf(s, k);
    ExclusionByPlace(s, Apply(s, AJoin(k)), At(k), taken);
  }

  /** A session that moves keeping or lacking its slot, the table unchanged. */
  lemma MoveKeepsExclusion(s: State, s': State, k: Key)
    requires SlotsExclusive(s) && s'.table == s.table && k in s.sess && k in s'.sess
    requires s'.sess == s.sess[k := s'.sess[k]] && HasSlot(s'.sess[k]) == HasSlot(s.sess[k])
    ensures SlotsExclusive(s')
  {
    var taken := TakerOf(s, k);
    ExclusionByPlace(s, s', At(k), taken);
  }

  lemma LeaveKeepsExclusion(s: State, k: Key)
    requires CountFacet(s) && SlotsExclusive(s) && Enabled(s, ALeave(k))
    ensures SlotsExclusive(Apply(s, ALeave(k)))
  {
    LeaveEffect(s.table, At(k));
    var taken := TakerOf(s, k);
    if taken in s.sess && taken != k && At(taken) == At(k) {
      OthersKeepEntry(s, k, taken);
    }
    ExclusionByPlace(s, Apply(s, ALeave(k)), At(k), taken);
  }

  lemma CrashKeepsExclusion(s: State, q: Proc)
    requires SlotsExclusive(s)
    ensures SlotsExclusive(Apply(s, ACrash(q)))
  {
    var s' := Apply(s, ACrash(q));
    forall pl | FullOf(s'.table, pl) ensures SlotTaken(s'.sess, pl) {
      assert SlotTaken(s.sess, pl);
      var l :| l in s.sess && At(l) == pl && HasSlot(s.sess[l]);
      assert l in s'.sess && HasSlot(s'.sess[l]);
    }
  }

  lemma StepKeepsExclusion(s: State, a: Action)
    requires CountFacet(s) && SlotsExclusive(s) && Enabled(s, a)
    ensures SlotsExclusive(Apply(s, a))
  {
    match a
    case ALeave(k) => LeaveKeepsExclusion(s, k);
    case ATakeSlot(k) => TakeKeepsExclusion(s, k);
    case AGive(k) => GiveKeepsExclusion(s, k);
    case ACrash(q) => CrashKeepsExclusion(s, q);
    case AJoin(k) => JoinKeepsExclusion(s, k);
    case _ =>
      MoveShape(s, a);
      MoveKeepsExclusion(s, Apply(s, a), a.k);
  }

  /** Every step of every agent, and every crash, keeps the invariant. */
  lemma StepKeepsInv(s: State, a: Action)
    requires Inv(s) && Enabled(s, a)
    ensures Inv(Apply(s, a))
  {
    StepKeepsFlocks(s, a);
    StepKeepsCounts(s, a);
    StepKeepsExclusion(s, a);
  }

  // ----- whole runs -----

  /** `states` is what a run from the empty system passes through while `acts` happen. */
  ghost predicate Run(states: seq<State>, acts: seq<Action>) {
    && |states| == |acts| + 1 && states[0] == INIT
    && forall i :: 0 <= i < |acts| ==> Enabled(states[i], acts[i]) && states[i + 1] == Apply(states[i], acts[i])
  }

  lemma {:induction false} RunKeepsInv(states: seq<State>, acts: seq<Action>, i: nat)
    requires Run(states, acts) && i < |states|
    ensures Inv(states[i])
  {
    if i == 0 {
      InitInv();
    } else {
      RunKeepsInv(states, acts, i - 1);
      StepKeepsInv(states[i - 1], acts[i - 1]);
    }
  }

  /** In every state of every run at most one session in the whole system, whatever its
      process, is between taking a path's flock and giving it back. */
  lemma MutualExclusion(states: seq<State>, acts: seq<Action>, i: nat, k: Key, l: Key)
    requires Run(states, acts) && i < |states|
    requires k in states[i].sess && HasFlock(states[i].sess[k])
    requires l in states[i].sess && HasFlock(states[i].sess[l])
    requires k.path == l.path
    ensures k == l
  {
    RunKeepsInv(states, acts, i);
  }

  /** A path has a slot entry in a process exactly while the process has holders, waiters or
      probers of it; all of them point at that entry, whose count is their number. */
  lemma EntryExactlyWhileShared(states: seq<State>, acts: seq<Action>, i: nat, pl: Place)
    requires Run(states, acts) && i < |states|
    ensures var s := states[i];
            && (pl in s.table.byPath <==> exists k :: k in s.sess && At(k) == pl)
            && (pl in s.table.byPath ==> Refs(s.table, s.table.byPath[pl]) == |Sharers(s.sess, pl)|)
            && (forall k :: k in s.sess && At(k) == pl ==> s.table.byPath[pl] == s.sess[k].e)
  {
    RunKeepsInv(states, acts, i);
    var s := states[i];
    assert CountedAt(s.table, Sharers(s.sess, pl), pl);
    if pl in s.table.byPath {
      var k :| k in Sharers(s.sess, pl);
    }
  }

  /** A leave that drops an entry drops an empty slot nobody else is counted on. */
  lemma FullSlotNeverDropped(states: seq<State>, acts: seq<Action>, i: nat)
    requires Run(states, acts) && i < |acts| && acts[i].ALeave?
    requires At(acts[i].k) !in states[i + 1].table.byPath
    ensures !FullOf(states[i].table, At(acts[i].k))
    ensures Sharers(states[i].sess, At(acts[i].k)) == {acts[i].k}
  {
    RunKeepsInv(states, acts, i);
    var s, k := states[i], acts[i].k;
    LeaveEffect(s.table, At(k));
    forall l | l in Sharers(s.sess, At(k)) ensures l == k {
      if l != k {
        OthersKeepEntry(s, k, l);
      }
    }
    forall l | l in s.sess && At(l) == At(k) ensures !HasSlot(s.sess[l]) {
      assert l in Sharers(s.sess, At(k));
    }
    assert !SlotTaken(s.sess, At(k));
  }

  /** A session with the slot that finds the flock taken, at its first `TryLock` or at any poll of
      `contend`, was beaten by another process: two invocations of one process never meet there. */
  lemma BusyFlockIsForeign(states: seq<State>, acts: seq<Action>, i: nat, k: Key)
    requires Run(states, acts) && i < |states| && k in states[i].sess
    requires HasSlot(states[i].sess[k]) && !HasFlock(states[i].sess[k]) && k.path in states[i].flock
    ensures states[i].flock[k.path].agent.proc != k.agent.proc
  {
    RunKeepsInv(states, acts, i);
  }

  /** `give` always finds its slot full, so it never blocks. */
  lemma GiveNeverBlocks(states: seq<State>, acts: seq<Action>, i: nat)
    requires Run(states, acts) && i < |acts| && acts[i].AGive?
    ensures states[i].sess[acts[i].k].e in states[i].table.full
    ensures At(acts[i].k) in states[i].table.byPath
            && states[i].table.byPath[At(acts[i].k)] == states[i].sess[acts[i].k].e
  {
    RunKeepsInv(states, acts, i);
  }

  /** An owner record naming an invocation of a running process says the truth: that
      invocation has the flock. */
  lemma LiveOwnerHoldsLock(states: seq<State>, acts: seq<Action>, i: nat, p: Path)
    requires Run(states, acts) && i < |states|
    requires p in states[i].owner && states[i].owner[p].agent.proc !in states[i].crashed
    ensures p in states[i].flock && states[i].flock[p] == states[i].owner[p]
  {
    RunKeepsInv(states, acts, i);
  }

  /** A release removes its own record, or the corpse a crashed process left. */
  lemma ReleaseSparesOthersRecords(states: seq<State>, acts: seq<Action>, i: nat)
    requires Run(states, acts) && i < |acts| && acts[i].ADisown?
    requires acts[i].k.path in states[i].owner
    ensures states[i].owner[acts[i].k.path] == acts[i].k
            || states[i].owner[acts[i].k.path].agent.proc in states[i].crashed
  {
    RunKeepsInv(states, acts, i);
  }

  /** Step `j` is the last in which `k` recorded itself as owner, or failed to. */
  ghost predicate RecordedLast(acts: seq<Action>, j: nat, i: nat, k: Key, wrote: bool) {
    j < i <= |acts| && acts[j] == ARecord(k, wrote) && forall m, w :: j < m < i ==> acts[m] != ARecord(k, w)
  }

  /** While `k` holds its lock nobody else touches the owner record of the path. */
  lemma HolderKeepsRecord(s: State, a: Action, k: Key)
    requires FlockFacet(s) && Enabled(s, a) && k in s.sess && s.sess[k].Held?
    requires k in Apply(s, a).sess && Apply(s, a).sess[k].Held?
    ensures (k.path in Apply(s, a).owner && Apply(s, a).owner[k.path] == k) <==>
            (k.path in s.owner && s.owner[k.path] == k)
    ensures !a.ARecord? || a.k != k
  {
  }

  lemma RecordingNames(s: State, k: Key, wrote: bool)
    requires FlockFacet(s) && Enabled(s, ARecord(k, wrote)) && k.agent.proc !in s.crashed
    ensures var o := Apply(s, ARecord(k, wrote)).owner; (k.path in o && o[k.path] == k) <==> wrote
  {
  }

  lemma BecomesHeld(s: State, a: Action, k: Key)
    requires Enabled(s, a) && k in Apply(s, a).sess && Apply(s, a).sess[k].Held?
    requires k in s.sess ==> !s.sess[k].Held?
    ensures a.ARecord? && a.k == k
  {
  }

  /** A held lock's owner record names its holder if and only if the holder's write of it succeeded. */
  lemma {:induction false} HeldLockIsNamedIff(states: seq<State>, acts: seq<Action>, i: nat, k: Key)
    requires Run(states, acts) && i < |states| && k in states[i].sess && states[i].sess[k].Held?
    ensures exists j: nat, wrote :: RecordedLast(acts, j, i, k, wrote)
    ensures forall j: nat, wrote :: RecordedLast(acts, j, i, k, wrote) ==>
              (wrote <==> k.path in states[i].owner && states[i].owner[k.path] == k)
  {
    var was := i - 1;
    var s, a := states[was], acts[was];
    RunKeepsInv(states, acts, was);
    if k in s.sess && s.sess[k].Held? {
      HeldLockIsNamedIff(states, acts, was, k);
      HolderKeepsRecord(s, a, k);
      StillRecordedLast(acts, was, i, k);
    } else {
      BecomesHeld(s, a, k);
      RecordingNames(s, k, a.wrote);
      assert RecordedLast(acts, was, i, k, a.wrote);
    }
  }

  lemma StillRecordedLast(acts: seq<Action>, was: nat, i: nat, k: Key)
    requires i == was + 1 <= |acts| && (!acts[was].ARecord? || acts[was].k != k)
    ensures forall j: nat, wrote :: RecordedLast(acts, j, i, k, wrote) <==> RecordedLast(acts, j, was, k, wrote)
    ensures forall j: nat, wrote :: RecordedLast(acts, j, was, k, wrote) ==> RecordedLast(acts, j, i, k, wrote)
  {
  }
}
