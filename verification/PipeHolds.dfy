/** Pipe stages: a run publishes its lock set once every lock is taken, and the stage downstream of
    it polls those records before it takes any lock of its own.

    A step is one listing, read, write or removal of a record, one attempt on a flock, one unlink of
    a lock file, or one lock taken or released, by any of any number of invocations in any number of
    processes. A process may run several invocations: one that a target starts in the process has no
    streams, so it waits for nobody (`ups` is empty) and publishes nothing (`SkipPublish`). A record
    is named after its process and its publisher, and names are never used twice. */
module PipeHolds {

  type Path = string

  type Id = nat

  type Proc = nat

  /** The look at one upstream process: its place in `ups`, whether some other blocks already, the
      records still to be read, and what the ones read so far said. */
  datatype Look = Look(at: nat, blocked: bool, todo: seq<Id>, settled: bool, conflict: bool)

  datatype Phase =
    | Poll(at: nat, blocked: bool)               // at: the upstream process looked at next
    | Scan(l: Look)
    | Read(l: Look, rec: set<Path>)
    | Probe(l: Look)                             // holds the publisher's flock to report it free
    | SweepRecord(l: Look)
    | SweepLock(l: Look)
    | Acquiring
    | Holding                                    // every lock is taken
    | Flocked
    | Published
    | Retracted                                  // the record is removed, its flock is not
    | Unflocked
    | Unpublished                                // runs without a record; its locks go one by one
    | Releasing                                  // has retracted its record; its locks go one by one
    | Exited
    | Crashed

  /** An invocation: its process, the projects it needs, the lock-taking processes upstream of it,
      what it holds, and which records its last look at each of those processes listed. */
  datatype Inv = Inv(proc: Proc, plan: set<Path>, ups: seq<Proc>, phase: Phase, held: set<Path>,
                     listed: map<nat, set<Id>>)

  /** `flock` says who holds the flock on the lock file now at a record's path; `stopped` are the
      processes that no longer write their pipe. */
  datatype State = State(invs: map<Id, Inv>, locks: map<Path, Id>, records: map<Id, set<Path>>,
                         flock: map<Id, Id>, stopped: set<Proc>)

  const INIT := State(map[], map[], map[], map[], {})

  /** In the middle of a look. */
  predicate Looking(p: Phase) {
    p.Scan? || p.Read? || p.Probe? || p.SweepRecord? || p.SweepLock?
  }

  predicate Waits(p: Phase) {
    p.Poll? || Looking(p)
  }

  predicate Live(p: Phase) {
    !p.Exited? && !p.Crashed?
  }

  /** Every lock is taken and none is released. */
  predicate Full(p: Phase) {
    p.Holding? || p.Flocked? || p.Published? || p.Retracted? || p.Unflocked?
  }

  predicate HasFlock(p: Phase) {
    p.Flocked? || p.Published? || p.Retracted?
  }

  /** Published, or past it: no lock is taken any more. A live invocation gets here only by publishing. */
  predicate PastPublish(p: Phase) {
    p.Published? || Withdrawn(p)
  }

  /** No record stands for it any more, unless it died. */
  predicate Withdrawn(p: Phase) {
    p.Retracted? || Gone(p)
  }

  /** Nothing is claimed any more. */
  predicate Gone(p: Phase) {
    p.Unflocked? || p.Releasing? || p.Exited? || p.Crashed?
  }

  /** A step of the wait. */
  datatype WaitStep =
    | SkipSilent                                 // the process does not write its pipe
    | ListRecords(ids: seq<Id>)
    | MissRecord
    | ReadRecord
    | ProbeBusy                                  // held, or it cannot be told
    | ProbeFree
    | ProbeGives
    | SweepsRecord
    | SweepsLock
    | EndLook
    | EndRound

  /** Any other step of an invocation. */
  datatype WorkStep =
    | Start(proc: Proc, plan: set<Path>, ups: seq<Proc>)
    | Take(p: Path)
    | GiveUp                                     // a lock is refused: what was taken is released
    | AllTaken
    | Flock
    | SkipPublish                                // stdout is no pipe, or the flock or the write fails
    | Publish
    | Retract
    | Unflock
    | DropLockFile
    | Release(p: Path)
    | Exit
    | Crash                                      // a killed process crashes its invocations one after another

  datatype Event = Wait(c: Id, w: WaitStep) | Work(c: Id, k: WorkStep) | StopWriting(q: Proc)

  /** The record being looked at. */
  predicate HasNext(s: State, c: Id) {
    c in s.invs && Looking(s.invs[c].phase) && s.invs[c].phase.l.todo != []
  }

  function NextRecord(s: State, c: Id): Id {
    if HasNext(s, c) then s.invs[c].phase.l.todo[0] else 0
  }

  predicate PollsAt(s: State, c: Id) {
    c in s.invs && s.invs[c].phase.Poll? && s.invs[c].phase.at < |s.invs[c].ups|
  }

  /** `ids` are the records of process `u`, in some order. */
  predicate Lists(s: State, u: Proc, ids: seq<Id>) {
    && (forall b :: b in ids ==> b in s.records && b in s.invs && s.invs[b].proc == u)
    && (forall b :: b in s.records && b in s.invs && s.invs[b].proc == u ==> b in ids)
  }

  predicate CanWait(s: State, c: Id, w: WaitStep) {
    match w
    case SkipSilent => PollsAt(s, c) && s.invs[c].ups[s.invs[c].phase.at] in s.stopped
    case ListRecords(ids) =>
      && PollsAt(s, c) && s.invs[c].ups[s.invs[c].phase.at] !in s.stopped
      && Lists(s, s.invs[c].ups[s.invs[c].phase.at], ids)
    case MissRecord => HasNext(s, c) && s.invs[c].phase.Scan? && NextRecord(s, c) !in s.records
    case ReadRecord => HasNext(s, c) && s.invs[c].phase.Scan? && NextRecord(s, c) in s.records
    case ProbeBusy => HasNext(s, c) && s.invs[c].phase.Read?
    case ProbeFree => HasNext(s, c) && s.invs[c].phase.Read? && NextRecord(s, c) !in s.flock
    case ProbeGives => HasNext(s, c) && s.invs[c].phase.Probe?
    case SweepsRecord => HasNext(s, c) && s.invs[c].phase.SweepRecord?
    case SweepsLock => HasNext(s, c) && s.invs[c].phase.SweepLock?
    case EndLook => c in s.invs && s.invs[c].phase.Scan? && s.invs[c].phase.l.todo == []
    case EndRound => c in s.invs && s.invs[c].phase.Poll? && s.invs[c].phase.at >= |s.invs[c].ups|
  }

  predicate CanWork(s: State, c: Id, k: WorkStep) {
    if k.Start? then c !in s.invs else c in s.invs && MayWork(s, c, s.invs[c], k)
  }

  predicate MayWork(s: State, c: Id, i: Inv, k: WorkStep) {
    match k
    case Start(_, _, _) => false
    case Take(p) => i.phase.Acquiring? && p in i.plan && p !in s.locks
    case GiveUp => i.phase.Acquiring?
    case AllTaken => i.phase.Acquiring? && i.held == i.plan
    case Flock => i.phase.Holding? && c !in s.flock
    case SkipPublish => i.phase.Holding? || i.phase.Flocked?
    case Publish => i.phase.Flocked?
    case Retract => i.phase.Published?
    case Unflock => i.phase.Retracted?
    case DropLockFile => i.phase.Unflocked?
    case Release(p) => (i.phase.Releasing? || i.phase.Unpublished?) && p in i.held
    case Exit => (i.phase.Releasing? || i.phase.Unpublished?) && i.held == {}
    case Crash => Live(i.phase)
  }

  predicate Can(s: State, e: Event) {
    match e
    case Wait(c, w) => CanWait(s, c, w)
    case Work(c, k) => CanWork(s, c, k)
    case StopWriting(_) => true
  }

  /** The locks held by `c` are free again. */
  function FreeLocks(s: State, c: Id): map<Path, Id> {
    map p | p in s.locks && s.locks[p] != c :: s.locks[p]
  }

  function FreeFlocks(s: State, c: Id): map<Id, Id> {
    map b | b in s.flock && s.flock[b] != c :: s.flock[b]
  }

  /** The record is done with. */
  function Pop(l: Look): Look {
    if l.todo == [] then l else l.(todo := l.todo[1..])
  }

  function Members(ids: seq<Id>): set<Id> {
    set b | b in ids
  }

  function WaitPhase(s: State, c: Id, w: WaitStep): Phase
    requires CanWait(s, c, w)
  {
    var i := s.invs[c];
    match w
    case SkipSilent => Poll(i.phase.at + 1, i.phase.blocked)
    case ListRecords(ids) => Scan(Look(i.phase.at, i.phase.blocked, ids, false, false))
    case MissRecord => Scan(Pop(i.phase.l))
    case ReadRecord => Read(i.phase.l, s.records[NextRecord(s, c)])
    case ProbeBusy =>
      Scan(Pop(i.phase.l).(settled := true, conflict := i.phase.l.conflict || !(i.phase.rec !! i.plan)))
    case ProbeFree => Probe(i.phase.l)
    case ProbeGives => SweepRecord(i.phase.l)
    case SweepsRecord => SweepLock(i.phase.l)
    case SweepsLock => Scan(Pop(i.phase.l))
    case EndLook => Poll(i.phase.l.at + 1, i.phase.l.blocked || !(i.phase.l.settled && !i.phase.l.conflict))
    case EndRound => if i.phase.blocked then Poll(0, false) else Acquiring
  }

  function WaitListed(s: State, c: Id, w: WaitStep): map<nat, set<Id>>
    requires CanWait(s, c, w)
  {
    if w.ListRecords? then s.invs[c].listed[s.invs[c].phase.at := Members(w.ids)] else s.invs[c].listed
  }

  function WaitFlock(s: State, c: Id, w: WaitStep): map<Id, Id> {
    match w
    case ProbeFree => s.flock[NextRecord(s, c) := c]
    case ProbeGives => FreeFlocks(s, c)
    case SweepsLock => s.flock - {NextRecord(s, c)}
    case _ => s.flock
  }

  function AfterWait(s: State, c: Id, w: WaitStep): State
    requires CanWait(s, c, w)
  {
    State(s.invs[c := s.invs[c].(phase := WaitPhase(s, c, w), listed := WaitListed(s, c, w))], s.locks,
          if w.SweepsRecord? then s.records - {NextRecord(s, c)} else s.records, WaitFlock(s, c, w), s.stopped)
  }

  function WorkPhase(i: Inv, k: WorkStep): Phase {
    match k
    case AllTaken => Holding
    case Flock => Flocked
    case SkipPublish => Unpublished
    case Publish => Published
    case Retract => Retracted
    case Unflock => Unflocked
    case DropLockFile => Releasing
    case Exit => Exited
    case Crash => Crashed
    case _ => i.phase
  }

  function WorkHeld(i: Inv, k: WorkStep): set<Path> {
    match k
    case Take(p) => i.held + {p}
    case Release(p) => i.held - {p}
    case GiveUp => {}
    case Crash => {}
    case _ => i.held
  }

  function WorkLocks(s: State, c: Id, k: WorkStep): map<Path, Id> {
    match k
    case Take(p) => s.locks[p := c]
    case Release(p) => s.locks - {p}
    case GiveUp => FreeLocks(s, c)
    case Crash => FreeLocks(s, c)
    case _ => s.locks
  }

  function WorkRecords(s: State, c: Id, i: Inv, k: WorkStep): map<Id, set<Path>> {
    match k
    case Publish => s.records[c := i.plan]
    case Retract => s.records - {c}
    case _ => s.records
  }

  function WorkFlock(s: State, c: Id, k: WorkStep): map<Id, Id> {
    match k
    case Flock => s.flock[c := c]
    case SkipPublish => FreeFlocks(s, c)
    case Unflock => FreeFlocks(s, c)
    case DropLockFile => s.flock - {c}
    case Crash => FreeFlocks(s, c)
    case _ => s.flock
  }

  function AfterWork(s: State, c: Id, k: WorkStep): State
    requires CanWork(s, c, k)
  {
    if k.Start? then s.(invs := s.invs[c := Inv(k.proc, k.plan, k.ups, Poll(0, false), {}, map[])])
    else
      var i := s.invs[c];
      State(s.invs[c := i.(phase := WorkPhase(i, k), held := WorkHeld(i, k))], WorkLocks(s, c, k),
            WorkRecords(s, c, i, k), WorkFlock(s, c, k), s.stopped)
  }

  function Next(s: State, e: Event): State
    requires Can(s, e)
  {
    match e
    case Wait(c, w) => AfterWait(s, c, w)
    case Work(c, k) => AfterWork(s, c, k)
    case StopWriting(q) => s.(stopped := s.stopped + {q})
  }

  // ----- the invariant -----

  ghost predicate HeldOk(s: State, c: Id)
    requires c in s.invs
  {
    var i := s.invs[c];
    && i.held <= i.plan && (Full(i.phase) ==> i.held == i.plan) && (Waits(i.phase) ==> i.held == {})
    && (forall p :: p in i.held <==> p in s.locks && s.locks[p] == c)
  }

  ghost predicate FlockOk(s: State, c: Id)
    requires c in s.invs
  {
    HasFlock(s.invs[c].phase) <==> c in s.flock && s.flock[c] == c
  }

  ghost predicate RecordOk(s: State, c: Id)
    requires c in s.invs
  {
    && (s.invs[c].phase.Published? ==> c in s.records)
    && (c in s.records ==>
          s.records[c] == s.invs[c].plan && (s.invs[c].phase.Published? || s.invs[c].phase.Crashed?))
  }

  /** Invocation `b` of process `u` has had a record. */
  ghost predicate HadRecord(s: State, u: Proc, b: Id) {
    b in s.invs && s.invs[b].proc == u && PastPublish(s.invs[b].phase)
  }

  ghost predicate ListedOk(s: State, c: Id)
    requires c in s.invs
  {
    var i := s.invs[c];
    forall k, b :: k in i.listed && b in i.listed[k] ==> k < |i.ups| && HadRecord(s, i.ups[k], b)
  }

  predicate Harmless(s: State, b: Id, plan: set<Path>) {
    b in s.invs && s.invs[b].plan !! plan
  }

  /** Nothing that `b` has published stands in the way of `plan`. */
  predicate Answered(s: State, b: Id, plan: set<Path>) {
    b in s.invs && (s.invs[b].plan !! plan || Withdrawn(s.invs[b].phase))
  }

  /** What a look has found of the listed records it is done with. */
  ghost predicate SoFar(s: State, listed: set<Id>, plan: set<Path>, l: Look) {
    && (l.settled && !l.conflict ==> exists b :: b in listed && Harmless(s, b, plan))
    && (!l.conflict ==> forall b :: b in listed && b !in l.todo ==> Answered(s, b, plan))
  }

  ghost predicate LookOk(s: State, c: Id)
    requires c in s.invs
  {
    var i := s.invs[c];
    Looking(i.phase) ==>
      var l := i.phase.l;
      && l.at < |i.ups| && l.at in i.listed && (forall b :: b in l.todo ==> b in i.listed[l.at])
      && SoFar(s, i.listed[l.at], i.plan, l)
      && (!i.phase.Scan? ==> l.todo != [] && l.todo[0] in s.invs)
      && (i.phase.Read? ==> i.phase.rec == s.invs[l.todo[0]].plan)
      && (i.phase.Probe? || i.phase.SweepRecord? || i.phase.SweepLock? ==> Gone(s.invs[l.todo[0]].phase))
  }

  /** The `k`th process upstream of `i` no longer writes; or one of its invocations has published a set
      that has nothing of the plan, and so has every one listed, or it has withdrawn its record. */
  ghost predicate Clear(s: State, i: Inv, k: nat)
    requires k < |i.ups|
  {
    i.ups[k] in s.stopped ||
    (k in i.listed && (exists b :: b in i.listed[k] && Harmless(s, b, i.plan))
     && forall b :: b in i.listed[k] ==> Answered(s, b, i.plan))
  }

  /** How many of the processes upstream of `i` it has found clear. */
  function Cleared(i: Inv): nat {
    if i.phase.Crashed? then 0
    else if !Waits(i.phase) then |i.ups|
    else if i.phase.Poll? then (if i.phase.blocked then 0 else i.phase.at)
    else if i.phase.l.blocked then 0 else i.phase.l.at
  }

  ghost predicate RoundOk(s: State, c: Id)
    requires c in s.invs
  {
    var i := s.invs[c];
    forall k :: 0 <= k < Cleared(i) && k < |i.ups| ==> Clear(s, i, k)
  }

  ghost predicate Holds(s: State) {
    (forall c :: c in s.invs ==> HeldOk(s, c)) && forall p :: p in s.locks ==> s.locks[p] in s.invs
  }

  ghost predicate Flocks(s: State) {
    (forall c :: c in s.invs ==> FlockOk(s, c)) && forall b :: b in s.flock ==> s.flock[b] in s.invs
  }

  ghost predicate Records(s: State) {
    (forall c :: c in s.invs ==> RecordOk(s, c)) && forall c :: c in s.records ==> c in s.invs
  }

  ghost predicate Listings(s: State) {
    forall c :: c in s.invs ==> ListedOk(s, c)
  }

  ghost predicate LooksOk(s: State) {
    forall c :: c in s.invs ==> LookOk(s, c)
  }

  ghost predicate Rounds(s: State) {
    forall c :: c in s.invs ==> RoundOk(s, c)
  }

  ghost predicate Valid(s: State) {
    Holds(s) && Flocks(s) && Records(s) && Listings(s) && LooksOk(s) && Rounds(s)
  }

  // ----- what a step leaves of an invocation -----

  /** An invocation goes on from `i` to `j`: what it is stays, and what it has given up stays given up. */
  predicate Onward(i: Inv, j: Inv) {
    && j.proc == i.proc && j.plan == i.plan && j.ups == i.ups
    && (PastPublish(i.phase) ==> PastPublish(j.phase)) && (Withdrawn(i.phase) ==> Withdrawn(j.phase))
    && (Gone(i.phase) ==> Gone(j.phase))
  }

  /** From `s` to `t` invocation `c`, new or not, goes on, and no other changes. */
  ghost predicate Goes(s: State, t: State, c: Id) {
    && t.invs.Keys == s.invs.Keys + {c} && s.stopped <= t.stopped
    && (forall b :: b in s.invs && b != c ==> t.invs[b] == s.invs[b])
    && (c in s.invs ==> Onward(s.invs[c], t.invs[c]))
  }

  lemma WaitGoes(s: State, c: Id, w: WaitStep)
    requires CanWait(s, c, w)
    ensures Goes(s, AfterWait(s, c, w), c) && c in s.invs && Waits(s.invs[c].phase)
    ensures Waits(WaitPhase(s, c, w)) || WaitPhase(s, c, w) == Acquiring
  {
  }

  lemma WorkOnward(s: State, c: Id, i: Inv, k: WorkStep)
    requires MayWork(s, c, i, k)
    ensures Onward(i, i.(phase := WorkPhase(i, k), held := WorkHeld(i, k)))
    ensures !Waits(WorkPhase(i, k)) && (Waits(i.phase) ==> WorkPhase(i, k) == Crashed)
  {
  }

  lemma WorkGoes(s: State, c: Id, k: WorkStep)
    requires CanWork(s, c, k)
    ensures Goes(s, AfterWork(s, c, k), c)
    ensures !k.Start? ==> !Waits(WorkPhase(s.invs[c], k)) && (Waits(s.invs[c].phase) ==> k.Crash?)
  {
    if !k.Start? {
      WorkOnward(s, c, s.invs[c], k);
    }
  }

  lemma HadRecordStays(s: State, t: State, c: Id, u: Proc, b: Id)
    requires Goes(s, t, c) && HadRecord(s, u, b)
    ensures HadRecord(t, u, b)
  {
  }

  lemma AnsweredStays(s: State, t: State, c: Id, b: Id, plan: set<Path>)
    requires Goes(s, t, c)
    ensures Harmless(s, b, plan) ==> Harmless(t, b, plan)
    ensures Answered(s, b, plan) ==> Answered(t, b, plan)
  {
  }

  lemma SoFarStays(s: State, t: State, c: Id, listed: set<Id>, plan: set<Path>, l: Look)
    requires Goes(s, t, c) && SoFar(s, listed, plan, l)
    ensures SoFar(t, listed, plan, l)
  {
    forall b: Id ensures Harmless(s, b, plan) ==> Harmless(t, b, plan) {
      AnsweredStays(s, t, c, b, plan);
    }
    forall b: Id ensures Answered(s, b, plan) ==> Answered(t, b, plan) {
      AnsweredStays(s, t, c, b, plan);
    }
  }

  lemma StaysClear(s: State, t: State, c: Id, i: Inv, j: Inv, k: nat)
    requires Goes(s, t, c) && k < |i.ups| && Clear(s, i, k) && j.ups == i.ups && j.plan == i.plan
    requires k in i.listed ==> k in j.listed && j.listed[k] == i.listed[k]
    ensures Clear(t, j, k)
  {
    forall b: Id ensures Harmless(s, b, i.plan) ==> Harmless(t, b, i.plan) {
      AnsweredStays(s, t, c, b, i.plan);
    }
    forall b: Id ensures Answered(s, b, i.plan) ==> Answered(t, b, i.plan) {
      AnsweredStays(s, t, c, b, i.plan);
    }
  }

  lemma ListedStays(s: State, t: State, c: Id, b: Id)
    requires Goes(s, t, c) && b in s.invs && ListedOk(s, b) && t.invs[b].listed == s.invs[b].listed
    ensures ListedOk(t, b)
  {
    var i := s.invs[b];
    forall k, d | k in i.listed && d in i.listed[k] ensures k < |i.ups| && HadRecord(t, i.ups[k], d) {
      HadRecordStays(s, t, c, i.ups[k], d);
    }
  }

  lemma LookStays(s: State, t: State, c: Id, b: Id)
    requires Goes(s, t, c) && b in s.invs && LookOk(s, b) && t.invs[b] == s.invs[b]
    ensures LookOk(t, b)
  {
    var i := s.invs[b];
    if Looking(i.phase) {
      SoFarStays(s, t, c, i.listed[i.phase.l.at], i.plan, i.phase.l);
    }
  }

  /** An invocation that has cleared no more than before. */
  lemma RoundStays(s: State, t: State, c: Id, b: Id)
    requires Goes(s, t, c) && b in s.invs && RoundOk(s, b) && t.invs[b].listed == s.invs[b].listed
    requires Cleared(t.invs[b]) <= Cleared(s.invs[b])
    ensures RoundOk(t, b)
  {
    var i, j := s.invs[b], t.invs[b];
    forall k | 0 <= k < Cleared(j) && k < |j.ups| ensures Clear(t, j, k) {
      StaysClear(s, t, c, i, j, k);
    }
  }

  // ----- every step keeps the locks -----

  lemma WaitKeepsHolds(s: State, c: Id, w: WaitStep)
    requires CanWait(s, c, w) && Holds(s)
    ensures Holds(AfterWait(s, c, w))
  {
    var t := AfterWait(s, c, w);
    WaitGoes(s, c, w);
    forall b | b in t.invs ensures HeldOk(t, b) {
      assert HeldOk(s, b);
    }
  }

  lemma WorkKeepsHeldOther(s: State, c: Id, k: WorkStep, b: Id)
    requires CanWork(s, c, k) && Holds(s) && b in s.invs && b != c
    ensures HeldOk(AfterWork(s, c, k), b)
  {
    assert HeldOk(s, b);
    assert c in s.invs ==> HeldOk(s, c);
  }

  predicate Locking(k: WorkStep) {
    k.Take? || k.Release? || k.GiveUp? || k.Crash?
  }

  lemma LockingKeepsHeldOwn(s: State, c: Id, k: WorkStep)
    requires CanWork(s, c, k) && Locking(k) && HeldOk(s, c)
    ensures HeldOk(AfterWork(s, c, k), c)
  {
  }

  lemma OthersKeepHeldOwn(s: State, c: Id, k: WorkStep)
    requires CanWork(s, c, k) && !Locking(k) && !k.Start? && HeldOk(s, c)
    ensures HeldOk(AfterWork(s, c, k), c)
  {
    assert WorkHeld(s.invs[c], k) == s.invs[c].held && WorkLocks(s, c, k) == s.locks;
  }

  lemma WorkKeepsHeldOwn(s: State, c: Id, k: WorkStep)
    requires CanWork(s, c, k) && Holds(s)
    ensures HeldOk(AfterWork(s, c, k), c)
  {
    if k.Start? {
      assert forall p :: p in s.locks ==> s.locks[p] != c;
    } else if Locking(k) {
      LockingKeepsHeldOwn(s, c, k);
    } else {
      OthersKeepHeldOwn(s, c, k);
    }
  }

  lemma WorkKeepsHolds(s: State, c: Id, k: WorkStep)
    requires CanWork(s, c, k) && Holds(s)
    ensures Holds(AfterWork(s, c, k))
  {
    var t := AfterWork(s, c, k);
    WorkGoes(s, c, k);
    forall b | b in t.invs ensures HeldOk(t, b) {
      if b == c {
        WorkKeepsHeldOwn(s, c, k);
      } else {
        WorkKeepsHeldOther(s, c, k, b);
      }
    }
  }

  // ----- and the flocks and records -----

  /** What is swept or probed is another's record. */
  lemma NextIsAnother(s: State, c: Id)
    requires Listings(s) && LooksOk(s) && HasNext(s, c)
    ensures var b := NextRecord(s, c); b in s.invs && b != c && PastPublish(s.invs[b].phase)
  {
    assert LookOk(s, c) && ListedOk(s, c);
    var l := s.invs[c].phase.l;
    assert l.todo[0] in l.todo;
    assert HadRecord(s, s.invs[c].ups[l.at], l.todo[0]);
  }

  /** A record that is being swept has nobody behind it. */
  lemma SweptIsGone(s: State, c: Id)
    requires LooksOk(s) && HasNext(s, c) && !s.invs[c].phase.Scan? && !s.invs[c].phase.Read?
    ensures var b := NextRecord(s, c); b in s.invs && Gone(s.invs[b].phase)
  {
    assert LookOk(s, c);
  }

  /** A step of a wait takes or frees only the flock of the record it is at, and never as its publisher. */
  lemma WaitSparesFlock(s: State, c: Id, w: WaitStep, b: Id)
    requires CanWait(s, c, w) && b in s.invs && FlockOk(s, b) && (HasNext(s, c) ==> NextRecord(s, c) != c)
    requires w.SweepsLock? && b == NextRecord(s, c) ==> !HasFlock(s.invs[b].phase)
    ensures FlockOk(AfterWait(s, c, w), b)
  {
    WaitGoes(s, c, w);
  }

  lemma WaitKeepsFlock(s: State, c: Id, w: WaitStep, b: Id)
    requires CanWait(s, c, w) && Flocks(s) && Listings(s) && LooksOk(s) && b in s.invs
    ensures FlockOk(AfterWait(s, c, w), b)
  {
    assert FlockOk(s, b);
    if HasNext(s, c) {
      NextIsAnother(s, c);
    }
    if w.SweepsLock? {
      SweptIsGone(s, c);
    }
    WaitSparesFlock(s, c, w, b);
  }

  lemma WaitKeepsFlocks(s: State, c: Id, w: WaitStep)
    requires CanWait(s, c, w) && Flocks(s) && Listings(s) && LooksOk(s)
    ensures Flocks(AfterWait(s, c, w))
  {
    WaitGoes(s, c, w);
    forall b | b in AfterWait(s, c, w).invs ensures FlockOk(AfterWait(s, c, w), b) {
      WaitKeepsFlock(s, c, w, b);
    }
  }

  lemma WorkKeepsFlock(s: State, c: Id, k: WorkStep, b: Id)
    requires CanWork(s, c, k) && Flocks(s) && b in AfterWork(s, c, k).invs
    ensures FlockOk(AfterWork(s, c, k), b)
  {
    assert b in s.invs ==> FlockOk(s, b);
    assert c in s.invs ==> FlockOk(s, c);
  }

  lemma WorkKeepsFlocks(s: State, c: Id, k: WorkStep)
    requires CanWork(s, c, k) && Flocks(s)
    ensures Flocks(AfterWork(s, c, k))
  {
    WorkGoes(s, c, k);
    forall b | b in AfterWork(s, c, k).invs ensures FlockOk(AfterWork(s, c, k), b) {
      WorkKeepsFlock(s, c, k, b);
    }
  }

  lemma WaitKeepsRecords(s: State, c: Id, w: WaitStep)
    requires CanWait(s, c, w) && Records(s) && LooksOk(s)
    ensures Records(AfterWait(s, c, w))
  {
    var t := AfterWait(s, c, w);
    WaitGoes(s, c, w);
    if w.SweepsRecord? {
      SweptIsGone(s, c);
    }
    forall b | b in t.invs ensures RecordOk(t, b) {
      assert RecordOk(s, b);
    }
  }

  lemma WorkKeepsRecord(s: State, c: Id, k: WorkStep, b: Id)
    requires CanWork(s, c, k) && Records(s) && b in AfterWork(s, c, k).invs
    ensures RecordOk(AfterWork(s, c, k), b)
  {
    assert b in s.invs ==> RecordOk(s, b);
  }

  lemma WorkKeepsRecords(s: State, c: Id, k: WorkStep)
    requires CanWork(s, c, k) && Records(s)
    ensures Records(AfterWork(s, c, k))
  {
    WorkGoes(s, c, k);
    forall b | b in AfterWork(s, c, k).invs ensures RecordOk(AfterWork(s, c, k), b) {
      WorkKeepsRecord(s, c, k, b);
    }
  }

  // ----- and what a wait knows -----

  /** What is listed has a record, and so is past publishing. */
  lemma ListedNow(s: State, u: Proc, ids: seq<Id>, b: Id)
    requires Records(s) && Lists(s, u, ids) && b in ids
    ensures HadRecord(s, u, b)
  {
    assert RecordOk(s, b);
  }

  lemma WaitKeepsListed(s: State, c: Id, w: WaitStep)
    requires CanWait(s, c, w) && Records(s) && Listings(s)
    ensures ListedOk(AfterWait(s, c, w), c)
  {
    var t, i := AfterWait(s, c, w), s.invs[c];
    WaitGoes(s, c, w);
    assert ListedOk(s, c);
    forall k, b | k in t.invs[c].listed && b in t.invs[c].listed[k]
      ensures k < |i.ups| && HadRecord(t, i.ups[k], b)
    {
      if w.ListRecords? && k == i.phase.at {
        ListedNow(s, i.ups[k], w.ids, b);
      }
      HadRecordStays(s, t, c, i.ups[k], b);
    }
  }

  lemma WaitKeepsListings(s: State, c: Id, w: WaitStep)
    requires CanWait(s, c, w) && Records(s) && Listings(s)
    ensures Listings(AfterWait(s, c, w))
  {
    WaitGoes(s, c, w);
    forall b | b in s.invs ensures ListedOk(AfterWait(s, c, w), b) {
      if b == c {
        WaitKeepsListed(s, c, w);
      } else {
        ListedStays(s, AfterWait(s, c, w), c, b);
      }
    }
  }

  lemma WorkKeepsListings(s: State, c: Id, k: WorkStep)
    requires CanWork(s, c, k) && Listings(s)
    ensures Listings(AfterWork(s, c, k))
  {
    var t := AfterWork(s, c, k);
    WorkGoes(s, c, k);
    forall b | b in t.invs ensures ListedOk(t, b) {
      if b in s.invs {
        ListedStays(s, t, c, b);
      }
    }
  }

  /** A record that is done with and stands in nobody's way. */
  lemma PopAnswered(s: State, listed: set<Id>, plan: set<Path>, l: Look)
    requires SoFar(s, listed, plan, l) && l.todo != [] && Answered(s, l.todo[0], plan)
    ensures SoFar(s, listed, plan, Pop(l))
  {
    forall b | b in listed && b !in l.todo[1..] && b in l.todo ensures b == l.todo[0] {
    }
  }

  /** A record whose publisher is taken to live. */
  lemma PopSettled(s: State, listed: set<Id>, plan: set<Path>, l: Look, b: Id)
    requires SoFar(s, listed, plan, l) && l.todo != [] && b == l.todo[0] && b in listed && b in s.invs
    ensures SoFar(s, listed, plan,
                  Pop(l).(settled := true, conflict := l.conflict || !(s.invs[b].plan !! plan)))
  {
    if s.invs[b].plan !! plan {
      assert Harmless(s, b, plan);
      PopAnswered(s, listed, plan, l);
    }
  }

  /** A flock found free after the record was read means the publisher is gone. */
  lemma FreeMeansGone(s: State, c: Id)
    requires Flocks(s) && Listings(s) && LooksOk(s) && HasNext(s, c) && NextRecord(s, c) !in s.flock
    ensures var b := NextRecord(s, c); b in s.invs && Gone(s.invs[b].phase)
  {
    NextIsAnother(s, c);
    assert FlockOk(s, NextRecord(s, c));
  }

  /** A listed record that is no longer there was withdrawn, by its publisher or by a sweep. */
  lemma MissedMeansWithdrawn(s: State, c: Id)
    requires Records(s) && Listings(s) && LooksOk(s) && HasNext(s, c) && NextRecord(s, c) !in s.records
    ensures var b := NextRecord(s, c); b in s.invs && Withdrawn(s.invs[b].phase)
  {
    NextIsAnother(s, c);
    assert RecordOk(s, NextRecord(s, c));
  }

  /** What a look may say of itself, by the state it was taken in. */
  ghost predicate Sees(s: State, i: Inv, listed: map<nat, set<Id>>, l: Look) {
    && l.at < |i.ups| && l.at in listed && (forall b :: b in l.todo ==> b in listed[l.at])
    && SoFar(s, listed[l.at], i.plan, l)
  }

  lemma PopSees(s: State, i: Inv, l: Look)
    requires Sees(s, i, i.listed, l) && l.todo != [] && Answered(s, l.todo[0], i.plan)
    ensures Sees(s, i, i.listed, Pop(l))
  {
    PopAnswered(s, i.listed[l.at], i.plan, l);
    assert forall b :: b in l.todo[1..] ==> b in l.todo;
  }

  lemma BusySees(s: State, i: Inv, l: Look, rec: set<Path>)
    requires Sees(s, i, i.listed, l) && l.todo != [] && l.todo[0] in s.invs && rec == s.invs[l.todo[0]].plan
    ensures Sees(s, i, i.listed, Pop(l).(settled := true, conflict := l.conflict || !(rec !! i.plan)))
  {
    assert l.todo[0] in l.todo;
    PopSettled(s, i.listed[l.at], i.plan, l, l.todo[0]);
    assert forall b :: b in l.todo[1..] ==> b in l.todo;
  }

  /** The look after a step of the wait, judged by the state before it. */
  lemma LookGoesOn(s: State, c: Id, w: WaitStep)
    requires CanWait(s, c, w) && Records(s) && Listings(s) && LooksOk(s) && Looking(WaitPhase(s, c, w))
    ensures Sees(s, s.invs[c], WaitListed(s, c, w), WaitPhase(s, c, w).l)
  {
    var i := s.invs[c];
    assert LookOk(s, c);
    match w
    case MissRecord =>
      MissedMeansWithdrawn(s, c);
      PopSees(s, i, i.phase.l);
    case SweepsLock => PopSees(s, i, i.phase.l);
    case ProbeBusy => BusySees(s, i, i.phase.l, i.phase.rec);
    case ListRecords(ids) => assert forall b :: b in ids <==> b in Members(ids);
    case _ =>
  }

  /** What the phase of a look says of the record it is at. */
  lemma LookIsAtRecord(s: State, c: Id, w: WaitStep)
    requires CanWait(s, c, w) && Flocks(s) && Records(s) && Listings(s) && LooksOk(s)
    requires Looking(WaitPhase(s, c, w)) && !WaitPhase(s, c, w).Scan?
    ensures var p := WaitPhase(s, c, w);
            && p.l.todo != [] && p.l.todo[0] in s.invs
            && (if p.Read? then p.rec == s.invs[p.l.todo[0]].plan else Gone(s.invs[p.l.todo[0]].phase))
  {
    if w.ReadRecord? {
      NextIsAnother(s, c);
      assert RecordOk(s, NextRecord(s, c));
    } else if w.ProbeFree? {
      FreeMeansGone(s, c);
    } else {
      assert LookOk(s, c);
    }
  }

  lemma WaitKeepsLook(s: State, c: Id, w: WaitStep)
    requires CanWait(s, c, w) && Flocks(s) && Records(s) && Listings(s) && LooksOk(s)
    ensures LookOk(AfterWait(s, c, w), c)
  {
    var t, p := AfterWait(s, c, w), WaitPhase(s, c, w);
    WaitGoes(s, c, w);
    if Looking(p) {
      LookGoesOn(s, c, w);
      SoFarStays(s, t, c, t.invs[c].listed[p.l.at], t.invs[c].plan, p.l);
      if !p.Scan? {
        LookIsAtRecord(s, c, w);
      }
    }
  }

  lemma WaitKeepsLooks(s: State, c: Id, w: WaitStep)
    requires CanWait(s, c, w) && Flocks(s) && Records(s) && Listings(s) && LooksOk(s)
    ensures LooksOk(AfterWait(s, c, w))
  {
    WaitGoes(s, c, w);
    forall b | b in s.invs ensures LookOk(AfterWait(s, c, w), b) {
      if b == c {
        WaitKeepsLook(s, c, w);
      } else {
        LookStays(s, AfterWait(s, c, w), c, b);
      }
    }
  }

  lemma WorkKeepsLooks(s: State, c: Id, k: WorkStep)
    requires CanWork(s, c, k) && LooksOk(s)
    ensures LooksOk(AfterWork(s, c, k))
  {
    var t := AfterWork(s, c, k);
    WorkGoes(s, c, k);
    forall b | b in t.invs ensures LookOk(t, b) {
      if b != c {
        LookStays(s, t, c, b);
      }
    }
  }

  /** A step of the wait clears one more only where that one is clear. */
  lemma ClearsOneMore(s: State, c: Id, w: WaitStep, k: nat)
    requires CanWait(s, c, w) && LooksOk(s)
    requires Cleared(s.invs[c]) <= k < Cleared(AfterWait(s, c, w).invs[c]) && k < |s.invs[c].ups|
    ensures Clear(s, s.invs[c], k) && !w.ListRecords?
  {
    assert LookOk(s, c);
  }

  lemma WaitKeepsRound(s: State, c: Id, w: WaitStep)
    requires CanWait(s, c, w) && LooksOk(s) && Rounds(s)
    ensures RoundOk(AfterWait(s, c, w), c)
  {
    var t, i := AfterWait(s, c, w), s.invs[c];
    var j := t.invs[c];
    WaitGoes(s, c, w);
    assert RoundOk(s, c);
    forall k | 0 <= k < Cleared(j) && k < |j.ups| ensures Clear(t, j, k) {
      if k >= Cleared(i) {
        ClearsOneMore(s, c, w, k);
      }
      StaysClear(s, t, c, i, j, k);
    }
  }

  lemma WaitKeepsRounds(s: State, c: Id, w: WaitStep)
    requires CanWait(s, c, w) && LooksOk(s) && Rounds(s)
    ensures Rounds(AfterWait(s, c, w))
  {
    WaitGoes(s, c, w);
    forall b | b in s.invs ensures RoundOk(AfterWait(s, c, w), b) {
      if b == c {
        WaitKeepsRound(s, c, w);
      } else {
        RoundStays(s, AfterWait(s, c, w), c, b);
      }
    }
  }

  lemma WorkKeepsRounds(s: State, c: Id, k: WorkStep)
    requires CanWork(s, c, k) && Rounds(s)
    ensures Rounds(AfterWork(s, c, k))
  {
    var t := AfterWork(s, c, k);
    WorkGoes(s, c, k);
    forall b | b in t.invs ensures RoundOk(t, b) {
      if b in s.invs {
        RoundStays(s, t, c, b);
      }
    }
  }

  // ----- every step keeps the invariant -----

  /** That a process closes its pipe changes no invocation. */
  lemma StopKeepsValid(s: State, q: Proc)
    requires Valid(s)
    ensures Valid(s.(stopped := s.stopped + {q}))
  {
    var t := s.(stopped := s.stopped + {q});
    forall c | c in s.invs ensures HeldOk(t, c) && FlockOk(t, c) && RecordOk(t, c) {
      assert HeldOk(s, c) && FlockOk(s, c) && RecordOk(s, c);
    }
    forall c | c in s.invs ensures ListedOk(t, c) && LookOk(t, c) && RoundOk(t, c) {
      assert ListedOk(s, c) && LookOk(s, c) && RoundOk(s, c);
      ListedStays(s, t, c, c);
      LookStays(s, t, c, c);
      RoundStays(s, t, c, c);
    }
  }

  lemma StepKeepsValid(s: State, e: Event)
    requires Can(s, e) && Valid(s)
    ensures Valid(Next(s, e))
  {
    match e
    case Wait(c, w) =>
      WaitKeepsHolds(s, c, w);
      WaitKeepsFlocks(s, c, w);
      WaitKeepsRecords(s, c, w);
      WaitKeepsListings(s, c, w);
      WaitKeepsLooks(s, c, w);
      WaitKeepsRounds(s, c, w);
    case Work(c, k) =>
      WorkKeepsHolds(s, c, k);
      WorkKeepsFlocks(s, c, k);
      WorkKeepsRecords(s, c, k);
      WorkKeepsListings(s, c, k);
      WorkKeepsLooks(s, c, k);
      WorkKeepsRounds(s, c, k);
    case StopWriting(q) => StopKeepsValid(s, q);
  }

  // ----- every run -----

  ghost predicate Run(states: seq<State>, events: seq<Event>) {
    |states| == |events| + 1 && states[0] == INIT &&
    forall k :: 0 <= k < |events| ==> Can(states[k], events[k]) && states[k + 1] == Next(states[k], events[k])
  }

  lemma {:induction false} RunKeepsValid(states: seq<State>, events: seq<Event>, k: nat)
    requires Run(states, events) && k < |states|
    ensures Valid(states[k])
  {
    if k > 0 {
      RunKeepsValid(states, events, k - 1);
      StepKeepsValid(states[k - 1], events[k - 1]);
    }
  }

  /** A live publisher's readable record names exactly the locks it holds, and its flock is held by it. */
  lemma RecordMeansHeld(states: seq<State>, events: seq<Event>, k: nat, c: Id)
    requires Run(states, events) && k < |states| && c in states[k].records
    ensures var s := states[k];
            && c in s.invs
            && (Live(s.invs[c].phase) ==>
                  && c in s.flock && s.flock[c] == c
                  && s.records[c] == s.invs[c].plan == s.invs[c].held
                  && forall p :: p in s.records[c] ==> p in s.locks && s.locks[p] == c)
  {
    var s := states[k];
    RunKeepsValid(states, events, k);
    assert RecordOk(s, c) && FlockOk(s, c) && HeldOk(s, c);
  }

  predicate Sweeping(e: Event) {
    e.Wait? && (e.w.SweepsRecord? || e.w.SweepsLock?)
  }

  /** What a sweep removes, record or lock file, was left by a publisher that is gone or has retracted it. */
  lemma SweepSparesLivePublishers(states: seq<State>, events: seq<Event>, k: nat)
    requires Run(states, events) && k < |events| && Sweeping(events[k])
    ensures var s, b := states[k], NextRecord(states[k], events[k].c);
            b in s.invs && Gone(s.invs[b].phase) && !(b in s.flock && s.flock[b] == b)
  {
    var s, c := states[k], events[k].c;
    RunKeepsValid(states, events, k);
    SweptIsGone(s, c);
    assert FlockOk(s, NextRecord(s, c));
  }

  /** A published record stays readable, its flock held, until its publisher retracts it or crashes. */
  lemma ClaimLastsUntilRetracted(states: seq<State>, events: seq<Event>, k: nat, c: Id)
    requires Run(states, events) && k < |events| && c in states[k].invs && states[k].invs[c].phase.Published?
    requires events[k] != Work(c, Retract) && events[k] != Work(c, Crash)
    ensures c in states[k + 1].records && states[k + 1].records[c] == states[k].invs[c].plan
    ensures c in states[k + 1].flock && states[k + 1].flock[c] == c
  {
    var s, t := states[k], states[k + 1];
    RunKeepsValid(states, events, k + 1);
    match events[k]
    case Wait(b, w) => WaitGoes(s, b, w);
    case Work(b, w) => WorkGoes(s, b, w);
    case StopWriting(_) =>
    assert t.invs[c].phase.Published? && t.invs[c].plan == s.invs[c].plan;
    assert RecordOk(t, c) && FlockOk(t, c);
  }

  // ----- what is published, swept and left behind -----

  /** The phases past taking locks, each entered by one step. */
  predicate Late(p: Phase) {
    Full(p) || p.Unpublished? || p.Releasing? || p.Exited? || p.Crashed?
  }

  function Into(p: Phase): WorkStep
    requires Late(p)
  {
    match p
    case Holding => AllTaken
    case Flocked => Flock
    case Published => Publish
    case Retracted => Retract
    case Unflocked => Unflock
    case Unpublished => SkipPublish
    case Releasing => DropLockFile
    case Exited => Exit
    case Crashed => Crash
  }

  lemma EntersNow(s: State, e: Event, t: State, c: Id)
    requires Can(s, e) && t == Next(s, e) && c in t.invs && Late(t.invs[c].phase)
    requires c in s.invs ==> s.invs[c].phase != t.invs[c].phase
    ensures e == Work(c, Into(t.invs[c].phase))
  {
    match e
    case Wait(b, w) => WaitGoes(s, b, w);
    case Work(b, k) =>
      WorkGoes(s, b, k);
      if b == c && !k.Start? {
        WorkLeadsInto(s, c, s.invs[c], k);
      }
    case StopWriting(_) =>
  }

  lemma WorkLeadsInto(s: State, c: Id, i: Inv, k: WorkStep)
    requires MayWork(s, c, i, k) && WorkPhase(i, k) != i.phase
    ensures Late(WorkPhase(i, k)) && k == Into(WorkPhase(i, k))
  {
  }

  /** An invocation is in such a phase only by the step that leads there. */
  lemma {:induction false} EnteredBy(states: seq<State>, events: seq<Event>, k: nat, c: Id)
    requires Run(states, events) && k < |states| && c in states[k].invs && Late(states[k].invs[c].phase)
    ensures exists j: nat :: j < k && events[j] == Work(c, Into(states[k].invs[c].phase))
  {
    var s := states[k - 1];
    if c in s.invs && s.invs[c].phase == states[k].invs[c].phase {
      EnteredBy(states, events, k - 1, c);
    } else {
      EntersNow(s, events[k - 1], states[k], c);
    }
  }

  /** The step that must come before `k`. */
  function Prior(k: WorkStep): WorkStep
    requires k.Retract? || k.Unflock? || k.DropLockFile?
  {
    if k.Retract? then Publish else if k.Unflock? then Retract else Unflock
  }

  lemma Preceded(states: seq<State>, events: seq<Event>, d: nat, c: Id, k: WorkStep) returns (u: nat)
    requires Run(states, events) && d < |events| && events[d] == Work(c, k)
    requires k.Retract? || k.Unflock? || k.DropLockFile?
    ensures u < d && events[u] == Work(c, Prior(k))
  {
    assert CanWork(states[d], c, k);
    EnteredBy(states, events, d, c);
    u :| u < d && events[u] == Work(c, Prior(k));
  }

  /** A run that publishes withdraws in order before it gives its locks back: the record, then its flock, then
      the lock file. */
  lemma WithdrawsInOrder(states: seq<State>, events: seq<Event>, k: nat, c: Id)
      returns (p: nat, r: nat, u: nat, d: nat)
    requires Run(states, events) && k < |states| && c in states[k].invs && states[k].invs[c].phase.Releasing?
    ensures p < r < u < d < k && events[p] == Work(c, Publish) && events[r] == Work(c, Retract)
    ensures events[u] == Work(c, Unflock) && events[d] == Work(c, DropLockFile)
  {
    EnteredBy(states, events, k, c);
    d :| d < k && events[d] == Work(c, DropLockFile);
    u := Preceded(states, events, d, c, DropLockFile);
    r := Preceded(states, events, u, c, Unflock);
    p := Preceded(states, events, r, c, Retract);
  }

  /** A process counts as silent if and only if it has closed its pipe. */
  lemma {:induction false} SilentIffClosed(states: seq<State>, events: seq<Event>, k: nat, q: Proc)
    requires Run(states, events) && k < |states|
    ensures q in states[k].stopped <==> exists j: nat :: j < k && events[j] == StopWriting(q)
  {
    if k > 0 {
      SilentIffClosed(states, events, k - 1, q);
      assert q in states[k].stopped <==> q in states[k - 1].stopped || events[k - 1] == StopWriting(q);
    }
  }

  /** A flock on another's record is held only for as long as the probe that took it. */
  ghost predicate ProbeOnly(s: State, b: Id)
    requires b in s.flock
  {
    var c := s.flock[b];
    c != b ==> HasNext(s, c) && s.invs[c].phase.Probe? && NextRecord(s, c) == b
  }

  ghost predicate ProbesOnly(s: State) {
    forall b :: b in s.flock ==> ProbeOnly(s, b)
  }

  lemma WaitKeepsProbe(s: State, c: Id, w: WaitStep, b: Id)
    requires CanWait(s, c, w) && b in WaitFlock(s, c, w) && (b in s.flock ==> ProbeOnly(s, b))
    ensures ProbeOnly(AfterWait(s, c, w), b)
  {
    WaitGoes(s, c, w);
  }

  lemma WorkKeepsProbe(s: State, c: Id, k: WorkStep, b: Id)
    requires CanWork(s, c, k) && b in AfterWork(s, c, k).flock && (b in s.flock ==> ProbeOnly(s, b))
    ensures ProbeOnly(AfterWork(s, c, k), b)
  {
    WorkGoes(s, c, k);
  }

  lemma StepKeepsProbes(s: State, e: Event, t: State)
    requires Can(s, e) && t == Next(s, e) && ProbesOnly(s)
    ensures ProbesOnly(t)
  {
    forall b | b in t.flock ensures ProbeOnly(t, b) {
      match e
      case Wait(c, w) => WaitKeepsProbe(s, c, w, b);
      case Work(c, k) => WorkKeepsProbe(s, c, k, b);
      case StopWriting(_) => assert ProbeOnly(s, b);
    }
  }

  lemma {:induction false} ProbesLetGo(states: seq<State>, events: seq<Event>, k: nat)
    requires Run(states, events) && k < |states|
    ensures ProbesOnly(states[k])
  {
    if k > 0 {
      ProbesLetGo(states, events, k - 1);
      StepKeepsProbes(states[k - 1], events[k - 1], states[k]);
    }
  }

  /** Step `j` unlinks the lock file of `b`: a sweep does, or its publisher. */
  ghost predicate Unlinks(s: State, e: Event, b: Id) {
    (e.Wait? && e.w.SweepsLock? && NextRecord(s, e.c) == b) || e == Work(b, DropLockFile)
  }

  /** Step `m` is a probe of `b` that finds its flock free. */
  ghost predicate ProbedAt(states: seq<State>, events: seq<Event>, j: nat, m: nat, k: nat, b: Id) {
    && j < m < k <= |events| < |states| && events[m].Wait? && events[m].w.ProbeFree?
    && NextRecord(states[m], events[m].c) == b
  }

  lemma FlockComesFrom(s: State, e: Event, t: State, b: Id)
    requires Can(s, e) && t == Next(s, e) && b in t.flock && b in s.invs && Gone(s.invs[b].phase)
    ensures !Unlinks(s, e, b)
    ensures b in s.flock || (e.Wait? && e.w.ProbeFree? && NextRecord(s, e.c) == b)
  {
  }

  lemma {:induction false} GoneForGood(states: seq<State>, events: seq<Event>, j: nat, k: nat, b: Id)
    requires Run(states, events) && j <= k < |states| && b in states[j].invs && Gone(states[j].invs[b].phase)
    ensures b in states[k].invs && Gone(states[k].invs[b].phase)
    decreases k
  {
    if j < k {
      GoneForGood(states, events, j, k - 1, b);
      GoneStep(states[k - 1], events[k - 1], states[k], b);
    }
  }

  lemma GoneStep(s: State, e: Event, t: State, b: Id)
    requires Can(s, e) && t == Next(s, e) && b in s.invs && Gone(s.invs[b].phase)
    ensures b in t.invs && Gone(t.invs[b].phase)
  {
    match e
    case Wait(c, w) => WaitGoes(s, c, w);
    case Work(c, w) => WorkGoes(s, c, w);
    case StopWriting(_) =>
  }

  /** After its lock file is unlinked the flock of a record is free, but for probes that come later. */
  lemma {:induction false} UnlinkedIsFree(states: seq<State>, events: seq<Event>, j: nat, k: nat, b: Id)
    requires Run(states, events) && j < k < |states| && Unlinks(states[j], events[j], b) && b in states[k].flock
    ensures exists m: nat :: ProbedAt(states, events, j, m, k, b)
    decreases k
  {
    var was := k - 1;
    RunKeepsValid(states, events, j);
    if events[j].Wait? {
      SweptIsGone(states[j], events[j].c);
    }
    GoneForGood(states, events, j, was, b);
    FlockComesFrom(states[was], events[was], states[k], b);
    if b in states[was].flock && j < was {
      UnlinkedIsFree(states, events, j, was, b);
      var m: nat :| ProbedAt(states, events, j, m, was, b);
      assert ProbedAt(states, events, j, m, k, b);
    } else {
      assert ProbedAt(states, events, j, was, k, b);
    }
  }

  /** A swept record is gone for good. */
  lemma {:induction false} SweptStaysSwept(states: seq<State>, events: seq<Event>, j: nat, k: nat)
    requires Run(states, events) && j < k < |states| && events[j].Wait? && events[j].w.SweepsRecord?
    ensures NextRecord(states[j], events[j].c) !in states[k].records
    decreases k
  {
    var b := NextRecord(states[j], events[j].c);
    if j + 1 < k {
      SweptStaysSwept(states, events, j, k - 1);
      RunKeepsValid(states, events, j);
      SweptIsGone(states[j], events[j].c);
      GoneForGood(states, events, j, k - 1, b);
    }
  }

  // ----- what the end of a wait is worth -----

  /** `b` needs some of `plan` and has neither ended nor withdrawn a record: it holds, or may yet take, some of it. */
  predicate Threatens(s: State, b: Id, plan: set<Path>) {
    b in s.invs && !Withdrawn(s.invs[b].phase) && !(s.invs[b].plan !! plan)
  }

  /** `c` is past its wait, and its `j`th upstream process still writes. */
  ghost predicate WaitedFor(s: State, c: Id, j: nat) {
    && c in s.invs && !Waits(s.invs[c].phase) && !s.invs[c].phase.Crashed?
    && j < |s.invs[c].ups| && s.invs[c].ups[j] !in s.stopped
  }

  /**
   * From the end of a wait on, every upstream process still writing has published, by some
   * invocation, a set with nothing of the plan, and nothing that was listed stands in the way.
   */
  lemma WaitEndsClear(states: seq<State>, events: seq<Event>, k: nat, c: Id, j: nat)
    requires Run(states, events) && k < |states| && WaitedFor(states[k], c, j)
    ensures var s, i := states[k], states[k].invs[c];
            && j in i.listed
            && (exists b :: b in i.listed[j] && HadRecord(s, i.ups[j], b)
                            && s.invs[b].plan !! i.plan && s.invs[b].held !! i.plan)
            && forall b :: b in i.listed[j] ==> !Threatens(s, b, i.plan)
  {
    var s, i := states[k], states[k].invs[c];
    RunKeepsValid(states, events, k);
    assert RoundOk(s, c) && ListedOk(s, c);
    assert Clear(s, i, j);
    var b :| b in i.listed[j] && Harmless(s, b, i.plan);
    assert HadRecord(s, i.ups[j], b) && HeldOk(s, b);
    forall d | d in i.listed[j] ensures !Threatens(s, d, i.plan) {
      assert Answered(s, d, i.plan);
    }
  }

  /** Whatever of an upstream process still writing keeps a run from a lock was not listed, or is on its way out. */
  lemma BlockerWasNotListed(states: seq<State>, events: seq<Event>, k: nat, c: Id, j: nat, p: Path)
    requires Run(states, events) && k < |states| && WaitedFor(states[k], c, j)
    requires p in states[k].invs[c].plan && p in states[k].locks
    ensures var s, i, b := states[k], states[k].invs[c], states[k].locks[p];
            b in s.invs && j in i.listed && (Withdrawn(s.invs[b].phase) || b !in i.listed[j])
  {
    var s, b := states[k], states[k].locks[p];
    RunKeepsValid(states, events, k);
    WaitEndsClear(states, events, k, c, j);
    assert HeldOk(s, b);
  }

  /** A listing misses no record: an invocation that has published is in it. */
  lemma ListingIsComplete(states: seq<State>, events: seq<Event>, k: nat, b: Id)
    requires Run(states, events) && k < |events| && events[k].Wait? && events[k].w.ListRecords?
    requires var s, i := states[k], states[k].invs[events[k].c];
             b in s.invs && s.invs[b].proc == i.ups[i.phase.at] && s.invs[b].phase.Published?
    ensures var at := states[k].invs[events[k].c].phase.at; b in states[k + 1].invs[events[k].c].listed[at]
  {
    RunKeepsValid(states, events, k);
    assert RecordOk(states[k], b);
  }

  /**
   * Nothing of an upstream process still writing stands in the way of a run past its wait if and only
   * if all that would were listed by its last look: had published, that is, by then.
   */
  lemma NothingInTheWayIff(states: seq<State>, events: seq<Event>, k: nat, c: Id, j: nat)
    requires Run(states, events) && k < |states| && WaitedFor(states[k], c, j)
    ensures var s, i := states[k], states[k].invs[c];
            && j in i.listed
            && ((forall b :: b in s.invs && s.invs[b].proc == i.ups[j] ==> !Threatens(s, b, i.plan)) <==>
                (forall b :: b in s.invs && s.invs[b].proc == i.ups[j] && Threatens(s, b, i.plan) ==> b in i.listed[j]))
  {
    WaitEndsClear(states, events, k, c, j);
  }

  /** A process with one invocation has nothing that was not listed: it holds, and will take, nothing of the plan. */
  lemma SoleInvocationIsClear(states: seq<State>, events: seq<Event>, k: nat, c: Id, j: nat, b: Id)
    requires Run(states, events) && k < |states| && WaitedFor(states[k], c, j)
    requires var s, u := states[k], states[k].invs[c].ups[j];
             && b in s.invs && s.invs[b].proc == u
             && forall d :: d in s.invs && s.invs[d].proc == u ==> d == b
    ensures var s, i := states[k], states[k].invs[c];
            PastPublish(s.invs[b].phase) && s.invs[b].plan !! i.plan && s.invs[b].held !! i.plan
  {
    WaitEndsClear(states, events, k, c, j);
  }

  // ----- a wait ends -----

  /**
   * All is well for `plan`: each upstream process is one of `silent`, which no longer write, or its
   * invocation in `wit` has published, and no record of the process has anything of the plan.
   */
  ghost predicate AllWell(s: State, plan: set<Path>, ups: seq<Proc>, silent: set<Proc>, wit: seq<Id>)
    requires |wit| == |ups|
  {
    silent <= s.stopped && forall k :: 0 <= k < |ups| ==> ups[k] in silent || WellWith(s, plan, ups[k], wit[k])
  }

  ghost predicate WellWith(s: State, plan: set<Path>, u: Proc, b: Id) {
    && b in s.invs && s.invs[b].proc == u && s.invs[b].phase.Published?
    && forall d :: d in s.records && d in s.invs && s.invs[d].proc == u ==> s.records[d] !! plan
  }

  /** The wait has met nothing that blocks it, and has settled on the witness or has it still to read. */
  ghost predicate OnTrack(i: Inv, silent: set<Proc>, wit: seq<Id>)
    requires |wit| == |i.ups|
  {
    match i.phase
    case Poll(_, blocked) => !blocked
    case Scan(l) => LookOnTrack(i, silent, wit, l)
    case Read(l, rec) => LookOnTrack(i, silent, wit, l) && rec !! i.plan
    case Probe(l) => LookOnTrack(i, silent, wit, l)
    case SweepRecord(l) => LookOnTrack(i, silent, wit, l)
    case SweepLock(l) => LookOnTrack(i, silent, wit, l)
    case _ => false
  }

  ghost predicate LookOnTrack(i: Inv, silent: set<Proc>, wit: seq<Id>, l: Look)
    requires |wit| == |i.ups|
  {
    && !l.blocked && !l.conflict && l.at < |i.ups| && i.ups[l.at] !in silent
    && (l.settled || wit[l.at] in l.todo)
  }

  lemma PopOnTrack(i: Inv, silent: set<Proc>, wit: seq<Id>, l: Look)
    requires |wit| == |i.ups| && LookOnTrack(i, silent, wit, l) && l.todo != [] && l.todo[0] != wit[l.at]
    ensures LookOnTrack(i, silent, wit, Pop(l))
  {
    assert l.todo == [l.todo[0]] + l.todo[1..];
  }

  /** The witness's record is neither missed nor found without its publisher. */
  lemma WitnessStands(s: State, plan: set<Path>, u: Proc, b: Id)
    requires Valid(s) && WellWith(s, plan, u, b)
    ensures b in s.records && b in s.flock && !Gone(s.invs[b].phase)
  {
    assert RecordOk(s, b) && FlockOk(s, b);
  }

  lemma WaitStaysOnTrack(s: State, c: Id, w: WaitStep, silent: set<Proc>, wit: seq<Id>)
    requires Valid(s) && CanWait(s, c, w) && !w.EndRound? && |wit| == |s.invs[c].ups|
    requires AllWell(s, s.invs[c].plan, s.invs[c].ups, silent, wit) && OnTrack(s.invs[c], silent, wit)
    ensures OnTrack(AfterWait(s, c, w).invs[c], silent, wit)
  {
    var i := s.invs[c];
    var at := if i.phase.Poll? then i.phase.at else i.phase.l.at;
    if at < |i.ups| && i.ups[at] !in silent {
      WitnessStands(s, i.plan, i.ups[at], wit[at]);
    }
    if Looking(i.phase) && i.phase.l.todo != [] {
      assert LookOk(s, c) && ListedOk(s, c);
      assert i.phase.l.todo[0] in i.phase.l.todo;
      assert HadRecord(s, i.ups[at], i.phase.l.todo[0]);
      if i.phase.l.todo[0] != wit[at] {
        PopOnTrack(i, silent, wit, i.phase.l);
      }
    }
  }

  /** Run `c`, which is what `i` was in plan and upstream, is on track. */
  ghost predicate StillOnTrack(s: State, c: Id, i: Inv, silent: set<Proc>, wit: seq<Id>)
    requires |wit| == |i.ups|
  {
    c in s.invs && s.invs[c].plan == i.plan && s.invs[c].ups == i.ups && OnTrack(s.invs[c], silent, wit)
  }

  lemma StepStaysOnTrack(s: State, e: Event, t: State, c: Id, i: Inv, silent: set<Proc>, wit: seq<Id>)
    requires Valid(s) && Can(s, e) && t == Next(s, e) && |wit| == |i.ups|
    requires e != Wait(c, EndRound) && !(e.Work? && e.c == c)
    requires AllWell(s, i.plan, i.ups, silent, wit) && StillOnTrack(s, c, i, silent, wit)
    ensures StillOnTrack(t, c, i, silent, wit)
  {
    match e
    case Wait(b, w) =>
      WaitGoes(s, b, w);
      if b == c {
        WaitStaysOnTrack(s, c, w, silent, wit);
      }
    case Work(b, k) => WorkGoes(s, b, k);
    case StopWriting(_) =>
  }

  /** In step `m` all is well for `c`, as `i0`, and its round goes on. */
  ghost predicate GoodStep(s: State, e: Event, c: Id, i0: Inv, silent: set<Proc>, wit: seq<Id>)
    requires |wit| == |i0.ups|
  {
    e != Wait(c, EndRound) && !(e.Work? && e.c == c) && AllWell(s, i0.plan, i0.ups, silent, wit)
  }

  /** At `i` run `c` begins a round of its wait: it has just started, or its last round did not end the wait. */
  ghost predicate RoundBegins(states: seq<State>, events: seq<Event>, i: nat, c: Id)
    requires Run(states, events) && i < |states|
  {
    && 0 < i && c in states[i].invs && Waits(states[i].invs[c].phase)
    && (events[i - 1] == Wait(c, EndRound) || (events[i - 1].Work? && events[i - 1].c == c && events[i - 1].k.Start?))
  }

  lemma RoundsBeginAfresh(states: seq<State>, events: seq<Event>, i: nat, c: Id)
    requires Run(states, events) && i < |states| && RoundBegins(states, events, i, c)
    ensures states[i].invs[c].phase == Poll(0, false)
  {
  }

  /** From `i` to `j` run `c` is in one round of its wait, and all is well throughout. */
  ghost predicate GoodRound(states: seq<State>, events: seq<Event>, i: nat, j: nat, c: Id, i0: Inv,
                            silent: set<Proc>, wit: seq<Id>)
    requires Run(states, events) && i <= j < |states|
  {
    && RoundBegins(states, events, i, c) && states[i].invs[c] == i0 && |wit| == |i0.ups|
    && forall m :: i <= m < j ==> GoodStep(states[m], events[m], c, i0, silent, wit)
  }

  lemma GoodStepStays(states: seq<State>, events: seq<Event>, m: nat, c: Id, i0: Inv, silent: set<Proc>, wit: seq<Id>)
    requires Run(states, events) && m < |events| && |wit| == |i0.ups|
    requires GoodStep(states[m], events[m], c, i0, silent, wit) && StillOnTrack(states[m], c, i0, silent, wit)
    ensures StillOnTrack(states[m + 1], c, i0, silent, wit)
  {
    RunKeepsValid(states, events, m);
    StepStaysOnTrack(states[m], events[m], states[m + 1], c, i0, silent, wit);
  }

  lemma {:induction false} RoundStaysOnTrack(states: seq<State>, events: seq<Event>, i: nat, j: nat, c: Id, i0: Inv,
                                             silent: set<Proc>, wit: seq<Id>)
    requires Run(states, events) && i <= j < |states| && GoodRound(states, events, i, j, c, i0, silent, wit)
    ensures StillOnTrack(states[j], c, i0, silent, wit)
    decreases j
  {
    if i < j {
      RoundStaysOnTrack(states, events, i, j - 1, c, i0, silent, wit);
      GoodStepStays(states, events, j - 1, c, i0, silent, wit);
    } else {
      RoundsBeginAfresh(states, events, i, c);
    }
  }

  /**
   * A wait ends: a round throughout which every upstream process has stopped writing, or keeps a
   * publisher and has no record with anything of the plan, ends with the run going on to its locks.
   */
  lemma GoodRoundEndsTheWait(states: seq<State>, events: seq<Event>, i: nat, j: nat, c: Id, i0: Inv,
                             silent: set<Proc>, wit: seq<Id>)
    requires Run(states, events) && i <= j < |events| && GoodRound(states, events, i, j, c, i0, silent, wit)
    requires events[j] == Wait(c, EndRound)
    ensures c in states[j + 1].invs && states[j + 1].invs[c].phase == Acquiring
  {
    RoundStaysOnTrack(states, events, i, j, c, i0, silent, wit);
  }

  /** And no step of a wait has to be waited for: a waiting run can always take its next. */
  lemma WaitIsNeverStuck(states: seq<State>, events: seq<Event>, k: nat, c: Id)
    requires Run(states, events) && k < |states| && c in states[k].invs && Waits(states[k].invs[c].phase)
    ensures exists w :: CanWait(states[k], c, w)
  {
    var s, i := states[k], states[k].invs[c];
    RunKeepsValid(states, events, k);
    assert LookOk(s, c);
    match i.phase
    case Poll(at, _) =>
      if at >= |i.ups| {
        assert CanWait(s, c, EndRound);
      } else if i.ups[at] in s.stopped {
        assert CanWait(s, c, SkipSilent);
      } else {
        var ids := ListingOf(s, i.ups[at], s.records.Keys);
        assert CanWait(s, c, ListRecords(ids));
      }
    case Scan(l) =>
      if l.todo == [] {
        assert CanWait(s, c, EndLook);
      } else if NextRecord(s, c) in s.records {
        assert CanWait(s, c, ReadRecord);
      } else {
        assert CanWait(s, c, MissRecord);
      }
    case Read(_, _) => assert CanWait(s, c, ProbeBusy);
    case Probe(_) => assert CanWait(s, c, ProbeGives);
    case SweepRecord(_) => assert CanWait(s, c, SweepsRecord);
    case SweepLock(_) => assert CanWait(s, c, SweepsLock);
  }

  lemma {:induction false} ListingOf(s: State, u: Proc, among: set<Id>) returns (ids: seq<Id>)
    ensures forall b :: b in ids <==> b in among && b in s.records && b in s.invs && s.invs[b].proc == u
  {
    if among == {} {
      ids := [];
    } else {
      var b :| b in among;
      ids := ListingOf(s, u, among - {b});
      if b in s.records && b in s.invs && s.invs[b].proc == u {
        ids := ids + [b];
      }
    }
  }

  // ----- a run inside a process is not seen -----

  ghost predicate Reachable(s: State) {
    exists states: seq<State>, events: seq<Event> :: Run(states, events) && states[|events|] == s
  }

  lemma Reach(s: State, e: Event, t: State)
    requires Reachable(s) && Can(s, e) && Next(s, e) == t
    ensures Reachable(t)
  {
    var states: seq<State>, events: seq<Event> :| Run(states, events) && states[|events|] == s;
    Extend(states, events, e);
  }

  lemma Extend(states: seq<State>, events: seq<Event>, e: Event)
    requires Run(states, events) && Can(states[|events|], e)
    ensures Run(states + [Next(states[|events|], e)], events + [e])
  {
  }

  /** Invocation 10 of process 1, which needs "a", alone. */
  function First(phase: Phase, held: set<Path>): Inv {
    Inv(1, {"a"}, [], phase, held, map[])
  }

  function Alone(phase: Phase, held: set<Path>, locks: map<Path, Id>): State {
    State(map[10 := First(phase, held)], locks, map[], map[], {})
  }

  lemma ReachAcquiring()
    ensures Reachable(Alone(Acquiring, {}, map[]))
  {
    var none: seq<Event> := [];
    assert Run([INIT], none) && [INIT][|none|] == INIT;
    Reach(INIT, Work(10, Start(1, {"a"}, [])), Alone(Poll(0, false), {}, map[]));
    Reach(Alone(Poll(0, false), {}, map[]), Wait(10, EndRound), Alone(Acquiring, {}, map[]));
  }

  lemma ReachHolding()
    ensures Reachable(Alone(Holding, {"a"}, map["a" := 10]))
  {
    ReachAcquiring();
    assert WorkHeld(First(Acquiring, {}), Take("a")) == {"a"};
    Reach(Alone(Acquiring, {}, map[]), Work(10, Take("a")), Alone(Acquiring, {"a"}, map["a" := 10]));
    Reach(Alone(Acquiring, {"a"}, map["a" := 10]), Work(10, AllTaken), Alone(Holding, {"a"}, map["a" := 10]));
  }

  /** It has published that it holds "a". */
  function OnePublished(more: map<Id, Inv>, locks: map<Path, Id>): State {
    State(map[10 := First(Published, {"a"})] + more, locks, map[10 := {"a"}], map[10 := 10], {})
  }

  lemma ReachOnePublished()
    ensures Reachable(OnePublished(map[], map["a" := 10]))
  {
    ReachHolding();
    var s := State(map[10 := First(Flocked, {"a"})], map["a" := 10], map[], map[10 := 10], {});
    Reach(Alone(Holding, {"a"}, map["a" := 10]), Work(10, Flock), s);
    Reach(s, Work(10, Publish), OnePublished(map[], map["a" := 10]));
  }

  /** Then a run that it started in its process takes "b" and publishes nothing. */
  function Second(phase: Phase, held: set<Path>): Inv {
    Inv(1, {"b"}, [], phase, held, map[])
  }

  lemma ReachNestedStart()
    ensures Reachable(OnePublished(map[11 := Second(Poll(0, false), {})], map["a" := 10]))
  {
    ReachOnePublished();
    Reach(OnePublished(map[], map["a" := 10]), Work(11, Start(1, {"b"}, [])),
          OnePublished(map[11 := Second(Poll(0, false), {})], map["a" := 10]));
  }

  lemma ReachNestedAcquiring()
    ensures Reachable(OnePublished(map[11 := Second(Acquiring, {})], map["a" := 10]))
  {
    ReachNestedStart();
    Reach(OnePublished(map[11 := Second(Poll(0, false), {})], map["a" := 10]), Wait(11, EndRound),
          OnePublished(map[11 := Second(Acquiring, {})], map["a" := 10]));
  }

  /** The run downstream, process 2, which needs "b". */
  function Third(phase: Phase, listed: map<nat, set<Id>>): Inv {
    Inv(2, {"b"}, [1], phase, {}, listed)
  }

  function WithThird(phase: Phase, listed: map<nat, set<Id>>): State {
    OnePublished(map[11 := Second(Acquiring, {"b"}), 20 := Third(phase, listed)], map["a" := 10, "b" := 11])
  }

  lemma ReachNestedHolding()
    ensures Reachable(OnePublished(map[11 := Second(Acquiring, {"b"})], map["a" := 10, "b" := 11]))
  {
    ReachNestedAcquiring();
    var s := OnePublished(map[11 := Second(Acquiring, {})], map["a" := 10]);
    var t := OnePublished(map[11 := Second(Acquiring, {"b"})], map["a" := 10, "b" := 11]);
    assert WorkHeld(Second(Acquiring, {}), Take("b")) == {"b"};
    Reach(s, Work(11, Take("b")), t);
  }

  lemma ReachWaiting()
    ensures Reachable(WithThird(Poll(0, false), map[]))
  {
    ReachNestedHolding();
    Reach(OnePublished(map[11 := Second(Acquiring, {"b"})], map["a" := 10, "b" := 11]), Work(20, Start(2, {"b"}, [1])),
          WithThird(Poll(0, false), map[]));
  }

  /** A step of its wait that concerns nobody else. */
  lemma ThirdGoesOn(phase: Phase, listed: map<nat, set<Id>>, w: WaitStep, next: Phase, more: map<nat, set<Id>>)
    requires Reachable(WithThird(phase, listed)) && CanWait(WithThird(phase, listed), 20, w)
    requires w.ListRecords? || w.ReadRecord? || w.ProbeBusy? || w.EndLook? || w.EndRound?
    requires WaitPhase(WithThird(phase, listed), 20, w) == next && WaitListed(WithThird(phase, listed), 20, w) == more
    ensures Reachable(WithThird(next, more))
  {
    Reach(WithThird(phase, listed), Wait(20, w), WithThird(next, more));
  }

  const LOOK := Look(0, false, [10], false, false)
  const SETTLED := Look(0, false, [], true, false)

  lemma ReachListed()
    ensures Reachable(WithThird(Scan(LOOK), map[0 := {10}]))
  {
    ReachWaiting();
    assert Lists(WithThird(Poll(0, false), map[]), 1, [10]) && Members([10]) == {10};
    ThirdGoesOn(Poll(0, false), map[], ListRecords([10]), Scan(LOOK), map[0 := {10}]);
  }

  lemma ReachSettled()
    ensures Reachable(WithThird(Scan(SETTLED), map[0 := {10}]))
  {
    ReachListed();
    ThirdGoesOn(Scan(LOOK), map[0 := {10}], ReadRecord, Read(LOOK, {"a"}), map[0 := {10}]);
    assert Pop(LOOK).todo == [] && {"a"} !! {"b"};
    ThirdGoesOn(Read(LOOK, {"a"}), map[0 := {10}], ProbeBusy, Scan(SETTLED), map[0 := {10}]);
  }

  lemma ReachPastItsWait()
    ensures Reachable(WithThird(Acquiring, map[0 := {10}]))
  {
    ReachSettled();
    ThirdGoesOn(Scan(SETTLED), map[0 := {10}], EndLook, Poll(1, false), map[0 := {10}]);
    ThirdGoesOn(Poll(1, false), map[0 := {10}], EndRound, Acquiring, map[0 := {10}]);
  }

  /** A process is taken as settled on any one live record, so a run inside it that publishes nothing
      may hold, while its process still writes, a lock the waiting run goes on to ask for. */
  lemma NestedRunMayStandInTheWay()
    ensures var s := WithThird(Acquiring, map[0 := {10}]);
            && Reachable(s) && WaitedFor(s, 20, 0) && s.locks["b"] == 11 && s.invs[11].proc == s.invs[20].ups[0]
            && Threatens(s, 11, s.invs[20].plan)
  {
    ReachPastItsWait();
    assert "b" in {"b"} * {"b"};
  }
}
