/** `acquireAll`: each invocation takes the locks of its plan one at a time in sorted order,
    and gives back what it has in reverse, on success and on failure alike.

    The system runs any number of invocations and probers on top of `LockProtocol`.  An
    invocation that waits on a nested magus run of its own is outside it: between taking its
    last lock and starting to release, an invocation here needs nothing from anybody.
 */
module LockOrder {
  import opened LockSlots
  import opened LockProtocol

  // ----- the canonical order -----

  predicate Increasing(s: seq<Path>) {
    forall i, j :: 0 <= i < j < |s| ==> s[i] < s[j]
  }

  function Insert(p: Path, s: seq<Path>): (r: seq<Path>)
    requires Increasing(s)
    ensures Increasing(r)
    ensures forall q :: q in r <==> q == p || q in s
    ensures s != [] && s[0] < p ==> r != [] && r[0] == s[0]
  {
    if s == [] || p < s[0] then [p] + s
    else if p == s[0] then s
    else [s[0]] + Insert(p, s[1..])
  }

  /** `slices.Sort` then `slices.Compact`. */
  function Canonical(paths: seq<Path>): (r: seq<Path>)
    ensures Increasing(r)
    ensures forall p :: p in r <==> p in paths
  {
    if paths == [] then [] else Insert(paths[0], Canonical(paths[1..]))
  }

  // ----- the system -----

  datatype Phase =
    | Acquire(i: nat)                // plan[..i] is held, plan[i] is being acquired
    | Work                           // acquireAll returned its release func
    | Release(i: nat, failed: bool)  // releases[..i] have still to run, releases[i-1] is running
    | Returned(failed: bool)

  datatype Sys = Sys(lock: State, phase: map<Agent, Phase>)

  const INIT_SYS: Sys := Sys(INIT, map[])

  datatype Event =
    | Start(a: Agent)
    | Lock(act: Action)  // a step of a prober's session
    | Mine(act: Action)  // a step of an invocation's session
    | AllHeld(a: Agent)
    | Finish(a: Agent)
    | Return(a: Agent)
    | Crash(q: Proc)

  /** The session an acquiring or releasing invocation is working on. */
  predicate Current(y: Sys, k: Key) {
    && k.agent in y.phase && k.agent.kind.Invocation?
    && match y.phase[k.agent]
       case Acquire(i) => i < |k.agent.kind.plan| && k.path == k.agent.kind.plan[i]
       case Release(i, _) => 0 < i <= |k.agent.kind.plan| && k.path == k.agent.kind.plan[i - 1]
       case _ => false
  }

  predicate ReleaseStep(act: Action) {
    act.ADisown? || act.AUnlock? || act.AGive? || act.ALeave?
  }

  predicate Can(y: Sys, ev: Event) {
    match ev
    case Start(a) =>
      a.kind.Invocation? && a !in y.phase && a.proc !in y.lock.crashed && a.kind.plan == Canonical(a.kind.plan)
    case Lock(act) => !act.ACrash? && act.k.agent.kind.Prober? && Enabled(y.lock, act)
    case Mine(act) =>
      && !act.ACrash? && Current(y, act.k) && Enabled(y.lock, act)
      && (if y.phase[act.k.agent].Release? then ReleaseStep(act) else !act.ADisown?)
    case AllHeld(a) => a in y.phase && a.kind.Invocation? && y.phase[a] == Acquire(|a.kind.plan|)
    case Finish(a) => a in y.phase && a.kind.Invocation? && y.phase[a] == Work
    case Return(a) => a in y.phase && y.phase[a].Release? && y.phase[a].i == 0
    case Crash(q) => true
  }

  function SetPhase(y: Sys, a: Agent, ph: Phase): Sys {
    y.(phase := y.phase[a := ph])
  }

  function Next(y: Sys, ev: Event): Sys
    requires Can(y, ev)
  {
    match ev
    case Start(a) => SetPhase(y, a, Acquire(0))
    case Lock(act) => y.(lock := Apply(y.lock, act))
    case Mine(act) =>
      var a, ph := act.k.agent, y.phase[act.k.agent];
      var y' := y.(lock := Apply(y.lock, act));
      if act.ARecord? then SetPhase(y', a, Acquire(ph.i + 1))
      else if act.ALeave? then
        SetPhase(y', a, if ph.Acquire? then Release(ph.i, true) else Release(ph.i - 1, ph.failed))
      else y'
    case AllHeld(a) => SetPhase(y, a, Work)
    case Finish(a) => SetPhase(y, a, Release(|a.kind.plan|, false))
    case Return(a) => SetPhase(y, a, Returned(y.phase[a].failed))
    case Crash(q) =>
      Sys(Apply(y.lock, ACrash(q)), map a | a in y.phase && a.proc != q :: y.phase[a])
  }

  // ----- what an invocation holds, by phase -----

  ghost predicate HoldsFirst(sess: map<Key, Pc>, a: Agent, n: nat)
    requires a.kind.Invocation? && n <= |a.kind.plan|
  {
    forall j :: 0 <= j < n ==> Key(a, a.kind.plan[j]) in sess && sess[Key(a, a.kind.plan[j])].Held?
  }

  /** The invocation has no session beyond the first `n` paths of its plan. */
  ghost predicate NothingPast(sess: map<Key, Pc>, a: Agent, n: nat)
    requires a.kind.Invocation? && n <= |a.kind.plan|
  {
    forall p :: Key(a, p) in sess ==> p in a.kind.plan[..n]
  }

  predicate Acquiring(pc: Pc) {
    !pc.Held? && !pc.Disowned?
  }

  predicate Releasing(pc: Pc) {
    pc.Held? || pc.Disowned? || pc.Unlocked? || pc.Leaving?
  }

  ghost predicate InPhase(sess: map<Key, Pc>, a: Agent, ph: Phase) {
    && a.kind.Invocation? && Increasing(a.kind.plan)
    && var plan := a.kind.plan;
       match ph
       case Acquire(i) =>
         && i <= |plan| && HoldsFirst(sess, a, i)
         && (if i == |plan| then NothingPast(sess, a, i) else
               NothingPast(sess, a, i + 1) && (Key(a, plan[i]) in sess ==> Acquiring(sess[Key(a, plan[i])])))
       case Work => HoldsFirst(sess, a, |plan|) && NothingPast(sess, a, |plan|)
       case Release(i, _) =>
         && i <= |plan| && NothingPast(sess, a, i)
         && (i > 0 ==> HoldsFirst(sess, a, i - 1)
                       && Key(a, plan[i - 1]) in sess && Releasing(sess[Key(a, plan[i - 1])]))
       case Returned(_) => NothingPast(sess, a, 0)
  }

  ghost predicate Disciplined(y: Sys) {
    && (forall a :: a in y.phase ==> a.proc !in y.lock.crashed && InPhase(y.lock.sess, a, y.phase[a]))
    && (forall k :: k in y.lock.sess && k.agent.kind.Invocation? ==> k.agent in y.phase)
  }

  /** Nothing an agent does changes what the discipline says of another. */
  lemma OthersUndisturbed(sess: map<Key, Pc>, sess': map<Key, Pc>, k: Key, a: Agent, ph: Phase)
    requires InPhase(sess, a, ph) && a != k.agent
    requires sess' == (if k in sess' then sess[k := sess'[k]] else sess - {k})
    ensures InPhase(sess', a, ph)
  {
    assert forall p :: Key(a, p) in sess' <==> Key(a, p) in sess;
    assert forall p :: Key(a, p) in sess ==> sess'[Key(a, p)] == sess[Key(a, p)];
  }

  lemma SessChange(s: State, act: Action)
    requires Enabled(s, act) && !act.ACrash?
    ensures var s' := Apply(s, act);
            && s'.crashed == s.crashed
            && s'.sess == if act.k in s'.sess then s.sess[act.k := s'.sess[act.k]] else s.sess - {act.k}
  {
    if Moves(act) {
      MoveShape(s, act);
    }
  }

  lemma PlanIndex(a: Agent, p: Path, n: nat)
    requires a.kind.Invocation? && Increasing(a.kind.plan) && n < |a.kind.plan|
    ensures p in a.kind.plan[..n + 1] <==> p in a.kind.plan[..n] || p == a.kind.plan[n]
    ensures a.kind.plan[n] !in a.kind.plan[..n]
  {
    assert a.kind.plan[..n + 1] == a.kind.plan[..n] + [a.kind.plan[n]];
  }

  lemma RecordKeepsPhase(y: Sys, act: Action)
    requires Can(y, Mine(act)) && y.phase[act.k.agent].Acquire? && act.ARecord?
    requires InPhase(y.lock.sess, act.k.agent, y.phase[act.k.agent])
    ensures var y', a := Next(y, Mine(act)), act.k.agent; InPhase(y'.lock.sess, a, y'.phase[a])
  {
    var a, i := act.k.agent, y.phase[act.k.agent].i;
    SessChange(y.lock, act);
    PlanIndex(a, act.k.path, i);
    assert a.kind.plan[..i + 1] == a.kind.plan[..i] + [a.kind.plan[i]];
    if i + 1 < |a.kind.plan| {
      assert a.kind.plan[..i + 2] == a.kind.plan[..i + 1] + [a.kind.plan[i + 1]];
    }
  }

  lemma FailedLeaveKeepsPhase(y: Sys, act: Action)
    requires Can(y, Mine(act)) && y.phase[act.k.agent].Acquire? && act.ALeave?
    requires InPhase(y.lock.sess, act.k.agent, y.phase[act.k.agent])
    ensures var y', a := Next(y, Mine(act)), act.k.agent; InPhase(y'.lock.sess, a, y'.phase[a])
  {
    var a, i := act.k.agent, y.phase[act.k.agent].i;
    SessChange(y.lock, act);
    assert a.kind.plan[..i + 1] == a.kind.plan[..i] + [a.kind.plan[i]];
  }

  lemma InnerStepKeepsPhase(y: Sys, act: Action)
    requires Can(y, Mine(act)) && y.phase[act.k.agent].Acquire? && !act.ARecord? && !act.ALeave?
    requires InPhase(y.lock.sess, act.k.agent, y.phase[act.k.agent])
    ensures var y', a := Next(y, Mine(act)), act.k.agent; InPhase(y'.lock.sess, a, y'.phase[a])
  {
    var a, i := act.k.agent, y.phase[act.k.agent].i;
    SessChange(y.lock, act);
    PlanIndex(a, act.k.path, i);
  }

  /** The acting invocation's own phase after one of its lock steps. */
  lemma AcquireStepKeepsPhase(y: Sys, act: Action)
    requires Can(y, Mine(act)) && y.phase[act.k.agent].Acquire?
    requires InPhase(y.lock.sess, act.k.agent, y.phase[act.k.agent])
    ensures var y', a := Next(y, Mine(act)), act.k.agent; InPhase(y'.lock.sess, a, y'.phase[a])
  {
    if act.ARecord? {
      RecordKeepsPhase(y, act);
    } else if act.ALeave? {
      FailedLeaveKeepsPhase(y, act);
    } else {
      InnerStepKeepsPhase(y, act);
    }
  }

  lemma ReleaseStepKeepsPhase(y: Sys, act: Action)
    requires Can(y, Mine(act)) && y.phase[act.k.agent].Release?
    requires InPhase(y.lock.sess, act.k.agent, y.phase[act.k.agent])
    ensures var y', a := Next(y, Mine(act)), act.k.agent; InPhase(y'.lock.sess, a, y'.phase[a])
  {
    var a, i := act.k.agent, y.phase[act.k.agent].i;
    SessChange(y.lock, act);
    PlanIndex(a, act.k.path, i - 1);
    assert a.kind.plan[..i] == a.kind.plan[..i - 1] + [a.kind.plan[i - 1]];
  }

  lemma LockStepKeepsDiscipline(y: Sys, ev: Event)
    requires Disciplined(y) && Can(y, ev) && (ev.Lock? || ev.Mine?)
    ensures Disciplined(Next(y, ev))
  {
    var y', act := Next(y, ev), ev.act;
    SessChange(y.lock, act);
    forall a | a in y'.phase ensures InPhase(y'.lock.sess, a, y'.phase[a]) {
      if a != act.k.agent {
        OthersUndisturbed(y.lock.sess, y'.lock.sess, act.k, a, y.phase[a]);
      } else if y.phase[a].Acquire? {
        AcquireStepKeepsPhase(y, act);
      } else {
        ReleaseStepKeepsPhase(y, act);
      }
    }
  }

  lemma PhaseStepKeepsDiscipline(y: Sys, ev: Event)
    requires Disciplined(y) && Can(y, ev) && !ev.Lock? && !ev.Mine?
    ensures Disciplined(Next(y, ev))
  {
    var y' := Next(y, ev);
    match ev
    case Start(a) =>
      forall p ensures Key(a, p) !in y.lock.sess {}
      assert InPhase(y'.lock.sess, a, Acquire(0));
    case AllHeld(a) => assert InPhase(y'.lock.sess, a, Work);
    case Finish(a) => assert InPhase(y'.lock.sess, a, Release(|a.kind.plan|, false));
    case Return(a) => assert InPhase(y'.lock.sess, a, Returned(y.phase[a].failed));
    case Crash(q) =>
      forall a | a in y'.phase ensures InPhase(y'.lock.sess, a, y'.phase[a]) {
        assert InPhase(y.lock.sess, a, y.phase[a]);
        assert forall p :: Key(a, p) in y'.lock.sess <==> Key(a, p) in y.lock.sess;
      }
  }

  ghost predicate SysInv(y: Sys) {
    Inv(y.lock) && Disciplined(y)
  }

  lemma SysStepKeepsInv(y: Sys, ev: Event)
    requires SysInv(y) && Can(y, ev)
    ensures SysInv(Next(y, ev))
  {
    if ev.Lock? || ev.Mine? {
      StepKeepsInv(y.lock, ev.act);
      LockStepKeepsDiscipline(y, ev);
    } else {
      if ev.Crash? {
        StepKeepsInv(y.lock, ACrash(ev.q));
      }
      PhaseStepKeepsDiscipline(y, ev);
    }
  }

  ghost predicate SysRun(states: seq<Sys>, evs: seq<Event>) {
    && |states| == |evs| + 1 && states[0] == INIT_SYS
    && forall i :: 0 <= i < |evs| ==> Can(states[i], evs[i]) && states[i + 1] == Next(states[i], evs[i])
  }

  lemma {:induction false} SysRunKeepsInv(states: seq<Sys>, evs: seq<Event>, i: nat)
    requires SysRun(states, evs) && i < |states|
    ensures SysInv(states[i])
  {
    if i == 0 {
      InitInv();
    } else {
      SysRunKeepsInv(states, evs, i - 1);
      SysStepKeepsInv(states[i - 1], evs[i - 1]);
    }
  }

  // ----- a failed or finished acquireAll leaves nothing behind -----

  /** Once `acquireAll` has returned an error, or its release func has returned, the invocation
      has no session: it holds no slot and no flock, is counted nowhere, and no owner record
      names it. */
  lemma ReturnedHoldsNothing(states: seq<Sys>, evs: seq<Event>, i: nat, a: Agent)
    requires SysRun(states, evs) && i < |states|
    requires a in states[i].phase && states[i].phase[a].Returned?
    ensures forall p :: Key(a, p) !in states[i].lock.sess
    ensures forall p :: p in states[i].lock.flock ==> states[i].lock.flock[p].agent != a
    ensures forall p :: p in states[i].lock.owner ==> states[i].lock.owner[p].agent != a
  {
    SysRunKeepsInv(states, evs, i);
    var y := states[i];
    assert InPhase(y.lock.sess, a, y.phase[a]);
    assert forall k :: k in y.lock.sess && k.agent == a ==> k == Key(a, k.path);
  }

  /** An invocation at work holds every lock of its plan, and has no other session. */
  lemma WorkHoldsWholePlan(states: seq<Sys>, evs: seq<Event>, i: nat, a: Agent, p: Path)
    requires SysRun(states, evs) && i < |states|
    requires a in states[i].phase && states[i].phase[a] == Work && a.kind.Invocation?
    ensures p in a.kind.plan <==> p in states[i].lock.flock && states[i].lock.flock[p] == Key(a, p)
    ensures Key(a, p) in states[i].lock.sess <==> p in a.kind.plan
  {
    SysRunKeepsInv(states, evs, i);
    assert InPhase(states[i].lock.sess, a, Work);
    assert a.kind.plan[..|a.kind.plan|] == a.kind.plan;
    if p in a.kind.plan {
      var j :| 0 <= j < |a.kind.plan| && a.kind.plan[j] == p;
    }
  }

  // ----- failure is told apart from success -----

  predicate AtWork(y: Sys, a: Agent) {
    a in y.phase && y.phase[a] == Work
  }

  /** It has the flock of every path of its plan. */
  predicate HasAll(y: Sys, a: Agent) {
    a.kind.Invocation? && forall p :: p in a.kind.plan ==> p in y.lock.flock && y.lock.flock[p] == Key(a, p)
  }

  /** The invocation was at work in one of the first `n` states. */
  ghost predicate Worked(states: seq<Sys>, n: nat, a: Agent)
    requires n <= |states|
  {
    exists j :: 0 <= j < n && AtWork(states[j], a)
  }

  /** What a phase says of whether the invocation was at work before. */
  predicate Tells(ph: Phase, worked: bool) {
    match ph
    case Acquire(_) => !worked
    case Work => true
    case Release(_, failed) => failed != worked
    case Returned(failed) => failed != worked
  }

  /** A step of the system as one invocation sees it; an invocation starts once. */
  lemma TellsStep(y: Sys, ev: Event, a: Agent, worked: bool)
    requires Can(y, ev)
    requires if a in y.phase then Tells(y.phase[a], worked) else a.proc !in y.lock.crashed ==> !worked
    ensures var y', now := Next(y, ev), worked || AtWork(y, a);
            if a in y'.phase then Tells(y'.phase[a], now) else a.proc !in y'.lock.crashed ==> !now
  {
    if ev.Lock? || ev.Mine? {
      SessChange(y.lock, ev.act);
    }
  }

  lemma {:induction false} PhaseTells(states: seq<Sys>, evs: seq<Event>, i: nat, a: Agent)
    requires SysRun(states, evs) && i < |states|
    ensures var y := states[i];
            if a in y.phase then Tells(y.phase[a], Worked(states, i, a))
            else a.proc !in y.lock.crashed ==> !Worked(states, i, a)
  {
    if i > 0 {
      PhaseTells(states, evs, i - 1, a);
      TellsStep(states[i - 1], evs[i - 1], a, Worked(states, i - 1, a));
      assert Worked(states, i, a) <==> Worked(states, i - 1, a) || AtWork(states[i - 1], a);
    }
  }

  /** An invocation reports failure if and only if it never was at work: if and only if, that is, it never
      held its whole plan with `acquireAll` returned. */
  lemma FailedIffNeverWorked(states: seq<Sys>, evs: seq<Event>, i: nat, a: Agent, failed: bool)
    requires SysRun(states, evs) && i < |states| && a in states[i].phase && states[i].phase[a] == Returned(failed)
    ensures failed <==> forall j :: 0 <= j < i ==> !AtWork(states[j], a)
    ensures !failed ==> exists j :: 0 <= j < i && AtWork(states[j], a) && HasAll(states[j], a)
  {
    PhaseTells(states, evs, i, a);
    if !failed {
      var j :| 0 <= j < i && AtWork(states[j], a);
      SysRunKeepsInv(states, evs, j);
      assert InPhase(states[j].lock.sess, a, Work);
      forall p | p in a.kind.plan ensures p in states[j].lock.flock && states[j].lock.flock[p] == Key(a, p) {
        WorkHoldsWholePlan(states, evs, j, a, p);
      }
      assert HasAll(states[j], a);
    }
  }

  /** The invocation gave up waiting for a slot, met an error at a flock, or was refused one. */
  predicate Refused(ev: Event, a: Agent) {
    ev.Mine? && !ev.act.ACrash? && ev.act.k.agent == a && (ev.act.AGiveUp? || ev.act.AFlockError? || ev.act.ARefuse?)
  }

  ghost predicate WasRefused(evs: seq<Event>, n: nat, a: Agent) {
    exists j :: 0 <= j < n <= |evs| && Refused(evs[j], a)
  }

  /** The session of an invocation at `ph` is on its way out without having held. */
  predicate BackingOut(sess: map<Key, Pc>, a: Agent, ph: Phase) {
    && a.kind.Invocation? && ph.Acquire? && ph.i < |a.kind.plan| && Key(a, a.kind.plan[ph.i]) in sess
    && (sess[Key(a, a.kind.plan[ph.i])].Unlocked? || sess[Key(a, a.kind.plan[ph.i])].Leaving?)
  }

  predicate Failing(y: Sys, a: Agent) {
    a in y.phase &&
    (BackingOut(y.lock.sess, a, y.phase[a]) || ((y.phase[a].Release? || y.phase[a].Returned?) && y.phase[a].failed))
  }

  lemma FailingByOther(y: Sys, ev: Event, a: Agent)
    requires Can(y, ev) && Failing(Next(y, ev), a) && (ev.Mine? || ev.Lock?) && !ev.act.ACrash? && ev.act.k.agent != a
    ensures Failing(y, a)
  {
    SessChange(y.lock, ev.act);
  }

  lemma FailingByOwn(y: Sys, act: Action)
    requires Can(y, Mine(act)) && Failing(Next(y, Mine(act)), act.k.agent)
    requires InPhase(y.lock.sess, act.k.agent, y.phase[act.k.agent])
    ensures Failing(y, act.k.agent) || Refused(Mine(act), act.k.agent)
  {
    SessChange(y.lock, act);
    if act.ARecord? {
      RecordKeepsPhase(y, act);
    }
  }

  lemma FailingByPhase(y: Sys, ev: Event, a: Agent)
    requires Can(y, ev) && Failing(Next(y, ev), a) && !ev.Mine? && !ev.Lock?
    requires forall p :: a !in y.phase ==> Key(a, p) !in y.lock.sess
    ensures Failing(y, a)
  {
  }

  lemma FailingStep(y: Sys, ev: Event, a: Agent)
    requires Disciplined(y) && Can(y, ev) && Failing(Next(y, ev), a)
    ensures Failing(y, a) || Refused(ev, a)
  {
    if ev.Mine? && ev.act.k.agent == a {
      assert InPhase(y.lock.sess, a, y.phase[a]);
      FailingByOwn(y, ev.act);
    } else if ev.Mine? || ev.Lock? {
      FailingByOther(y, ev, a);
    } else {
      FailingByPhase(y, ev, a);
    }
  }

  lemma {:induction false} FailureHasACause(states: seq<Sys>, evs: seq<Event>, i: nat, a: Agent)
    requires SysRun(states, evs) && i < |states| && Failing(states[i], a)
    ensures WasRefused(evs, i, a)
  {
    if i > 0 {
      SysRunKeepsInv(states, evs, i - 1);
      FailingStep(states[i - 1], evs[i - 1], a);
      if Failing(states[i - 1], a) {
        FailureHasACause(states, evs, i - 1, a);
      }
    }
  }

  // ----- no deadlock -----

  /** The invocation of `k` is stopped at `k`: its process's slot is taken, or the flock is. */
  predicate Waiting(y: Sys, k: Key) {
    && Current(y, k) && k in y.lock.sess
    && ((y.lock.sess[k].Joined? && y.lock.sess[k].e in y.lock.table.full)
        || (y.lock.sess[k].Contending? && k.path in y.lock.flock))
  }

  /** `l` has what `k` waits for. */
  predicate Blocks(y: Sys, k: Key, l: Key) {
    && k in y.lock.sess && l in y.lock.sess && l.path == k.path
    && (if y.lock.sess[k].Joined? then At(l) == At(k) && HasSlot(y.lock.sess[l]) else HasFlock(y.lock.sess[l]))
  }

  /** Slot before flock, and both before anything of a later path. */
  function Rank(y: Sys, k: Key): nat
    requires k in y.lock.sess
  {
    2 * k.path + if y.lock.sess[k].Joined? then 0 else 1
  }

  /** A waiting invocation is acquiring, at that path of its plan. */
  lemma WaiterAcquires(y: Sys, k: Key)
    requires Disciplined(y) && Waiting(y, k)
    ensures y.phase[k.agent].Acquire? && y.phase[k.agent].i < |k.agent.kind.plan|
    ensures forall p: Path :: Key(k.agent, p) in y.lock.sess ==> p == k.path || p < k.path
  {
    assert InPhase(y.lock.sess, k.agent, y.phase[k.agent]);
    var i := y.phase[k.agent].i;
    if y.phase[k.agent].Acquire? {
      forall p: Path | Key(k.agent, p) in y.lock.sess ensures p == k.path || p < k.path {
        PlanIndex(k.agent, p, i);
      }
    }
  }

  /** Along the waits-for relation the awaited resource rises strictly. */
  lemma RankRises(y: Sys, k: Key, l: Key, m: Key)
    requires Disciplined(y) && Blocks(y, k, l) && Waiting(y, m) && m.agent == l.agent
    ensures Rank(y, k) < Rank(y, m)
  {
    WaiterAcquires(y, m);
    assert l == Key(m.agent, l.path);
  }

  ghost predicate WaitsFor(y: Sys, k: Key, a: Agent) {
    exists l :: Blocks(y, k, l) && l.agent == a
  }

  /** Consecutive elements wait for one another's invocations. */
  ghost predicate WaitChain(y: Sys, ks: seq<Key>) {
    && (forall j :: 0 <= j < |ks| ==> Waiting(y, ks[j]))
    && (forall j :: 0 <= j < |ks| - 1 ==> WaitsFor(y, ks[j], ks[j + 1].agent))
  }

  lemma {:induction false} ChainRises(y: Sys, ks: seq<Key>, n: nat)
    requires SysInv(y) && WaitChain(y, ks) && 0 < n < |ks|
    ensures Rank(y, ks[0]) < Rank(y, ks[n])
  {
    assert WaitsFor(y, ks[n - 1], ks[n - 1 + 1].agent);
    var l :| Blocks(y, ks[n - 1], l) && l.agent == ks[n].agent;
    RankRises(y, ks[n - 1], l, ks[n]);
    if n > 1 {
      ChainRises(y, ks, n - 1);
    }
  }

  /** The waits-for graph has no cycle in any state of any run. */
  lemma WaitsForIsAcyclic(states: seq<Sys>, evs: seq<Event>, i: nat, ks: seq<Key>)
    requires SysRun(states, evs) && i < |states|
    requires WaitChain(states[i], ks) && |ks| > 1
    ensures ks[0].agent != ks[|ks| - 1].agent
  {
    SysRunKeepsInv(states, evs, i);
    ChainRises(states[i], ks, |ks| - 1);
  }

  /** A step that takes the system forward: nobody gives up, fails or crashes. */
  predicate Productive(ev: Event) {
    match ev
    case Crash(_) => false
    case Lock(act) => !act.AGiveUp? && !act.AFlockError? && !act.ARefuse?
    case Mine(act) => !act.AGiveUp? && !act.AFlockError? && !act.ARefuse?
    case _ => true
  }

  /** The step is one of an invocation that has started or of a session that exists: nobody new comes. */
  predicate Underway(y: Sys, ev: Event) {
    match ev
    case Start(_) => false
    case Lock(act) => !act.ACrash? && act.k in y.lock.sess
    case Mine(act) => !act.ACrash? && act.k.agent in y.phase
    case AllHeld(a) => a in y.phase
    case Finish(a) => a in y.phase
    case Return(a) => a in y.phase
    case Crash(_) => false
  }

  predicate Forward(y: Sys, ev: Event) {
    Can(y, ev) && Productive(ev) && Underway(y, ev)
  }

  /** Whose step it is. */
  function StepAgent(ev: Event): Agent
    requires !ev.Crash? && !((ev.Lock? || ev.Mine?) && ev.act.ACrash?)
  {
    if ev.Lock? || ev.Mine? then ev.act.k.agent else ev.a
  }

  lemma FindBlocker(y: Sys, k: Key) returns (l: Key)
    requires Inv(y.lock) && Waiting(y, k)
    ensures Blocks(y, k, l)
  {
    if y.lock.sess[k].Joined? {
      assert FullOf(y.lock.table, At(k));
      assert SlotTaken(y.lock.sess, At(k));
      l :| l in y.lock.sess && At(l) == At(k) && HasSlot(y.lock.sess[l]);
    } else {
      l := y.lock.flock[k.path];
    }
  }

  /** A prober gives up the flock as soon as it has it. */
  lemma ProberPlaces(s: State, l: Key)
    requires Inv(s) && l in s.sess && l.agent.kind.Prober? && HasSlot(s.sess[l])
    ensures s.sess[l].Slotted? || s.sess[l].Flocked? || s.sess[l].Unlocked?
  {
  }

  /** A prober on a slot is never stopped. */
  lemma ProberMoves(y: Sys, l: Key) returns (ev: Event)
    requires l in y.lock.sess && l.agent.kind.Prober?
    requires y.lock.sess[l].Slotted? || y.lock.sess[l].Flocked? || y.lock.sess[l].Unlocked?
    ensures Forward(y, ev) && StepAgent(ev) == l.agent
  {
    var pc := y.lock.sess[l];
    ev := Lock(if pc.Slotted? then ATryFlock(l) else if pc.Flocked? then AUnlock(l) else AGive(l));
  }

  function AcquireMove(y: Sys, k: Key): Action {
    if k !in y.lock.sess then AJoin(k) else
    match y.lock.sess[k]
    case Joined(_) => ATakeSlot(k)
    case Slotted(_) => ATryFlock(k)
    case Contending(_) => ARetryFlock(k)
    case Flocked(_) => ARecord(k, true)
    case Unlocked(_) => AGive(k)
    case _ => ALeave(k)
  }

  lemma AcquirerMoves(y: Sys, k: Key)
    requires Current(y, k) && y.phase[k.agent].Acquire? && k.agent.proc !in y.lock.crashed
    requires k in y.lock.sess ==> Acquiring(y.lock.sess[k])
    requires !Waiting(y, k)
    ensures Forward(y, Mine(AcquireMove(y, k))) && AcquireMove(y, k).k == k
  {
  }

  function ReleaseMove(pc: Pc, k: Key): Action {
    match pc
    case Held(_) => ADisown(k)
    case Disowned(_) => AUnlock(k)
    case Unlocked(_) => AGive(k)
    case _ => ALeave(k)
  }

  lemma ReleaserMoves(y: Sys, k: Key)
    requires Current(y, k) && y.phase[k.agent].Release?
    requires k in y.lock.sess && Releasing(y.lock.sess[k])
    ensures var act := ReleaseMove(y.lock.sess[k], k); Forward(y, Mine(act)) && act.k == k
  {
  }

  /** An invocation that has not returned and is not waiting can take its next step. */
  lemma InvocationMoves(y: Sys, a: Agent) returns (ev: Event)
    requires Disciplined(y) && a in y.phase && !y.phase[a].Returned?
    requires forall k :: Waiting(y, k) ==> k.agent != a
    ensures Forward(y, ev) && StepAgent(ev) == a
  {
    assert InPhase(y.lock.sess, a, y.phase[a]);
    match y.phase[a]
    case Work => ev := Finish(a);
    case Acquire(i) =>
      if i == |a.kind.plan| {
        ev := AllHeld(a);
      } else {
        var k := Key(a, a.kind.plan[i]);
        AcquirerMoves(y, k);
        ev := Mine(AcquireMove(y, k));
      }
    case Release(i, _) =>
      if i == 0 {
        ev := Return(a);
      } else {
        var k := Key(a, a.kind.plan[i - 1]);
        ReleaserMoves(y, k);
        ev := Mine(ReleaseMove(y.lock.sess[k], k));
      }
  }

  ghost function RankedAbove(y: Sys, r: nat): set<Key> {
    set k | k in y.lock.sess && Rank(y, k) > r
  }

  lemma FewerAbove(y: Sys, k: Key, m: Key)
    requires k in y.lock.sess && m in y.lock.sess && Rank(y, k) < Rank(y, m)
    ensures |RankedAbove(y, Rank(y, m))| < |RankedAbove(y, Rank(y, k))|
  {
    assert m in RankedAbove(y, Rank(y, k)) - RankedAbove(y, Rank(y, m));
    assert RankedAbove(y, Rank(y, m)) < RankedAbove(y, Rank(y, k));
    SmallerSet(RankedAbove(y, Rank(y, m)), RankedAbove(y, Rank(y, k)));
  }

  /** A blocker that waits for nobody can step. */
  lemma BlockerMoves(y: Sys, l: Key) returns (ev: Event)
    requires Disciplined(y) && l in y.lock.sess && forall m :: Waiting(y, m) ==> m.agent != l.agent
    requires l.agent.kind.Prober? ==>
               y.lock.sess[l].Slotted? || y.lock.sess[l].Flocked? || y.lock.sess[l].Unlocked?
    ensures Forward(y, ev) && StepAgent(ev) == l.agent
  {
    if l.agent.kind.Prober? {
      ev := ProberMoves(y, l);
    } else {
      assert InPhase(y.lock.sess, l.agent, y.phase[l.agent]);
      assert l == Key(l.agent, l.path);
      ev := InvocationMoves(y, l.agent);
    }
  }

  /** Along the wait chain `ks` from `k` one comes to the agent of `ev`, whose step can be taken. */
  ghost predicate LeadsTo(y: Sys, k: Key, ks: seq<Key>, ev: Event) {
    Forward(y, ev) && ks != [] && ks[0] == k && WaitChain(y, ks) && WaitsFor(y, ks[|ks| - 1], StepAgent(ev))
  }

  lemma LeadsAtOnce(y: Sys, k: Key, l: Key, ev: Event)
    requires Waiting(y, k) && Blocks(y, k, l) && Forward(y, ev) && StepAgent(ev) == l.agent
    ensures LeadsTo(y, k, [k], ev)
  {
  }

  lemma LeadsOn(y: Sys, k: Key, l: Key, m: Key, ks: seq<Key>, ev: Event)
    requires Waiting(y, k) && Blocks(y, k, l) && m.agent == l.agent && LeadsTo(y, m, ks, ev)
    ensures LeadsTo(y, k, [k] + ks, ev)
  {
    assert WaitsFor(y, k, m.agent);
    var all := [k] + ks;
    forall j | 0 <= j < |all| - 1 ensures WaitsFor(y, all[j], all[j + 1].agent) {
      if j > 0 {
        assert all[j] == ks[j - 1] && all[j + 1] == ks[j - 1 + 1];
      }
    }
  }

  lemma Resolves(y: Sys, k: Key) returns (ev: Event, ks: seq<Key>)
    requires SysInv(y) && Waiting(y, k)
    ensures LeadsTo(y, k, ks, ev)
    decreases |RankedAbove(y, Rank(y, k))|
  {
    var l := FindBlocker(y, k);
    if m :| Waiting(y, m) && m.agent == l.agent {
      RankRises(y, k, l, m);
      FewerAbove(y, k, m);
      ev, ks := Resolves(y, m);
      LeadsOn(y, k, l, m, ks, ev);
      ks := [k] + ks;
    } else {
      if l.agent.kind.Prober? {
        ProberPlaces(y.lock, l);
      }
      ev := BlockerMoves(y, l);
      LeadsAtOnce(y, k, l, ev);
      ks := [k];
    }
  }

  /** Following the blockers of a waiting invocation, along `ks`, ends at somebody who can step. */
  lemma WaitResolves(states: seq<Sys>, evs: seq<Event>, i: nat, k: Key) returns (ev: Event, ks: seq<Key>)
    requires SysRun(states, evs) && i < |states| && Waiting(states[i], k)
    ensures Forward(states[i], ev) && ks != [] && ks[0] == k && WaitChain(states[i], ks)
    ensures WaitsFor(states[i], ks[|ks| - 1], StepAgent(ev))
  {
    SysRunKeepsInv(states, evs, i);
    ev, ks := Resolves(states[i], k);
  }

  lemma SmallerSet<T>(a: set<T>, b: set<T>)
    requires a < b
    ensures |a| < |b|
  {
    assert b == a + (b - a);
    assert |b| == |a| + |b - a|;
  }

  /** As long as some invocation has not returned, some invocation or prober that is already there
      can take a step forward: no state that keeps the invariant is a deadlock. */
  lemma SomebodyMoves(y: Sys, a: Agent) returns (ev: Event)
    requires SysInv(y) && a in y.phase && !y.phase[a].Returned?
    ensures Forward(y, ev)
  {
    if k :| Waiting(y, k) && k.agent == a {
      var ks;
      ev, ks := Resolves(y, k);
    } else {
      ev := InvocationMoves(y, a);
    }
  }

  /** No reachable state is a deadlock. */
  lemma NoDeadlock(states: seq<Sys>, evs: seq<Event>, i: nat, a: Agent)
    requires SysRun(states, evs) && i < |states|
    requires a in states[i].phase && !states[i].phase[a].Returned?
    ensures exists ev :: Forward(states[i], ev)
  {
    SysRunKeepsInv(states, evs, i);
    var ev := SomebodyMoves(states[i], a);
  }
}
