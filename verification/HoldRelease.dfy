/** `projectHold.release` racing the workspace-root watchdog.

    Any number of goroutines call `release`; the watchdog goroutine calls `unlockOnce` when it
    finds the root gone.  `sync.Once.Do` runs its function in the first caller and makes every
    later caller wait for that run to finish.  `stopWatchdog` closes `done` and then waits for
    `stopped`, which the watchdog closes as it returns.
 */
module HoldRelease {
  import opened Sums

  datatype Once = Fresh | Running | Finished

  datatype WatchPc =
    | Selecting   // in the outer select
    | Ticked      // took a tick, has not re-checked done
    | Statting    // past the re-check, looking at the root
    | Entering    // root gone: about to call once.Do
    | Unlocking   // running unlock inside once.Do
    | Exited      // stopped is closed

  datatype CallPc = Called | Joining | AtOnce | Releasing | Back

  datatype State = State(once: Once, done: bool, watch: WatchPc, calls: map<nat, CallPc>, unlocks: nat)

  datatype Action =
    | WatchDone | WatchCtxEnds | WatchTick | WatchRecheck | WatchStat(gone: bool) | WatchEnter | WatchUnlocked
    | Call(c: nat) | CloseDone(c: nat) | Joined(c: nat) | EnterOnce(c: nat) | Unlocked(c: nat)

  /** `watched` is false when there is no root to watch: `stop` is then a no-op. */
  function Init(watched: bool): State {
    State(Fresh, false, if watched then Selecting else Exited, map[], 0)
  }

  predicate AtPc(s: State, c: nat, pc: CallPc) {
    c in s.calls && s.calls[c] == pc
  }

  predicate Enabled(s: State, a: Action) {
    match a
    case WatchDone => s.watch == Selecting && s.done
    case WatchCtxEnds => s.watch == Selecting
    case WatchTick => s.watch == Selecting
    case WatchRecheck => s.watch == Ticked
    case WatchStat(_) => s.watch == Statting
    case WatchEnter => s.watch == Entering && s.once != Running
    case WatchUnlocked => s.watch == Unlocking
    case Call(c) => c !in s.calls
    case CloseDone(c) => AtPc(s, c, Called)
    case Joined(c) => AtPc(s, c, Joining) && s.watch == Exited
    case EnterOnce(c) => AtPc(s, c, AtOnce) && s.once != Running
    case Unlocked(c) => AtPc(s, c, Releasing)
  }

  function Go(s: State, c: nat, pc: CallPc): State {
    s.(calls := s.calls[c := pc])
  }

  function Apply(s: State, a: Action): State
    requires Enabled(s, a)
  {
    match a
    case WatchDone => s.(watch := Exited)
    case WatchCtxEnds => s.(watch := Exited)
    case WatchTick => s.(watch := Ticked)
    case WatchRecheck => s.(watch := if s.done then Exited else Statting)
    case WatchStat(gone) => s.(watch := if gone then Entering else Selecting)
    case WatchEnter => if s.once == Fresh then s.(once := Running, watch := Unlocking) else s.(watch := Exited)
    case WatchUnlocked => s.(once := Finished, watch := Exited, unlocks := s.unlocks + 1)
    case Call(c) => Go(s, c, Called)
    case CloseDone(c) => Go(s.(done := true), c, Joining)
    case Joined(c) => Go(s, c, AtOnce)
    case EnterOnce(c) => if s.once == Fresh then Go(s.(once := Running), c, Releasing) else Go(s, c, Back)
    case Unlocked(c) => Go(s.(once := Finished, unlocks := s.unlocks + 1), c, Back)
  }

  /** Somebody is running `unlock`. */
  ghost predicate InUnlock(s: State) {
    s.watch == Unlocking || exists c :: AtPc(s, c, Releasing)
  }

  ghost predicate Inv(s: State) {
    && s.unlocks == (if s.once == Finished then 1 else 0)
    && (s.once == Running <==> InUnlock(s))
    && (forall c, d :: AtPc(s, c, Releasing) && AtPc(s, d, Releasing) ==> c == d)
    && (forall c :: AtPc(s, c, AtOnce) || AtPc(s, c, Releasing) || AtPc(s, c, Back) ==> s.watch == Exited)
    && (forall c :: AtPc(s, c, Joining) ==> s.done)
    && (forall c :: AtPc(s, c, Back) ==> s.once == Finished)
  }

  predicate CallerStep(a: Action) {
    a.Call? || a.CloseDone? || a.Joined? || a.EnterOnce? || a.Unlocked?
  }

  /** A step moves the goroutine that takes it and no other. */
  lemma OthersStay(s: State, a: Action, d: nat, pc: CallPc)
    requires Enabled(s, a)
    ensures !CallerStep(a) || d != a.c ==> (AtPc(Apply(s, a), d, pc) <==> AtPc(s, d, pc))
  {
  }

  lemma WatchStepKeepsInv(s: State, a: Action)
    requires Inv(s) && Enabled(s, a) && !CallerStep(a)
    ensures Inv(Apply(s, a))
  {
    forall d, pc ensures AtPc(Apply(s, a), d, pc) <==> AtPc(s, d, pc) {
      OthersStay(s, a, d, pc);
    }
  }

  lemma CallerStepKeepsInv(s: State, a: Action)
    requires Inv(s) && Enabled(s, a) && CallerStep(a)
    ensures Inv(Apply(s, a))
  {
    var s' := Apply(s, a);
    forall d, pc | d != a.c ensures AtPc(s', d, pc) <==> AtPc(s, d, pc) {
      OthersStay(s, a, d, pc);
    }
    assert AtPc(s', a.c, s'.calls[a.c]);
    assert a.c in s.calls ==> AtPc(s, a.c, s.calls[a.c]);
    if s.once == Running && s.watch != Unlocking && !a.Unlocked? {
      var d :| AtPc(s, d, Releasing);
      assert AtPc(s', d, Releasing);
    }
  }

  lemma StepKeepsInv(s: State, a: Action)
    requires Inv(s) && Enabled(s, a)
    ensures Inv(Apply(s, a))
  {
    if CallerStep(a) {
      CallerStepKeepsInv(s, a);
    } else {
      WatchStepKeepsInv(s, a);
    }
  }

  ghost predicate Run(watched: bool, states: seq<State>, acts: seq<Action>) {
    && |states| == |acts| + 1 && states[0] == Init(watched)
    && forall i :: 0 <= i < |acts| ==> Enabled(states[i], acts[i]) && states[i + 1] == Apply(states[i], acts[i])
  }

  lemma {:induction false} RunKeepsInv(watched: bool, states: seq<State>, acts: seq<Action>, i: nat)
    requires Run(watched, states, acts) && i < |states|
    ensures Inv(states[i])
  {
    if i > 0 {
      RunKeepsInv(watched, states, acts, i - 1);
      StepKeepsInv(states[i - 1], acts[i - 1]);
    }
  }

  /** Once any `release` has returned, `unlock` has run exactly once, to its end; the watchdog
      goroutine is over; and from then on nobody ever runs `unlock` again. */
  lemma ReleasedOnceAndJoined(watched: bool, states: seq<State>, acts: seq<Action>, i: nat, j: nat, c: nat)
    requires Run(watched, states, acts) && i <= j < |states| && AtPc(states[i], c, Back)
    ensures states[j].unlocks == 1 && states[j].watch == Exited && !InUnlock(states[j])
    decreases j - i
  {
    RunKeepsInv(watched, states, acts, j);
    if i == j {
    } else {
      RunKeepsInv(watched, states, acts, i);
      assert AtPc(states[i + 1], c, Back);
      ReleasedOnceAndJoined(watched, states, acts, i + 1, j, c);
    }
  }

  /** At no moment of any run has `unlock` run twice, or do two goroutines run it together. */
  lemma NeverUnlockedTwice(watched: bool, states: seq<State>, acts: seq<Action>, i: nat)
    requires Run(watched, states, acts) && i < |states|
    ensures states[i].unlocks <= 1
    ensures InUnlock(states[i]) ==> states[i].unlocks == 0
    ensures states[i].watch == Unlocking ==> forall c :: !AtPc(states[i], c, Releasing)
  {
    RunKeepsInv(watched, states, acts, i);
  }

  /** A caller of `release` that has not returned never waits for itself: the watchdog or some
      caller can step. */
  lemma ReleaseNeverWedges(watched: bool, states: seq<State>, acts: seq<Action>, i: nat, c: nat)
    requires Run(watched, states, acts) && i < |states|
    requires c in states[i].calls && states[i].calls[c] != Back
    ensures exists a :: Enabled(states[i], a) && !a.Call? && !a.WatchTick? && !a.WatchCtxEnds?
  {
    RunKeepsInv(watched, states, acts, i);
    var s := states[i];
    match s.calls[c]
    case Called => assert Enabled(s, CloseDone(c));
    case Releasing => assert Enabled(s, Unlocked(c));
    case AtOnce =>
      assert AtPc(s, c, AtOnce);
      if s.once == Running {
        var d :| AtPc(s, d, Releasing);
        assert Enabled(s, Unlocked(d));
      } else {
        assert Enabled(s, EnterOnce(c));
      }
    case Joining =>
      assert AtPc(s, c, Joining);
      match s.watch {
        case Selecting => assert Enabled(s, WatchDone);
        case Ticked => assert Enabled(s, WatchRecheck);
        case Statting => assert Enabled(s, WatchStat(true));
        case Unlocking => assert Enabled(s, WatchUnlocked);
        case Exited => assert Enabled(s, Joined(c));
        case Entering => assert Enabled(s, WatchEnter);
      }
  }

  /** The watchdog is past its last look at `done`. */
  predicate Acting(pc: WatchPc) {
    pc == Statting || pc == Entering || pc == Unlocking
  }

  /** The watchdog releases only a hold whose root it found gone. */
  lemma {:induction false} WatchdogReleasesOnlyWhenGone(watched: bool, states: seq<State>, acts: seq<Action>, i: nat)
    requires Run(watched, states, acts) && i < |states| && (states[i].watch == Entering || states[i].watch == Unlocking)
    ensures exists j :: 0 <= j < i && acts[j] == WatchStat(true)
  {
    var s, a := states[i - 1], acts[i - 1];
    if s.watch == Entering || s.watch == Unlocking {
      WatchdogReleasesOnlyWhenGone(watched, states, acts, i - 1);
    } else {
      assert a == WatchStat(true);
    }
  }

  /** Once the hold is done the watchdog begins no further look at the root, whatever ticks are pending. */
  lemma {:induction false} NoLookAfterDone(watched: bool, states: seq<State>, acts: seq<Action>, i: nat, j: nat)
    requires Run(watched, states, acts) && i <= j < |states| && states[i].done && !Acting(states[i].watch)
    ensures states[j].done && !Acting(states[j].watch)
    decreases j
  {
    if i < j {
      NoLookAfterDone(watched, states, acts, i, j - 1);
    }
  }

  /** And a root found gone is released: the watchdog does not end before somebody has run `unlock`, or is
      running it. */
  lemma {:induction false} GoneMeansReleased(watched: bool, states: seq<State>, acts: seq<Action>, j: nat, i: nat)
    requires Run(watched, states, acts) && j < i < |states| && acts[j] == WatchStat(true)
    ensures states[i].watch == Entering || states[i].watch == Unlocking
            || (states[i].watch == Exited && states[i].once != Fresh)
    decreases i
  {
    if j + 1 < i {
      GoneMeansReleased(watched, states, acts, j, i - 1);
    }
  }

  // ----- a release ends -----

  function CallCost(pc: CallPc): nat {
    match pc
    case Called => 4
    case Joining => 3
    case AtOnce => 2
    case Releasing => 1
    case Back => 0
  }

  /** The steps the watchdog still takes, at most, once the hold is done. */
  function WatchCost(pc: WatchPc): nat {
    match pc
    case Statting => 3
    case Selecting => 2
    case Entering => 2
    case Ticked => 1
    case Unlocking => 1
    case Exited => 0
  }

  function CostOf(s: State): nat -> nat {
    c => if c in s.calls then CallCost(s.calls[c]) else 0
  }

  ghost function Cost(s: State): nat {
    WatchCost(s.watch) + Sum(s.calls.Keys, CostOf(s))
  }

  lemma CallerStepCosts(s: State, a: Action)
    requires Enabled(s, a) && CallerStep(a) && !a.Call?
    ensures var t := Apply(s, a);
            && a.c in s.calls && t.calls.Keys == s.calls.Keys && t.watch == s.watch
            && CostOf(t)(a.c) < CostOf(s)(a.c) && forall d :: d in s.calls && d != a.c ==> CostOf(t)(d) == CostOf(s)(d)
  {
  }

  /** Once the hold is done, every step that is not a new call lowers what is left to do. */
  lemma StepLowersCost(s: State, a: Action)
    requires Enabled(s, a) && s.done && !a.Call?
    ensures Cost(Apply(s, a)) < Cost(s) && Apply(s, a).done
  {
    var t := Apply(s, a);
    if CallerStep(a) {
      CallerStepCosts(s, a);
      SumFalls(s.calls.Keys, CostOf(s), CostOf(t), a.c);
    } else {
      SumSame(s.calls.Keys, CostOf(s), CostOf(t));
    }
  }

  /** From `i` on nobody calls `release` anew. */
  ghost predicate NoNewCall(acts: seq<Action>, i: nat) {
    forall m :: i <= m < |acts| ==> !acts[m].Call?
  }

  /** So after the first `release` has closed `done` only so many steps are left without a new call. */
  lemma {:induction false} ReleaseEnds(watched: bool, states: seq<State>, acts: seq<Action>, i: nat, j: nat)
    requires Run(watched, states, acts) && i <= j < |states| && states[i].done && NoNewCall(acts, i)
    ensures states[j].done && (j - i) + Cost(states[j]) <= Cost(states[i])
    decreases j
  {
    if i < j {
      ReleaseEnds(watched, states, acts, i, j - 1);
      StepLowersCost(states[j - 1], acts[j - 1]);
    }
  }

  /** And where no step but a new call or the watchdog's own is left, every `release` has returned. */
  lemma NothingLeftMeansReturned(watched: bool, states: seq<State>, acts: seq<Action>, i: nat, c: nat)
    requires Run(watched, states, acts) && i < |states| && c in states[i].calls
    requires forall a :: Enabled(states[i], a) ==> a.Call? || a.WatchTick? || a.WatchCtxEnds?
    ensures states[i].calls[c] == Back
  {
    if states[i].calls[c] != Back {
      ReleaseNeverWedges(watched, states, acts, i, c);
    }
  }
}
