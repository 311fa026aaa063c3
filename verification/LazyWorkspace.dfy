/** `LazyWorkspace.Magus` racing `usePublishedShards`: two flags stored and read in opposite orders. */
module LazyWorkspace {
  import opened Options

  /** A shard source, by the pointer that is stored. */
  type Source = nat

  /** The one open: the body of `once.Do`, an atomic access at a time. */
  datatype Opener =
    | Unopened
    | HasHandle(ok: bool)             // open returned; ok: a handle and no error
    | Flagged(ok: bool)               // opened is stored
    | Loaded(ok: bool, p: Option<Source>)
    | Finished(ok: bool)

  /** A call of `usePublishedShards`. */
  datatype Installer =
    | Stored(r: Source)               // published is stored
    | SawOpen(r: Source)              // opened was true and the handle is not nil
    | Installed(r: Source)

  datatype State = State(opener: Opener, calls: map<nat, Installer>, published: Option<Source>, isOpen: bool,
                         handle: Option<Source>)

  const INIT := State(Unopened, map[], None, false, None)

  datatype Event =
    | OpenReturns(ok: bool)
    | Flag
    | Load
    | HandOff
    | Install(i: nat, r: Source)
    | CheckOpened(i: nat)
    | PassOn(i: nat)

  /** `l.m` is not nil. */
  predicate HasMagus(s: State) {
    !s.opener.Unopened? && s.opener.ok
  }

  predicate Can(s: State, e: Event) {
    match e
    case OpenReturns(_) => s.opener.Unopened?
    case Flag => s.opener.HasHandle?
    case Load => s.opener.Flagged?
    case HandOff => s.opener.Loaded?
    case Install(i, _) => i !in s.calls
    case CheckOpened(i) => i in s.calls && s.calls[i].Stored?
    case PassOn(i) => i in s.calls && s.calls[i].SawOpen?
  }

  function Next(s: State, e: Event): State
    requires Can(s, e)
  {
    match e
    case OpenReturns(ok) => s.(opener := HasHandle(ok))
    case Flag => s.(opener := Flagged(s.opener.ok), isOpen := true)
    case Load => s.(opener := if s.opener.ok then Loaded(true, s.published) else Finished(false))
    case HandOff => s.(opener := Finished(s.opener.ok), handle := if s.opener.p != None then s.opener.p else s.handle)
    case Install(i, r) => s.(calls := s.calls[i := Stored(r)], published := Some(r))
    case CheckOpened(i) =>
      var r := s.calls[i].r;
      s.(calls := s.calls[i := if s.isOpen && HasMagus(s) then SawOpen(r) else Installed(r)])
    case PassOn(i) => s.(calls := s.calls[i := Installed(s.calls[i].r)], handle := Some(s.calls[i].r))
  }

  // ----- every interleaving -----

  /** `r` was given to some call. */
  predicate Given(s: State, r: Source) {
    exists i :: i in s.calls && s.calls[i].r == r
  }

  /** The opener has read `published`. */
  predicate HasRead(o: Opener) {
    o.Loaded? || o.Finished?
  }

  ghost predicate FlagInv(s: State) {
    && (s.isOpen <==> s.opener.Flagged? || HasRead(s.opener))
    && (s.opener.Loaded? ==> s.opener.ok)
    && (s.published == None <==> s.calls == map[])
    && (forall i :: i in s.calls && s.calls[i].SawOpen? ==> HasMagus(s) && s.isOpen)
  }

  /** Whatever reaches the handle was given to a call. */
  ghost predicate SourceInv(s: State) {
    && (s.published != None ==> Given(s, s.published.value))
    && (s.handle != None ==> Given(s, s.handle.value))
    && (s.opener.Loaded? && s.opener.p != None ==> Given(s, s.opener.p.value))
  }

  /** One side sees the other: once the opener has read nothing, no call can end without passing its source on. */
  ghost predicate HandoffInv(s: State) {
    HasMagus(s) && HasRead(s.opener) && s.handle == None && !(s.opener.Loaded? && s.opener.p != None) ==>
      forall i :: i in s.calls ==> !s.calls[i].Installed?
  }

  ghost predicate Inv(s: State) {
    FlagInv(s) && SourceInv(s) && HandoffInv(s)
  }

  lemma StillGiven(s: State, e: Event, r: Source)
    requires Can(s, e) && Given(s, r)
    ensures Given(Next(s, e), r)
  {
    var i :| i in s.calls && s.calls[i].r == r;
    assert i in Next(s, e).calls && Next(s, e).calls[i].r == r;
  }

  lemma StepKeepsSources(s: State, e: Event)
    requires Can(s, e) && SourceInv(s)
    ensures SourceInv(Next(s, e))
  {
    forall r | Given(s, r) ensures Given(Next(s, e), r) {
      StillGiven(s, e, r);
    }
    if e.Install? {
      assert Next(s, e).calls[e.i].r == e.r;
    }
    if e.PassOn? {
      assert Next(s, e).calls[e.i].r == s.calls[e.i].r;
    }
  }

  lemma StepKeepsHandoff(s: State, e: Event)
    requires Can(s, e) && Inv(s)
    ensures FlagInv(Next(s, e)) && HandoffInv(Next(s, e))
  {
  }

  ghost predicate Run(states: seq<State>, events: seq<Event>) {
    |states| == |events| + 1 && states[0] == INIT &&
    forall k :: 0 <= k < |events| ==> Can(states[k], events[k]) && states[k + 1] == Next(states[k], events[k])
  }

  lemma {:induction false} RunKeepsInv(states: seq<State>, events: seq<Event>, k: nat)
    requires Run(states, events) && k < |states|
    ensures Inv(states[k])
  {
    if k > 0 {
      RunKeepsInv(states, events, k - 1);
      StepKeepsSources(states[k - 1], events[k - 1]);
      StepKeepsHandoff(states[k - 1], events[k - 1]);
    }
  }

  /** Everybody is through, the open succeeded, and at least one source was installed. */
  ghost predicate Settled(s: State) {
    s.opener == Finished(true) && s.calls != map[] && forall i :: i in s.calls ==> s.calls[i].Installed?
  }

  /** In every interleaving of one open with any calls, the handle ends up with a source that was installed. */
  lemma HandleGetsAnInstalledSource(states: seq<State>, events: seq<Event>, k: nat)
    requires Run(states, events) && k < |states| && Settled(states[k])
    ensures states[k].handle != None && Given(states[k], states[k].handle.value)
  {
    RunKeepsInv(states, events, k);
    var i :| i in states[k].calls;
    assert states[k].calls[i].Installed?;
  }

  /** With one call, it is that call's source. */
  lemma HandleGetsTheInstalledSource(states: seq<State>, events: seq<Event>, k: nat, i: nat, r: Source)
    requires Run(states, events) && k < |states| && Settled(states[k]) && states[k].calls == map[i := Installed(r)]
    ensures states[k].handle == Some(r)
  {
    HandleGetsAnInstalledSource(states, events, k);
  }

  /** The first call is through, the opener has read its source and not yet handed it over. */
  function FirstLoaded(): State {
    State(Loaded(true, Some(10)), map[1 := Installed(10)], Some(10), true, None)
  }

  lemma LoadsTheFirst() returns (states: seq<State>, events: seq<Event>)
    ensures Run(states, events) && states[|events|] == FirstLoaded()
  {
    var one := map[1 := Installed(10)];
    events := [Install(1, 10), CheckOpened(1), OpenReturns(true), Flag, Load];
    states := [INIT,
               State(Unopened, map[1 := Stored(10)], Some(10), false, None),
               State(Unopened, one, Some(10), false, None),
               State(HasHandle(true), one, Some(10), false, None),
               State(Flagged(true), one, Some(10), true, None),
               FirstLoaded()];
  }

  lemma Extend(states: seq<State>, events: seq<Event>, e: Event) returns (more: seq<State>, longer: seq<Event>)
    requires Run(states, events) && Can(states[|events|], e)
    ensures more == states + [Next(states[|events|], e)] && longer == events + [e]
    ensures Run(more, longer) && more[|longer|] == Next(states[|events|], e)
  {
    more, longer := states + [Next(states[|events|], e)], events + [e];
  }

  /**
   * With two calls, one after the other, the opener may hand over the first source last: it read
   * `published` before the second call stored it and stored the handle's source after that call did.
   */
  lemma EarlierInstallMayWin() returns (states: seq<State>, events: seq<Event>, k: nat)
    ensures Run(states, events) && Settled(states[|events|])
    ensures k < |events| && states[k] == FirstLoaded() && events[k] == Install(2, 20)
    ensures states[|events|].published == Some(20) && states[|events|].handle == Some(10)
  {
    states, events := LoadsTheFirst();
    k := |events|;
    states, events := Extend(states, events, Install(2, 20));
    states, events := Extend(states, events, CheckOpened(2));
    states, events := Extend(states, events, PassOn(2));
    states, events := Extend(states, events, HandOff);
  }

  /** A failed open: nothing is handed over, and no call passes its source on. */
  ghost predicate OpenFailed(s: State) {
    && !HasMagus(s) && s.handle == None && !s.opener.Loaded?
    && forall i :: i in s.calls ==> !s.calls[i].SawOpen?
  }

  /** Without a handle there is nothing to hand a source to: until the open succeeds, and for ever if it fails,
      no source is stored. */
  lemma {:induction false} NothingStoredWithoutHandle(states: seq<State>, events: seq<Event>, k: nat)
    requires Run(states, events) && k < |states| && !HasMagus(states[k])
    ensures OpenFailed(states[k])
  {
    if k > 0 {
      NothingStoredWithoutHandle(states, events, k - 1);
    }
  }

  /** The open goes on to its end by itself. */
  lemma OpenNeverWaits(s: State)
    requires !s.opener.Finished?
    ensures (Can(s, OpenReturns(true)) && Can(s, OpenReturns(false))) || Can(s, Flag) || Can(s, Load) || Can(s, HandOff)
  {
  }

  /** And so does every call. */
  lemma CallsNeverWait(s: State, i: nat)
    requires i in s.calls && !s.calls[i].Installed?
    ensures Can(s, CheckOpened(i)) || Can(s, PassOn(i))
  {
  }

  // ----- which source wins -----

  /** The source a step stores in the handle. */
  function Stores(s: State, e: Event): Option<Source>
    requires Can(s, e)
  {
    match e
    case HandOff => s.opener.p
    case PassOn(i) => Some(s.calls[i].r)
    case _ => None
  }

  ghost predicate LastStore(states: seq<State>, events: seq<Event>, n: nat, j: nat, r: Source)
    requires Run(states, events) && n <= |events|
  {
    j < n && Stores(states[j], events[j]) == Some(r) &&
    forall m :: j < m < n ==> Stores(states[m], events[m]) == None
  }

  /** However calls overlap, the handle has the source of the last store into it. */
  lemma {:induction false} LastStoreWins(states: seq<State>, events: seq<Event>, n: nat, r: Source)
    requires Run(states, events) && n <= |events|
    ensures states[n].handle == Some(r) <==> exists j: nat :: LastStore(states, events, n, j, r)
  {
    if n > 0 {
      var was := n - 1;
      LastStoreWins(states, events, was, r);
      if Stores(states[n - 1], events[n - 1]) == None {
        if j: nat :| LastStore(states, events, was, j, r) {
          assert LastStore(states, events, n, j, r);
        }
        if j: nat :| LastStore(states, events, n, j, r) {
          assert LastStore(states, events, was, j, r);
        }
      } else if Stores(states[n - 1], events[n - 1]) == Some(r) {
        assert LastStore(states, events, n, n - 1, r);
      }
    }
  }

  /** Step `i` is the last install, of source `r` by call `c`, when every earlier call was through. */
  ghost predicate LastAndAlone(states: seq<State>, events: seq<Event>, i: nat, c: nat, r: Source)
    requires Run(states, events)
  {
    && i < |events| && events[i] == Install(c, r) && (forall j :: i < j < |events| ==> !events[j].Install?)
    && forall d :: d in states[i].calls ==> states[i].calls[d].Installed?
  }

  /** What holds from the last install on: only call `c` has anything left to do. */
  ghost predicate OnlyLeft(s: State, c: nat, r: Source) {
    && s.published == Some(r) && c in s.calls && s.calls[c].r == r
    && forall d :: d in s.calls && d != c ==> s.calls[d].Installed?
  }

  /** The opener had not read when the last source was stored: it will read that one. */
  ghost predicate WillRead(s: State, c: nat, r: Source) {
    && OnlyLeft(s, c, r) && (s.opener.Loaded? ==> s.opener.p == Some(r))
    && (s.opener == Finished(true) ==> s.handle == Some(r))
  }

  /** The opener is past reading: the call passes its source on before it ends. */
  ghost predicate PassesOn(s: State, c: nat, r: Source, o: Opener) {
    OnlyLeft(s, c, r) && s.opener == o && s.isOpen && (s.calls[c].Installed? ==> s.handle == Some(r))
  }

  /** The opener handed over what it had read after the call was through. */
  ghost predicate HandedLate(s: State, c: nat, r: Source, p: Option<Source>) {
    OnlyLeft(s, c, r) && s.opener == Finished(true) && s.calls[c].Installed? &&
    s.handle == if p != None then p else Some(r)
  }

  lemma WillReadStep(s: State, e: Event, c: nat, r: Source)
    requires Can(s, e) && WillRead(s, c, r) && !e.Install?
    ensures WillRead(Next(s, e), c, r)
  {
  }

  lemma PassesOnStep(s: State, e: Event, c: nat, r: Source, o: Opener)
    requires Can(s, e) && PassesOn(s, c, r, o) && !e.Install? && (o == Finished(true) || (o.Loaded? && o.ok))
    ensures !e.HandOff? ==> PassesOn(Next(s, e), c, r, o)
    ensures e.HandOff? && s.calls[c].Installed? ==> o.Loaded? && HandedLate(Next(s, e), c, r, o.p)
    ensures e.HandOff? && !s.calls[c].Installed? ==> PassesOn(Next(s, e), c, r, Finished(true))
  {
  }

  /** After that there is nothing left to do. */
  lemma HandedLateIsLast(s: State, e: Event, c: nat, r: Source, p: Option<Source>)
    requires Can(s, e) && HandedLate(s, c, r, p)
    ensures e.Install?
  {
  }

  lemma {:induction false} FromUnread(states: seq<State>, events: seq<Event>, i: nat, c: nat, r: Source, j: nat)
    requires Run(states, events) && LastAndAlone(states, events, i, c, r) && i < j <= |events|
    requires !HasRead(states[i].opener)
    ensures WillRead(states[j], c, r)
    decreases j
  {
    if j > i + 1 {
      FromUnread(states, events, i, c, r, j - 1);
      WillReadStep(states[j - 1], events[j - 1], c, r);
    }
  }

  lemma {:induction false} FromFinished(states: seq<State>, events: seq<Event>, i: nat, c: nat, r: Source, j: nat)
    requires Run(states, events) && LastAndAlone(states, events, i, c, r) && i < j <= |events|
    requires states[i].opener == Finished(true)
    ensures PassesOn(states[j], c, r, Finished(true))
    decreases j
  {
    RunKeepsInv(states, events, i);
    if j > i + 1 {
      FromFinished(states, events, i, c, r, j - 1);
      PassesOnStep(states[j - 1], events[j - 1], c, r, Finished(true));
    }
  }

  /** The opener hands over at step `h`, after the last call has passed its source on. */
  ghost predicate HandsOverLate(states: seq<State>, events: seq<Event>, i: nat, h: nat, c: nat)
    requires Run(states, events)
  {
    i < h < |events| && events[h] == HandOff && c in states[h].calls && states[h].calls[c].Installed?
  }

  /** What holds at `j` when the opener had read and not handed over at the last install. */
  ghost predicate LoadedBefore(states: seq<State>, events: seq<Event>, i: nat, c: nat, r: Source, j: nat)
    requires Run(states, events) && i < j <= |events| && states[i].opener.Loaded?
  {
    var o := states[i].opener;
    if states[j].opener == Finished(true) && 0 < j && HandsOverLate(states, events, i, j - 1, c)
    then HandedLate(states[j], c, r, o.p)
    else
      && (PassesOn(states[j], c, r, o) || PassesOn(states[j], c, r, Finished(true)))
      && forall h: nat :: h < j ==> !HandsOverLate(states, events, i, h, c)
  }

  lemma LoadedStep(states: seq<State>, events: seq<Event>, i: nat, c: nat, r: Source, j: nat)
    requires Run(states, events) && LastAndAlone(states, events, i, c, r) && i < j < |events|
    requires states[i].opener.Loaded? && states[i].opener.ok && LoadedBefore(states, events, i, c, r, j)
    ensures LoadedBefore(states, events, i, c, r, j + 1)
  {
    var s, e, o := states[j], events[j], states[i].opener;
    if HandedLate(s, c, r, o.p) {
      HandedLateIsLast(s, e, c, r, o.p);
    }
    if PassesOn(s, c, r, o) {
      PassesOnStep(s, e, c, r, o);
    } else if PassesOn(s, c, r, Finished(true)) {
      PassesOnStep(s, e, c, r, Finished(true));
    }
  }

  lemma {:induction false} FromLoaded(states: seq<State>, events: seq<Event>, i: nat, c: nat, r: Source, j: nat)
    requires Run(states, events) && LastAndAlone(states, events, i, c, r) && i < j <= |events|
    requires states[i].opener.Loaded?
    ensures LoadedBefore(states, events, i, c, r, j)
    decreases j
  {
    RunKeepsInv(states, events, i);
    if j > i + 1 {
      FromLoaded(states, events, i, c, r, j - 1);
      LoadedStep(states, events, i, c, r, j - 1);
    } else {
      assert PassesOn(states[j], c, r, states[i].opener);
    }
  }

  /**
   * When the last call overlaps no other, the handle misses its source if and only if the opener had
   * read another source before the call stored its own and handed that over after the call was through.
   */
  lemma LastInstallLosesIff(states: seq<State>, events: seq<Event>, i: nat, c: nat, r: Source)
    requires Run(states, events) && LastAndAlone(states, events, i, c, r) && Settled(states[|events|])
    ensures states[|events|].published == Some(r)
    ensures states[|events|].handle != Some(r) <==>
              && states[i].opener.Loaded? && states[i].opener.p != None && states[i].opener.p != Some(r)
              && exists h: nat :: HandsOverLate(states, events, i, h, c)
  {
    var n := |events|;
    if !HasRead(states[i].opener) {
      FromUnread(states, events, i, c, r, n);
    } else if states[i].opener.Loaded? {
      FromLoaded(states, events, i, c, r, n);
    } else {
      FinishedStays(states, events, i, n);
      FromFinished(states, events, i, c, r, n);
    }
  }

  lemma {:induction false} FinishedStays(states: seq<State>, events: seq<Event>, i: nat, j: nat)
    requires Run(states, events) && i <= j <= |events| && states[i].opener.Finished?
    ensures states[j].opener == states[i].opener
    decreases j
  {
    if i < j {
      FinishedStays(states, events, i, j - 1);
    }
  }

  /** The open is over and both calls have seen it; the second has stored its source last. */
  function BothSawOpen(): State {
    State(Finished(true), map[1 := SawOpen(10), 2 := SawOpen(20)], Some(20), true, None)
  }

  lemma OpensThenBothStore() returns (states: seq<State>, events: seq<Event>)
    ensures Run(states, events) && states[|events|] == BothSawOpen()
  {
    events := [OpenReturns(true), Flag, Load, HandOff, Install(1, 10)];
    states := [INIT,
               State(HasHandle(true), map[], None, false, None),
               State(Flagged(true), map[], None, true, None),
               State(Loaded(true, None), map[], None, true, None),
               State(Finished(true), map[], None, true, None),
               State(Finished(true), map[1 := Stored(10)], Some(10), true, None)];
    states, events := Extend(states, events, Install(2, 20));
    states, events := Extend(states, events, CheckOpened(1));
    states, events := Extend(states, events, CheckOpened(2));
  }

  /** Calls that overlap may cross with no open in the way; `LastStoreWins` says who wins. */
  lemma OverlappingCallsMayCross() returns (states: seq<State>, events: seq<Event>)
    ensures Run(states, events) && Settled(states[|events|])
    ensures states[|events|].published == Some(20) && states[|events|].handle == Some(10)
  {
    states, events := OpensThenBothStore();
    states, events := Extend(states, events, PassOn(2));
    states, events := Extend(states, events, PassOn(1));
    assert 1 in states[|events|].calls;
  }
}
