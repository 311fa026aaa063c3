/** `probeCached` over `flightGroup.do`: concurrent probes of one key share a flight.

    A step is one lookup of the cache directory, one critical section of the group's mutex, one
    fork, one store, or one close of a flight's channel, by any of any number of callers. */
module ProbeFlights {
  import opened Options

  type Key = string

  type Caller = nat

  datatype Answer = Ok(out: string) | Absent(cause: string) | Fail(msg: string)

  // ----- the cache directory -----

  /** The three files of one key. `failed` is there only while it is within its time to live. */
  datatype Entry = Entry(success: Option<string>, absent: Option<string>, failed: Option<string>)

  const EMPTY := Entry(None, None, None)

  /** A success answers first, then a cause of absence that is not empty, then a failure. */
  function CachedProbe(e: Entry): Option<Answer> {
    if e.success != None then Some(Ok(e.success.value))
    else if e.absent != None && e.absent.value != "" then Some(Absent(e.absent.value))
    else if e.failed != None then Some(Fail(e.failed.value))
    else None
  }

  function StoreProbe(e: Entry, a: Answer): Entry {
    match a
    case Ok(out) => e.(success := Some(out))
    case Absent(cause) => e.(absent := Some(cause))
    case Fail(msg) => e.(failed := Some(msg))
  }

  /** What was stored answers the next lookup, or something stored earlier that outranks it does. */
  lemma StoredAnswers(e: Entry, a: Answer)
    requires a.Absent? ==> a.cause != ""
    ensures CachedProbe(StoreProbe(e, a)) != None
    ensures CachedProbe(e) == None ==> CachedProbe(StoreProbe(e, a)) == Some(a)
  {
  }

  /** A success answers whatever else there is; then a named cause of absence; a failure only alone. */
  lemma SuccessThenAbsenceThenFailure(e: Entry, a: Answer)
    ensures CachedProbe(e) == Some(a) <==>
              match a
              case Ok(out) => e.success == Some(out)
              case Absent(cause) => e.success == None && e.absent == Some(cause) && cause != ""
              case Fail(msg) =>
                e.success == None && (e.absent == None || e.absent == Some("")) && e.failed == Some(msg)
  {
  }

  /** A store changes its own kind of file alone. */
  lemma StoreKeepsOthers(e: Entry, a: Answer)
    ensures var f := StoreProbe(e, a);
            && (!a.Ok? ==> f.success == e.success) && (!a.Absent? ==> f.absent == e.absent)
            && (!a.Fail? ==> f.failed == e.failed)
            && (a.Ok? ==> f.success == Some(a.out)) && (a.Absent? ==> f.absent == Some(a.cause))
            && (a.Fail? ==> f.failed == Some(a.msg))
  {
  }

  // ----- flights -----

  /** How far a flight's answer has come. */
  datatype Got = Nothing | Running | Cached(a: Answer) | Forked(a: Answer)

  predicate Answered(g: Got) {
    g.Cached? || g.Forked?
  }

  /** `h` is `g`, or something `g` can still become. */
  predicate Later(g: Got, h: Got) {
    g == h || g == Nothing || (g == Running && h.Forked?)
  }

  datatype Flight = Flight(key: Key, owner: Caller, got: Got, landed: bool)

  datatype Phase =
    | Looking(key: Key)
    | Entering(key: Key)                         // missed the cache
    | Waiting(key: Key, f: nat, saw: Got)        // joined f, whose answer had come as far as saw
    | Rechecking(key: Key, f: nat)               // opened f
    | Forking(key: Key, f: nat)
    | Storing(key: Key, f: nat, a: Answer)
    | Forgetting(key: Key, f: nat, a: Answer)
    | Closing(key: Key, f: nat, a: Answer)
    | Hit(key: Key, a: Answer)                   // returned from the first lookup
    | Flew(key: Key, f: nat, a: Answer)          // returned from its own flight
    | Joined(key: Key, f: nat, saw: Got, a: Answer)

  datatype State = State(pc: map<Caller, Phase>, cache: map<Key, Entry>, open: map<Key, nat>, flights: seq<Flight>)

  datatype Event =
    | Ask(c: Caller, key: Key)
    | Look(c: Caller)
    | Enter(c: Caller)
    | Recheck(c: Caller)
    | ForkEnds(c: Caller, a: Answer)
    | Store(c: Caller, ok: bool)                 // not ok: cancelled, writes disabled, or the write failed
    | Forget(c: Caller)
    | Close(c: Caller)
    | Wake(c: Caller)
    | Expire(key: Key)                           // the failure outlives its time to live
    | Outside(key: Key, a: Answer)               // another process stores an answer

  predicate Returned(p: Phase) {
    p.Hit? || p.Flew? || p.Joined?
  }

  /** The phases between opening a flight and closing it. */
  predicate Owns(p: Phase) {
    p.Rechecking? || p.Forking? || p.Storing? || p.Forgetting? || p.Closing?
  }

  function EntryOf(s: State, key: Key): Entry {
    if key in s.cache then s.cache[key] else EMPTY
  }

  function Move(s: State, c: Caller, p: Phase): State {
    s.(pc := s.pc[c := p])
  }

  /** Flight `f` gets `g`. */
  function Get(s: State, f: nat, g: Got): State
    requires f < |s.flights|
  {
    s.(flights := s.flights[f := s.flights[f].(got := g)])
  }

  function Land(s: State, f: nat): State
    requires f < |s.flights|
  {
    s.(flights := s.flights[f := s.flights[f].(landed := true)])
  }

  function Put(s: State, key: Key, e: Entry): State {
    s.(cache := s.cache[key := e])
  }

  function Open(s: State, c: Caller, key: Key): State {
    s.(open := s.open[key := |s.flights|], flights := s.flights + [Flight(key, c, Nothing, false)])
  }

  predicate Can(s: State, e: Event) {
    match e
    case Ask(c, _) => c in s.pc ==> Returned(s.pc[c])
    case Look(c) => c in s.pc && s.pc[c].Looking?
    case Enter(c) => c in s.pc && s.pc[c].Entering?
    case Recheck(c) => c in s.pc && s.pc[c].Rechecking? && s.pc[c].f < |s.flights|
    case ForkEnds(c, _) => c in s.pc && s.pc[c].Forking? && s.pc[c].f < |s.flights|
    case Store(c, _) => c in s.pc && s.pc[c].Storing?
    case Forget(c) => c in s.pc && s.pc[c].Forgetting?
    case Close(c) => c in s.pc && s.pc[c].Closing? && s.pc[c].f < |s.flights|
    case Wake(c) => c in s.pc && s.pc[c].Waiting? && s.pc[c].f < |s.flights|
                    && s.flights[s.pc[c].f].landed && Answered(s.flights[s.pc[c].f].got)
    case Expire(_) => true
    case Outside(_, _) => true
  }

  function Next(s: State, e: Event): State
    requires Can(s, e)
  {
    match e
    case Ask(c, key) => Move(s, c, Looking(key))
    case Look(c) =>
      var key := s.pc[c].key;
      var a := CachedProbe(EntryOf(s, key));
      Move(s, c, if a == None then Entering(key) else Hit(key, a.value))
    case Enter(c) =>
      var key := s.pc[c].key;
      if key in s.open then
        var f := s.open[key];
        Move(s, c, Waiting(key, f, if f < |s.flights| then s.flights[f].got else Nothing))
      else Open(Move(s, c, Rechecking(key, |s.flights|)), c, key)
    case Recheck(c) =>
      var key, f := s.pc[c].key, s.pc[c].f;
      var a := CachedProbe(EntryOf(s, key));
      if a == None then Get(Move(s, c, Forking(key, f)), f, Running)
      else Get(Move(s, c, Forgetting(key, f, a.value)), f, Cached(a.value))
    case ForkEnds(c, a) => Get(Move(s, c, Storing(s.pc[c].key, s.pc[c].f, a)), s.pc[c].f, Forked(a))
    case Store(c, ok) =>
      var p := s.pc[c];
      var t := Move(s, c, Forgetting(p.key, p.f, p.a));
      if ok then Put(t, p.key, StoreProbe(EntryOf(s, p.key), p.a)) else t
    case Forget(c) =>
      var p := s.pc[c];
      Move(s, c, Closing(p.key, p.f, p.a)).(open := s.open - {p.key})
    case Close(c) => Land(Move(s, c, Flew(s.pc[c].key, s.pc[c].f, s.pc[c].a)), s.pc[c].f)
    case Wake(c) => Move(s, c, Joined(s.pc[c].key, s.pc[c].f, s.pc[c].saw, s.flights[s.pc[c].f].got.a))
    case Expire(key) => Put(s, key, EntryOf(s, key).(failed := None))
    case Outside(key, a) => Put(s, key, StoreProbe(EntryOf(s, key), a))
  }

  ghost predicate Init(s: State) {
    s.pc == map[] && s.open == map[] && s.flights == []
  }

  // ----- the invariant -----

  /** What the flight's answer is while its owner is at `p`. */
  predicate Matches(p: Phase, g: Got) {
    match p
    case Rechecking(_, _) => g == Nothing
    case Forking(_, _) => g == Running
    case Storing(_, _, a) => g == Forked(a)
    case Forgetting(_, _, a) => g == Forked(a) || g == Cached(a)
    case Closing(_, _, a) => g == Forked(a) || g == Cached(a)
    case _ => false
  }

  ghost predicate OwnerOk(s: State, c: Caller, p: Phase) {
    Owns(p) ==>
      && p.f < |s.flights| && s.flights[p.f].owner == c && s.flights[p.f].key == p.key && !s.flights[p.f].landed
      && Matches(p, s.flights[p.f].got)
      && ((p.key in s.open && s.open[p.key] == p.f) <==> !p.Closing?)
  }

  ghost predicate JoinerOk(s: State, p: Phase) {
    && (p.Waiting? || p.Joined? ==>
      && p.f < |s.flights| && s.flights[p.f].key == p.key && Later(p.saw, s.flights[p.f].got))
    && (p.Flew? || p.Joined? ==>
      && p.f < |s.flights| && s.flights[p.f].key == p.key
      && (s.flights[p.f].got == Forked(p.a) || s.flights[p.f].got == Cached(p.a)))
  }

  ghost predicate OpenOk(s: State, key: Key)
    requires key in s.open
  {
    var f := s.open[key];
    f < |s.flights| && s.flights[f].key == key && !s.flights[f].landed
  }

  ghost predicate FlightOk(s: State, f: nat)
    requires f < |s.flights|
  {
    var fl := s.flights[f];
    if fl.landed then Answered(fl.got)
    else fl.owner in s.pc && Owns(s.pc[fl.owner]) && s.pc[fl.owner].f == f
  }

  ghost predicate Owners(s: State) {
    forall c :: c in s.pc ==> OwnerOk(s, c, s.pc[c])
  }

  ghost predicate Joiners(s: State) {
    forall c :: c in s.pc ==> JoinerOk(s, s.pc[c])
  }

  ghost predicate Opens(s: State) {
    forall k :: k in s.open ==> OpenOk(s, k)
  }

  ghost predicate Flights(s: State) {
    forall f :: 0 <= f < |s.flights| ==> FlightOk(s, f)
  }

  ghost predicate Inv(s: State) {
    Owners(s) && Joiners(s) && Opens(s) && Flights(s)
  }

  /** The caller whose step this is. */
  function Actor(e: Event): Option<Caller> {
    match e
    case Expire(_) => None
    case Outside(_, _) => None
    case _ => Some(e.c)
  }

  lemma KeepsOther(s: State, e: Event, c: Caller)
    requires Inv(s) && Can(s, e) && c in s.pc && Actor(e) != Some(c)
    ensures c in Next(s, e).pc && Next(s, e).pc[c] == s.pc[c] && OwnerOk(Next(s, e), c, s.pc[c])
  {
    assert OwnerOk(s, c, s.pc[c]);
    if Actor(e) != None && e.c in s.pc {
      assert OwnerOk(s, e.c, s.pc[e.c]);
    }
  }

  lemma KeepsActor(s: State, e: Event, c: Caller)
    requires Inv(s) && Can(s, e) && Actor(e) == Some(c)
    ensures c in Next(s, e).pc && OwnerOk(Next(s, e), c, Next(s, e).pc[c])
  {
    if c in s.pc {
      assert OwnerOk(s, c, s.pc[c]);
    }
  }

  lemma StepKeepsOwners(s: State, e: Event)
    requires Inv(s) && Can(s, e)
    ensures Owners(Next(s, e))
  {
    var t := Next(s, e);
    forall c | c in t.pc ensures OwnerOk(t, c, t.pc[c]) {
      if Actor(e) == Some(c) {
        KeepsActor(s, e, c);
      } else {
        KeepsOther(s, e, c);
      }
    }
  }

  lemma KeepsOtherJoiner(s: State, e: Event, c: Caller)
    requires Inv(s) && Can(s, e) && c in s.pc && Actor(e) != Some(c)
    ensures JoinerOk(Next(s, e), s.pc[c])
  {
    assert JoinerOk(s, s.pc[c]);
    if Actor(e) != None && e.c in s.pc {
      assert OwnerOk(s, e.c, s.pc[e.c]);
    }
  }

  lemma KeepsActorJoiner(s: State, e: Event, c: Caller)
    requires Inv(s) && Can(s, e) && Actor(e) == Some(c)
    ensures JoinerOk(Next(s, e), Next(s, e).pc[c])
  {
    if c in s.pc {
      assert JoinerOk(s, s.pc[c]) && OwnerOk(s, c, s.pc[c]);
    }
  }

  lemma StepKeepsJoiners(s: State, e: Event)
    requires Inv(s) && Can(s, e)
    ensures Joiners(Next(s, e))
  {
    forall c | c in Next(s, e).pc ensures JoinerOk(Next(s, e), Next(s, e).pc[c]) {
      if Actor(e) == Some(c) {
        KeepsActorJoiner(s, e, c);
      } else {
        KeepsOther(s, e, c);
        KeepsOtherJoiner(s, e, c);
      }
    }
  }

  lemma StepKeepsOpens(s: State, e: Event)
    requires Inv(s) && Can(s, e)
    ensures Opens(Next(s, e))
  {
    var t := Next(s, e);
    if Actor(e) != None && e.c in s.pc {
      assert OwnerOk(s, e.c, s.pc[e.c]);
    }
    forall k | k in t.open ensures OpenOk(t, k) {
      assert k in s.open ==> OpenOk(s, k);
    }
  }

  lemma KeepsFlight(s: State, e: Event, f: nat)
    requires Inv(s) && Can(s, e) && f < |Next(s, e).flights|
    ensures FlightOk(Next(s, e), f)
  {
    if f < |s.flights| {
      assert FlightOk(s, f);
    }
    if Actor(e) != None && e.c in s.pc {
      assert OwnerOk(s, e.c, s.pc[e.c]);
    }
  }

  lemma StepKeepsFlights(s: State, e: Event)
    requires Inv(s) && Can(s, e)
    ensures Flights(Next(s, e))
  {
    forall f | 0 <= f < |Next(s, e).flights| ensures FlightOk(Next(s, e), f) {
      KeepsFlight(s, e, f);
    }
  }

  lemma StepKeepsInv(s: State, e: Event)
    requires Inv(s) && Can(s, e)
    ensures Inv(Next(s, e))
  {
    StepKeepsOwners(s, e);
    StepKeepsJoiners(s, e);
    StepKeepsOpens(s, e);
    StepKeepsFlights(s, e);
  }

  // ----- every run -----

  ghost predicate Run(states: seq<State>, events: seq<Event>) {
    |states| == |events| + 1 && Init(states[0]) &&
    forall i :: 0 <= i < |events| ==> Can(states[i], events[i]) && states[i + 1] == Next(states[i], events[i])
  }

  lemma {:induction false} RunKeepsInv(states: seq<State>, events: seq<Event>, i: nat)
    requires Run(states, events) && i < |states|
    ensures Inv(states[i])
  {
    if i > 0 {
      RunKeepsInv(states, events, i - 1);
      StepKeepsInv(states[i - 1], events[i - 1]);
    }
  }

  /** At most one fork of a key is in flight, and more: at most one caller is past its miss and not yet forgotten. */
  lemma OneForkInFlight(states: seq<State>, events: seq<Event>, i: nat, c: Caller, d: Caller)
    requires Run(states, events) && i < |states| && c in states[i].pc && d in states[i].pc
    requires Owns(states[i].pc[c]) && Owns(states[i].pc[d]) && states[i].pc[c].key == states[i].pc[d].key
    requires !states[i].pc[c].Closing? && !states[i].pc[d].Closing?
    ensures c == d
  {
    var s := states[i];
    RunKeepsInv(states, events, i);
    assert OwnerOk(s, c, s.pc[c]) && OwnerOk(s, d, s.pc[d]);
  }

  /** A caller joins only a flight that is open, its owner somewhere between opening it and forgetting it. */
  lemma JoinsAnOpenFlight(states: seq<State>, events: seq<Event>, i: nat, c: Caller)
    requires Run(states, events) && i < |events| && events[i] == Enter(c) && states[i + 1].pc[c].Waiting?
    ensures var s, p := states[i], states[i + 1].pc[c];
            && p.f < |s.flights| && s.flights[p.f].key == p.key && p.saw == s.flights[p.f].got
            && var o := s.flights[p.f].owner; o in s.pc && Owns(s.pc[o]) && !s.pc[o].Closing? && s.pc[o].f == p.f
  {
    var s, key := states[i], states[i].pc[c].key;
    RunKeepsInv(states, events, i);
    assert OpenOk(s, key);
    var f := s.open[key];
    assert FlightOk(s, f);
    assert OwnerOk(s, s.flights[f].owner, s.pc[s.flights[f].owner]);
  }

  // ----- whose answer it is -----

  lemma AnswerOnlyGrows(s: State, e: Event, f: nat)
    requires Inv(s) && Can(s, e) && f < |s.flights|
    ensures f < |Next(s, e).flights| && Next(s, e).flights[f].key == s.flights[f].key
    ensures Later(s.flights[f].got, Next(s, e).flights[f].got)
  {
    if Actor(e) != None && e.c in s.pc {
      assert OwnerOk(s, e.c, s.pc[e.c]);
    }
  }

  lemma {:induction false} AnswerGrows(states: seq<State>, events: seq<Event>, i: nat, k: nat, f: nat)
    requires Run(states, events) && i <= k < |states| && f < |states[i].flights|
    ensures f < |states[k].flights| && states[k].flights[f].key == states[i].flights[f].key
    ensures Later(states[i].flights[f].got, states[k].flights[f].got)
    decreases k
  {
    if i < k {
      AnswerGrows(states, events, i, k - 1, f);
      RunKeepsInv(states, events, k - 1);
      AnswerOnlyGrows(states[k - 1], events[k - 1], f);
    }
  }

  /** Step `i` is the second lookup, by the owner of flight `f`. */
  ghost predicate LooksAgain(states: seq<State>, events: seq<Event>, i: nat, f: nat) {
    i < |events| && i < |states| && Can(states[i], events[i]) && events[i].Recheck? && states[i].pc[events[i].c].f == f
  }

  /** What the second lookup finds. */
  function Found(s: State, f: nat): Option<Answer>
    requires f < |s.flights|
  {
    CachedProbe(EntryOf(s, s.flights[f].key))
  }

  lemma LookupDecides(states: seq<State>, events: seq<Event>, i: nat, k: nat, f: nat)
    requires Run(states, events) && i < k < |states| && LooksAgain(states, events, i, f)
    ensures f < |states[i].flights| && f < |states[k].flights|
    ensures match Found(states[i], f)
            case None => states[k].flights[f].got == Running || states[k].flights[f].got.Forked?
            case Some(a) => states[k].flights[f].got == Cached(a)
  {
    RunKeepsInv(states, events, i);
    var s, c := states[i], events[i].c;
    assert OwnerOk(s, c, s.pc[c]);
    AnswerGrows(states, events, i + 1, k, f);
  }

  lemma {:induction false} LookupWasMade(states: seq<State>, events: seq<Event>, k: nat, f: nat)
    requires Run(states, events) && k < |states| && f < |states[k].flights| && states[k].flights[f].got != Nothing
    ensures exists i :: 0 <= i < k && LooksAgain(states, events, i, f)
  {
    if k > 0 {
      var s, e := states[k - 1], events[k - 1];
      RunKeepsInv(states, events, k - 1);
      if f < |s.flights| && s.flights[f].got != Nothing {
        LookupWasMade(states, events, k - 1, f);
      } else {
        LookupIsNow(s, e, f);
        assert LooksAgain(states, events, k - 1, f);
      }
    }
  }

  lemma LookupIsNow(s: State, e: Event, f: nat)
    requires Inv(s) && Can(s, e) && f < |Next(s, e).flights| && Next(s, e).flights[f].got != Nothing
    requires f < |s.flights| ==> s.flights[f].got == Nothing
    ensures e.Recheck? && s.pc[e.c].f == f
  {
    if Actor(e) != None && e.c in s.pc {
      assert OwnerOk(s, e.c, s.pc[e.c]);
    }
  }

  /**
   * A flight's answer, and so that of everybody who joined it, is a fork's if and only if its second
   * lookup missed; otherwise it is what that lookup found.
   */
  lemma ForkAnswersIffLookupMissed(states: seq<State>, events: seq<Event>, k: nat, f: nat)
    requires Run(states, events) && k < |states| && f < |states[k].flights| && Answered(states[k].flights[f].got)
    ensures exists i :: 0 <= i < k && LooksAgain(states, events, i, f)
    ensures forall i :: 0 <= i < k && LooksAgain(states, events, i, f) ==>
              && f < |states[i].flights|
              && (states[k].flights[f].got.Forked? <==> Found(states[i], f) == None)
              && (Found(states[i], f) != None ==> states[k].flights[f].got == Cached(Found(states[i], f).value))
  {
    LookupWasMade(states, events, k, f);
    forall i | 0 <= i < k && LooksAgain(states, events, i, f)
      ensures && f < |states[i].flights|
              && (states[k].flights[f].got.Forked? <==> Found(states[i], f) == None)
              && (Found(states[i], f) != None ==> states[k].flights[f].got == Cached(Found(states[i], f).value))
    {
      LookupDecides(states, events, i, k, f);
    }
  }

  /**
   * A joiner returns the answer of the flight it joined, the same as the owner's. Where the fork was
   * running at the join, the answer is that fork's; where the answer had come, it is that answer; and
   * in every case it is a fork's if and only if the flight's second lookup missed.
   */
  lemma JoinersShareTheAnswer(states: seq<State>, events: seq<Event>, k: nat, c: Caller)
    requires Run(states, events) && k < |states| && c in states[k].pc && states[k].pc[c].Joined?
    ensures var s, p := states[k], states[k].pc[c];
            && p.f < |s.flights| && s.flights[p.f].key == p.key
            && (s.flights[p.f].got == Forked(p.a) || s.flights[p.f].got == Cached(p.a))
            && (p.saw == Running ==> s.flights[p.f].got == Forked(p.a))
            && (Answered(p.saw) ==> p.saw.a == p.a)
            && forall d :: d in s.pc && s.pc[d].Flew? && s.pc[d].f == p.f ==> s.pc[d].a == p.a
    ensures var p := states[k].pc[c];
            && (exists i :: 0 <= i < k && LooksAgain(states, events, i, p.f))
            && forall i :: 0 <= i < k && LooksAgain(states, events, i, p.f) ==>
                 && p.f < |states[i].flights|
                 && (states[k].flights[p.f].got == Forked(p.a) <==> Found(states[i], p.f) == None)
  {
    var s, p := states[k], states[k].pc[c];
    RunKeepsInv(states, events, k);
    assert JoinerOk(s, p);
    forall d | d in s.pc && s.pc[d].Flew? && s.pc[d].f == p.f ensures s.pc[d].a == p.a {
      assert JoinerOk(s, s.pc[d]);
    }
    ForkAnswersIffLookupMissed(states, events, k, p.f);
  }

  /** A fork of the flight was running when a caller joined it if and only if the caller saw it running. */
  lemma ForkRanAtJoinIff(states: seq<State>, events: seq<Event>, i: nat, c: Caller)
    requires Run(states, events) && i < |events| && events[i] == Enter(c) && states[i + 1].pc[c].Waiting?
    ensures var s, p := states[i], states[i + 1].pc[c];
            && p.f < |s.flights| && s.flights[p.f].owner in s.pc
            && (p.saw == Running <==> s.pc[s.flights[p.f].owner].Forking?)
  {
    JoinsAnOpenFlight(states, events, i, c);
    RunKeepsInv(states, events, i);
    var s, p := states[i], states[i + 1].pc[c];
    assert OwnerOk(s, s.flights[p.f].owner, s.pc[s.flights[p.f].owner]);
  }

  /** `q` is `p` waiting, or with the answer. */
  predicate SameJoin(p: Phase, q: Phase) {
    && (p.Waiting? || p.Joined?) && (q.Waiting? || q.Joined?)
    && q.key == p.key && q.f == p.f && q.saw == p.saw
  }

  lemma JoinerStep(s: State, e: Event, t: State, c: Caller, p: Phase)
    requires Can(s, e) && t == Next(s, e) && c in s.pc && SameJoin(p, s.pc[c]) && !(e.Ask? && e.c == c)
    ensures c in t.pc && SameJoin(p, t.pc[c])
  {
  }

  lemma {:induction false} JoinStays(states: seq<State>, events: seq<Event>, i: nat, k: nat, c: Caller, p: Phase)
    requires Run(states, events) && i <= k < |states| && c in states[i].pc && SameJoin(p, states[i].pc[c])
    requires forall m, key :: i <= m < k ==> events[m] != Ask(c, key)
    ensures c in states[k].pc && SameJoin(p, states[k].pc[c])
    decreases k
  {
    if i < k {
      JoinStays(states, events, i, k - 1, c, p);
      JoinerStep(states[k - 1], events[k - 1], states[k], c, p);
    }
  }

  /** From its join on, until it asks again, a joiner keeps to the flight it joined and to what it saw then. */
  lemma JoinerKeepsToItsFlight(states: seq<State>, events: seq<Event>, i: nat, k: nat, c: Caller)
    requires Run(states, events) && i < k < |states| && events[i] == Enter(c) && states[i + 1].pc[c].Waiting?
    requires forall m, key :: i < m < k ==> events[m] != Ask(c, key)
    ensures c in states[k].pc && SameJoin(states[i + 1].pc[c], states[k].pc[c])
  {
    JoinStays(states, events, i + 1, k, c, states[i + 1].pc[c]);
  }

  /** No joiner is left waiting: its flight has landed, or the flight's owner can take a step. */
  lemma JoinersAreNotStranded(states: seq<State>, events: seq<Event>, i: nat, c: Caller)
    requires Run(states, events) && i < |states| && c in states[i].pc && states[i].pc[c].Waiting?
    ensures var s, f := states[i], states[i].pc[c].f;
            && f < |s.flights|
            && (Can(s, Wake(c)) ||
                var o := s.flights[f].owner;
                (Can(s, Recheck(o)) || (forall a :: Can(s, ForkEnds(o, a))) || Can(s, Store(o, true))
                 || Can(s, Forget(o)) || Can(s, Close(o))))
  {
    var s := states[i];
    RunKeepsInv(states, events, i);
    assert JoinerOk(s, s.pc[c]);
    var f := s.pc[c].f;
    assert FlightOk(s, f);
    if !s.flights[f].landed {
      assert OwnerOk(s, s.flights[f].owner, s.pc[s.flights[f].owner]);
    }
  }

  /** A caller that has not returned and is not waiting on another's flight can always go on. */
  lemma CallersNeverWedge(states: seq<State>, events: seq<Event>, i: nat, c: Caller)
    requires Run(states, events) && i < |states| && c in states[i].pc
    requires !Returned(states[i].pc[c]) && !states[i].pc[c].Waiting?
    ensures var s := states[i];
            || Can(s, Look(c)) || Can(s, Enter(c)) || Can(s, Recheck(c)) || (forall a :: Can(s, ForkEnds(c, a)))
            || (Can(s, Store(c, true)) && Can(s, Store(c, false))) || Can(s, Forget(c)) || Can(s, Close(c))
  {
    RunKeepsInv(states, events, i);
    assert OwnerOk(states[i], c, states[i].pc[c]);
  }

  // ----- the first lookup, and what the cache holds -----

  /** Caller `c` asked for `key` at step `j` and has not asked again since. */
  ghost predicate AskedLast(events: seq<Event>, j: nat, i: nat, c: Caller, key: Key) {
    j < i <= |events| && events[j] == Ask(c, key) && forall m, k :: j < m < i ==> events[m] != Ask(c, k)
  }

  /** Step `m` is the first lookup of the caller's question asked at `j`. */
  ghost predicate LooksFirst(events: seq<Event>, j: nat, m: nat, i: nat, c: Caller) {
    j < m < i <= |events| && events[m] == Look(c)
  }

  lemma LookStep(s: State, e: Event, c: Caller)
    requires Can(s, e) && c in s.pc && !(e.Ask? && e.c == c)
    ensures var t := Next(s, e);
            && c in t.pc && t.pc[c].key == s.pc[c].key
            && (e == Look(c) ==> match CachedProbe(EntryOf(s, s.pc[c].key))
                                 case None => t.pc[c] == Entering(s.pc[c].key)
                                 case Some(a) => t.pc[c] == Hit(s.pc[c].key, a))
            && (e != Look(c) ==> (t.pc[c].Looking? <==> s.pc[c].Looking?) && (t.pc[c].Hit? <==> s.pc[c].Hit?)
                                 && (s.pc[c].Hit? ==> t.pc[c] == s.pc[c]))
  {
  }

  /** What caller `c` has come to since it asked at `j`. */
  ghost predicate FirstLookTells(states: seq<State>, events: seq<Event>, j: nat, i: nat, c: Caller, key: Key)
    requires Run(states, events) && j < i < |states|
  {
    && c in states[i].pc && states[i].pc[c].key == key
    && (states[i].pc[c].Looking? <==> forall m: nat :: !LooksFirst(events, j, m, i, c))
    && forall m: nat :: LooksFirst(events, j, m, i, c) ==>
         match CachedProbe(EntryOf(states[m], key))
         case None => !states[i].pc[c].Hit?
         case Some(a) => states[i].pc[c] == Hit(key, a)
  }

  lemma {:induction false} RunFirstLook(states: seq<State>, events: seq<Event>, j: nat, i: nat, c: Caller, key: Key)
    requires Run(states, events) && j < i < |states| && AskedLast(events, j, i, c, key)
    ensures FirstLookTells(states, events, j, i, c, key)
    decreases i
  {
    if j + 1 < i {
      var was := i - 1;
      assert AskedLast(events, j, was, c, key);
      RunFirstLook(states, events, j, was, c, key);
      LookStep(states[was], events[was], c);
      forall m: nat ensures LooksFirst(events, j, m, i, c) <==>
        LooksFirst(events, j, m, was, c) || (m == was && events[was] == Look(c))
      {
      }
    }
  }

  /** A caller returns at its first lookup if and only if that found an answer, and then with that answer. */
  lemma HitIffFirstLookFound(states: seq<State>, events: seq<Event>, j: nat, m: nat, i: nat, c: Caller, key: Key)
    requires Run(states, events) && AskedLast(events, j, i, c, key) && i < |states| && LooksFirst(events, j, m, i, c)
    ensures c in states[i].pc
    ensures states[i].pc[c].Hit? <==> CachedProbe(EntryOf(states[m], key)) != None
    ensures states[i].pc[c].Hit? ==> CachedProbe(EntryOf(states[m], key)) == Some(states[i].pc[c].a)
  {
    RunFirstLook(states, events, j, i, c, key);
  }

  /** Whose answer step `i` may have put in the cache under `key`. */
  ghost predicate PutsAnswer(states: seq<State>, events: seq<Event>, i: nat, key: Key, a: Answer) {
    && i < |events| && i < |states|
    && (events[i] == Outside(key, a)
        || (events[i].Store? && events[i].ok && Can(states[i], events[i])
            && states[i].pc[events[i].c].key == key && states[i].pc[events[i].c].a == a))
  }

  /** The file for an answer of this kind says `a`. */
  predicate Has(e: Entry, a: Answer) {
    match a
    case Ok(out) => e.success == Some(out)
    case Absent(cause) => e.absent == Some(cause)
    case Fail(msg) => e.failed == Some(msg)
  }

  lemma StepPuts(s: State, e: Event, key: Key, a: Answer)
    requires Can(s, e) && Has(EntryOf(Next(s, e), key), a) && !Has(EntryOf(s, key), a)
    ensures e == Outside(key, a) || (e.Store? && e.ok && s.pc[e.c].key == key && s.pc[e.c].a == a)
  {
  }

  /** Nothing enters the cache but what another process stored or the store of an uncancelled fork wrote. */
  lemma {:induction false} CachedWasStored(states: seq<State>, events: seq<Event>, k: nat, key: Key, a: Answer)
    requires Run(states, events) && k < |states| && Has(EntryOf(states[k], key), a)
    ensures Has(EntryOf(states[0], key), a) || exists i: nat :: i < k && PutsAnswer(states, events, i, key, a)
  {
    if k > 0 {
      if Has(EntryOf(states[k - 1], key), a) {
        CachedWasStored(states, events, k - 1, key, a);
      } else {
        StepPuts(states[k - 1], events[k - 1], key, a);
        assert PutsAnswer(states, events, k - 1, key, a);
      }
    }
  }

  /** And what is put is there. */
  lemma StoredIsCached(states: seq<State>, events: seq<Event>, i: nat, key: Key, a: Answer)
    requires Run(states, events) && PutsAnswer(states, events, i, key, a)
    ensures Has(EntryOf(states[i + 1], key), a)
  {
  }

  /** From `e` to `f` a success and a cause of absence stay, and a failure unless it expired. */
  predicate Stays(e: Entry, f: Entry, expired: bool) {
    && (e.success != None ==> f.success != None) && (e.absent != None ==> f.absent != None)
    && (e.failed != None && !expired ==> f.failed != None)
  }

  lemma StaysOneStep(s: State, e: Event, t: State, key: Key)
    requires Can(s, e) && t == Next(s, e)
    ensures Stays(EntryOf(s, key), EntryOf(t, key), e == Expire(key))
  {
  }

  ghost predicate Expires(events: seq<Event>, i: nat, k: nat, key: Key) {
    exists m :: i <= m < k <= |events| && events[m] == Expire(key)
  }

  /** A success and a cause of absence stay for good, a failure until it expires. */
  lemma {:induction false} CachedStays(states: seq<State>, events: seq<Event>, i: nat, k: nat, key: Key)
    requires Run(states, events) && i <= k < |states|
    ensures Stays(EntryOf(states[i], key), EntryOf(states[k], key), Expires(events, i, k, key))
    decreases k
  {
    if i < k {
      var was := k - 1;
      CachedStays(states, events, i, was, key);
      StaysOneStep(states[was], events[was], states[k], key);
      ExpiresOn(events, i, was, key);
    }
  }

  lemma ExpiresOn(events: seq<Event>, i: nat, was: nat, key: Key)
    requires i <= was < |events|
    ensures Expires(events, i, was + 1, key) <==> Expires(events, i, was, key) || events[was] == Expire(key)
  {
  }

  /** A failure that is there was there from the start or put, and has not expired since. */
  lemma {:induction false} FailureIsUnexpired(states: seq<State>, events: seq<Event>, k: nat, key: Key, msg: string)
    requires Run(states, events) && k < |states| && Has(EntryOf(states[k], key), Fail(msg))
    ensures || (Has(EntryOf(states[0], key), Fail(msg)) && !Expires(events, 0, k, key))
            || exists i: nat :: i < k && PutsAnswer(states, events, i, key, Fail(msg)) && !Expires(events, i, k, key)
  {
    if k > 0 {
      var was := k - 1;
      if Has(EntryOf(states[was], key), Fail(msg)) && events[was] != Expire(key) {
        FailureIsUnexpired(states, events, was, key, msg);
        ExpiresOn(events, 0, was, key);
        if i: nat :| i < was && PutsAnswer(states, events, i, key, Fail(msg)) && !Expires(events, i, was, key) {
          ExpiresOn(events, i, was, key);
        }
      } else {
        FailureIsPutNow(states[was], events[was], states[k], key, msg);
        assert PutsAnswer(states, events, was, key, Fail(msg)) && !Expires(events, was, k, key);
      }
    }
  }

  lemma FailureIsPutNow(s: State, e: Event, t: State, key: Key, msg: string)
    requires Can(s, e) && t == Next(s, e) && Has(EntryOf(t, key), Fail(msg))
    requires !Has(EntryOf(s, key), Fail(msg)) || e == Expire(key)
    ensures e == Outside(key, Fail(msg)) || (e.Store? && e.ok && s.pc[e.c].key == key && s.pc[e.c].a == Fail(msg))
  {
  }

  // ----- one successful fork -----

  predicate Succeeded(fl: Flight) {
    fl.got.Forked? && fl.got.a.Ok?
  }

  /** A successful fork is in the cache, or its owner is about to store it. */
  ghost predicate KeptSuccess(s: State, f: nat)
    requires f < |s.flights|
  {
    Succeeded(s.flights[f]) ==>
      || EntryOf(s, s.flights[f].key).success != None
      || (s.flights[f].owner in s.pc && s.pc[s.flights[f].owner].Storing? && s.pc[s.flights[f].owner].f == f)
  }

  /** While a fork runs, no flight of its key has succeeded; and two flights of one key never both have. */
  ghost predicate Alone(s: State, f: nat, g: nat)
    requires f < |s.flights| && g < |s.flights|
  {
    f != g && s.flights[f].key == s.flights[g].key && Succeeded(s.flights[g]) ==>
      !Succeeded(s.flights[f]) && s.flights[f].got != Running
  }

  ghost predicate Kept(s: State) {
    forall f :: 0 <= f < |s.flights| ==> KeptSuccess(s, f)
  }

  ghost predicate OneSuccess(s: State) {
    forall f, g :: 0 <= f < |s.flights| && 0 <= g < |s.flights| ==> Alone(s, f, g)
  }

  lemma StepKeepsSuccess(s: State, e: Event, f: nat)
    requires Inv(s) && Can(s, e) && Kept(s) && (e.Store? ==> e.ok) && f < |Next(s, e).flights|
    ensures KeptSuccess(Next(s, e), f)
  {
    if f < |s.flights| {
      assert KeptSuccess(s, f) && FlightOk(s, f);
    }
    if Actor(e) != None && e.c in s.pc {
      assert OwnerOk(s, e.c, s.pc[e.c]);
    }
  }

  /** A miss at the second lookup means no flight of the key has succeeded. */
  lemma MissMeansNone(s: State, c: Caller, g: nat)
    requires Inv(s) && Kept(s) && c in s.pc && s.pc[c].Rechecking? && g < |s.flights|
    requires EntryOf(s, s.pc[c].key).success == None && s.flights[g].key == s.pc[c].key
    ensures !Succeeded(s.flights[g])
  {
    var o := s.flights[g].owner;
    assert KeptSuccess(s, g) && OwnerOk(s, c, s.pc[c]);
    assert forall d :: d in s.pc ==> OwnerOk(s, d, s.pc[d]);
  }

  /** A running flight is open, so the flight that now succeeds is the only one of its key running. */
  lemma RunningIsOpen(s: State, f: nat)
    requires Inv(s) && f < |s.flights| && s.flights[f].got == Running
    ensures s.flights[f].key in s.open && s.open[s.flights[f].key] == f
  {
    assert FlightOk(s, f);
    assert OwnerOk(s, s.flights[f].owner, s.pc[s.flights[f].owner]);
  }

  lemma ForkEndsAlone(s: State, e: Event, f: nat, g: nat)
    requires Inv(s) && Can(s, e) && e.ForkEnds? && OneSuccess(s) && f < |s.flights| && g < |s.flights|
    ensures Alone(Next(s, e), f, g)
  {
    assert Alone(s, f, g) && Alone(s, g, f) && OwnerOk(s, e.c, s.pc[e.c]);
    if s.flights[f].got == Running {
      RunningIsOpen(s, f);
    }
    if s.flights[g].got == Running {
      RunningIsOpen(s, g);
    }
  }

  lemma StepKeepsAlone(s: State, e: Event, f: nat, g: nat)
    requires Inv(s) && Can(s, e) && Kept(s) && OneSuccess(s)
    requires f < |Next(s, e).flights| && g < |Next(s, e).flights|
    ensures Alone(Next(s, e), f, g)
  {
    if f < |s.flights| && g < |s.flights| {
      assert Alone(s, f, g);
      if e.ForkEnds? {
        ForkEndsAlone(s, e, f, g);
      } else if e.Recheck? {
        assert OwnerOk(s, e.c, s.pc[e.c]);
        if s.flights[g].key == s.pc[e.c].key && EntryOf(s, s.pc[e.c].key).success == None {
          MissMeansNone(s, e.c, g);
        }
      }
    }
  }

  ghost predicate StoresSucceed(events: seq<Event>) {
    forall i :: 0 <= i < |events| && events[i].Store? ==> events[i].ok
  }

  lemma {:induction false} RunKeepsOneSuccess(states: seq<State>, events: seq<Event>, i: nat)
    requires Run(states, events) && StoresSucceed(events) && i < |states|
    ensures Kept(states[i]) && OneSuccess(states[i])
  {
    if i > 0 {
      var s, e := states[i - 1], events[i - 1];
      RunKeepsInv(states, events, i - 1);
      RunKeepsOneSuccess(states, events, i - 1);
      forall f | 0 <= f < |states[i].flights| ensures KeptSuccess(states[i], f) {
        StepKeepsSuccess(s, e, f);
      }
      forall f, g | 0 <= f < |states[i].flights| && 0 <= g < |states[i].flights| ensures Alone(states[i], f, g) {
        StepKeepsAlone(s, e, f, g);
      }
    }
  }

  /** When stores succeed, a key is forked successfully at most once in the whole run. */
  lemma AtMostOneSuccessfulFork(states: seq<State>, events: seq<Event>, i: nat, f: nat, g: nat)
    requires Run(states, events) && StoresSucceed(events) && i < |states|
    requires f < |states[i].flights| && g < |states[i].flights| && states[i].flights[f].key == states[i].flights[g].key
    requires Succeeded(states[i].flights[f]) && Succeeded(states[i].flights[g])
    ensures f == g
  {
    RunKeepsOneSuccess(states, events, i);
    assert Alone(states[i], f, g);
  }

  // ----- a joiner need not share a fork -----

  lemma Extend(states: seq<State>, events: seq<Event>, e: Event)
    requires Run(states, events) && Can(states[|events|], e)
    ensures Run(states + [Next(states[|events|], e)], events + [e])
  {
  }

  /** Two callers have missed the cache. */
  function BothMissed(): State {
    State(map[1 := Entering("k"), 2 := Entering("k")], map[], map[], [])
  }

  /** An answer was stored, then the first caller opened a flight and the second joined it. */
  function OneJoined(): State {
    State(map[1 := Rechecking("k", 0), 2 := Waiting("k", 0, Nothing)],
          map["k" := Entry(Some("v1"), None, None)], map["k" := 0], [Flight("k", 1, Nothing, false)])
  }

  /** The flight found the stored answer, and both callers returned it. */
  function SharedACachedAnswer(): State {
    State(map[1 := Flew("k", 0, Ok("v1")), 2 := Joined("k", 0, Nothing, Ok("v1"))],
          map["k" := Entry(Some("v1"), None, None)], map[], [Flight("k", 1, Cached(Ok("v1")), true)])
  }

  ghost predicate Reachable(s: State) {
    exists states: seq<State>, events: seq<Event> :: Run(states, events) && states[|events|] == s
  }

  lemma Reach(s: State, e: Event)
    requires Reachable(s) && Can(s, e)
    ensures Reachable(Next(s, e))
  {
    var states: seq<State>, events: seq<Event> :| Run(states, events) && states[|events|] == s;
    Extend(states, events, e);
    assert (states + [Next(s, e)])[|events + [e]|] == Next(s, e);
  }

  lemma ReachBothMissed()
    ensures Reachable(BothMissed())
  {
    var s0 := State(map[], map[], map[], []);
    var none: seq<Event> := [];
    assert Run([s0], none) && [s0][|none|] == s0;
    Reach(s0, Ask(1, "k"));
    var s1 := State(map[1 := Looking("k")], map[], map[], []);
    assert Next(s0, Ask(1, "k")) == s1;
    Reach(s1, Look(1));
    var s2 := State(map[1 := Entering("k")], map[], map[], []);
    assert Next(s1, Look(1)) == s2;
    Reach(s2, Ask(2, "k"));
    var s3 := State(map[1 := Entering("k"), 2 := Looking("k")], map[], map[], []);
    assert Next(s2, Ask(2, "k")) == s3;
    Reach(s3, Look(2));
    assert Next(s3, Look(2)) == BothMissed();
  }

  lemma ReachOneJoined()
    ensures Reachable(OneJoined())
  {
    ReachBothMissed();
    Reach(BothMissed(), Outside("k", Ok("v1")));
    var s1 := Next(BothMissed(), Outside("k", Ok("v1")));
    Reach(s1, Enter(1));
    var s2 := Next(s1, Enter(1));
    Reach(s2, Enter(2));
    assert Next(s2, Enter(2)) == OneJoined();
  }

  /** The flight found the stored answer and is forgotten. */
  function FoundStored(): State {
    State(map[1 := Closing("k", 0, Ok("v1")), 2 := Waiting("k", 0, Nothing)],
          map["k" := Entry(Some("v1"), None, None)], map[], [Flight("k", 1, Cached(Ok("v1")), false)])
  }

  lemma ReachFoundStored()
    ensures Reachable(FoundStored())
  {
    ReachOneJoined();
    Reach(OneJoined(), Recheck(1));
    var s1 := Next(OneJoined(), Recheck(1));
    Reach(s1, Forget(1));
    assert Next(s1, Forget(1)) == FoundStored();
  }

  /**
   * A joiner may get an answer no fork of this process gave: its flight found at the second lookup
   * what had been stored meanwhile. `JoinersShareTheAnswer` says when the answer is a fork's.
   */
  lemma JoinerMayGetACachedAnswer()
    ensures Reachable(SharedACachedAnswer())
    ensures SharedACachedAnswer().pc[2].Joined? && SharedACachedAnswer().flights[0].got == Cached(Ok("v1"))
  {
    ReachFoundStored();
    Reach(FoundStored(), Close(1));
    var s1 := Next(FoundStored(), Close(1));
    Reach(s1, Wake(2));
    assert Next(s1, Wake(2)) == SharedACachedAnswer();
  }
}
