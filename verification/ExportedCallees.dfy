/** `exportedCallees`: the exported functions an anchor's body calls, directly or through unexported ones. */
module ExportedCallees {
  import opened Names

  /** A declared function: the identifiers its body calls, in the order the body is inspected. */
  datatype Fun = Fun(exported: bool, calls: seq<Name>)

  type Funs = map<Name, Fun>

  // ----- the bodies that count -----

  predicate IsAnchor(fs: Funs, norm: Name -> Name, anchor: Name, n: Name) {
    n in fs && fs[n].exported && norm(n) == norm(anchor)
  }

  /** The body of `a` calls the unexported function `b`, so the walk goes on into it. */
  predicate Enters(fs: Funs, a: Name, b: Name) {
    a in fs && b in fs && !fs[b].exported && b in fs[a].calls
  }

  ghost predicate Path(fs: Funs, norm: Name -> Name, anchor: Name, p: seq<Name>) {
    p != [] && IsAnchor(fs, norm, anchor, p[0]) && forall i :: 0 < i < |p| ==> Enters(fs, p[i - 1], p[i])
  }

  /** Reachable from an anchor through unexported functions. */
  ghost predicate Reached(fs: Funs, norm: Name -> Name, anchor: Name, n: Name) {
    exists p :: Path(fs, norm, anchor, p) && p[|p| - 1] == n
  }

  /** The body of `a` calls the exported function `b`. */
  predicate CallsExported(fs: Funs, a: Name, b: Name) {
    a in fs && b in fs && fs[b].exported && b in fs[a].calls
  }

  lemma ReachedAnchor(fs: Funs, norm: Name -> Name, anchor: Name, n: Name)
    requires IsAnchor(fs, norm, anchor, n)
    ensures Reached(fs, norm, anchor, n)
  {
    assert Path(fs, norm, anchor, [n]) && [n][|[n]| - 1] == n;
  }

  lemma ReachedNext(fs: Funs, norm: Name -> Name, anchor: Name, a: Name, b: Name)
    requires Reached(fs, norm, anchor, a) && Enters(fs, a, b)
    ensures Reached(fs, norm, anchor, b)
  {
    var p :| Path(fs, norm, anchor, p) && p[|p| - 1] == a;
    var q := p + [b];
    assert Path(fs, norm, anchor, q) && q[|q| - 1] == b;
  }

  /** A set with every anchor, closed under entering, holds everything reached. */
  lemma {:induction false} ClosedHoldsPath(fs: Funs, norm: Name -> Name, anchor: Name, v: set<Name>,
                                           p: seq<Name>, i: nat)
    requires Path(fs, norm, anchor, p) && i < |p|
    requires forall n :: IsAnchor(fs, norm, anchor, n) ==> n in v
    requires forall a, b :: a in v && Enters(fs, a, b) ==> b in v
    ensures p[i] in v
  {
    if i > 0 {
      ClosedHoldsPath(fs, norm, anchor, v, p, i - 1);
      assert Enters(fs, p[i - 1], p[i]);
    }
  }

  // ----- the walk -----

  /** The first `k` callees of `n` that are unexported are visited. */
  ghost predicate EntersDone(fs: Funs, v: set<Name>, n: Name, k: nat)
    requires n in fs && k <= |fs[n].calls|
  {
    forall i :: 0 <= i < k && fs[n].calls[i] in fs && !fs[fs[n].calls[i]].exported ==> fs[n].calls[i] in v
  }

  /** The bodies in `done` have been walked: what they enter is visited. */
  ghost predicate Walked(fs: Funs, v: set<Name>, done: set<Name>) {
    forall n :: n in done ==> n in fs && EntersDone(fs, v, n, |fs[n].calls|)
  }

  /** The exported callees of `n`'s body up to its `k`th call. */
  function CalleesUpTo(fs: Funs, norm: Name -> Name, n: Name, k: nat): set<Name>
    requires n in fs && k <= |fs[n].calls|
  {
    set i | 0 <= i < k && CallsExported(fs, n, fs[n].calls[i]) :: norm(fs[n].calls[i])
  }

  /** The exported callees of the bodies in `done`. */
  ghost function Callees(fs: Funs, norm: Name -> Name, done: set<Name>): set<Name> {
    set a, i | a in done && a in fs && 0 <= i < |fs[a].calls| && CallsExported(fs, a, fs[a].calls[i])
      :: norm(fs[a].calls[i])
  }

  lemma CalleesOfOne(fs: Funs, norm: Name -> Name, done: set<Name>, n: Name)
    requires n in fs
    ensures Callees(fs, norm, done + {n}) == Callees(fs, norm, done) + CalleesUpTo(fs, norm, n, |fs[n].calls|)
  {
  }

  lemma CalleesOfBoth(fs: Funs, norm: Name -> Name, d: set<Name>, e: set<Name>)
    ensures Callees(fs, norm, d + e) == Callees(fs, norm, d) + Callees(fs, norm, e)
  {
  }

  lemma CalleesNext(fs: Funs, norm: Name -> Name, n: Name, k: nat)
    requires n in fs && k < |fs[n].calls|
    ensures var c := fs[n].calls[k];
            CalleesUpTo(fs, norm, n, k + 1)
            == CalleesUpTo(fs, norm, n, k) + if c in fs && fs[c].exported then {norm(c)} else {}
  {
  }

  lemma WalkedBoth(fs: Funs, v: set<Name>, w: set<Name>, d: set<Name>, e: set<Name>)
    requires Walked(fs, v, d) && v <= w && Walked(fs, w, e)
    ensures Walked(fs, w, d + e)
  {
    forall n | n in d + e ensures n in fs && EntersDone(fs, w, n, |fs[n].calls|) {
      assert n in d ==> EntersDone(fs, v, n, |fs[n].calls|);
    }
  }

  /** What a walk from `seen` to `visited` has found. */
  ghost predicate WalkFound(fs: Funs, norm: Name -> Name, anchor: Name, seen: set<Name>, visited: set<Name>,
                            before: set<Name>, found: set<Name>) {
    seen <= visited && Walked(fs, visited, visited - seen) &&
    found == before + Callees(fs, norm, visited - seen) &&
    forall v :: v in visited - seen ==> Reached(fs, norm, anchor, v)
  }

  /** The body of `n` inspected up to its `k`th call, the bodies in `done` walked from there. */
  ghost predicate Inspecting(fs: Funs, norm: Name -> Name, anchor: Name, n: Name, k: nat, seen: set<Name>,
                             visited: set<Name>, done: set<Name>, before: set<Name>, found: set<Name>) {
    n in fs && k <= |fs[n].calls| && Reached(fs, norm, anchor, n) &&
    visited == seen + {n} + done && done !! seen + {n} &&
    Walked(fs, visited, done) && EntersDone(fs, visited, n, k) &&
    found == before + Callees(fs, norm, done) + CalleesUpTo(fs, norm, n, k) &&
    forall v :: v in done ==> Reached(fs, norm, anchor, v)
  }

  lemma InspectCall(fs: Funs, norm: Name -> Name, anchor: Name, n: Name, k: nat, seen: set<Name>,
                    visited: set<Name>, done: set<Name>, before: set<Name>, found: set<Name>)
    requires Inspecting(fs, norm, anchor, n, k, seen, visited, done, before, found) && k < |fs[n].calls|
    requires fs[n].calls[k] in fs ==> fs[fs[n].calls[k]].exported
    ensures var c := fs[n].calls[k];
            Inspecting(fs, norm, anchor, n, k + 1, seen, visited, done, before,
                       if c in fs then found + {norm(c)} else found)
  {
    CalleesNext(fs, norm, n, k);
  }

  lemma InspectEntered(fs: Funs, norm: Name -> Name, anchor: Name, n: Name, k: nat, seen: set<Name>,
                       was: set<Name>, visited: set<Name>, done: set<Name>,
                       before: set<Name>, had: set<Name>, found: set<Name>)
    requires Inspecting(fs, norm, anchor, n, k, seen, was, done, before, had) && k < |fs[n].calls|
    requires WalkFound(fs, norm, anchor, was, visited, had, found) && fs[n].calls[k] in visited
    requires fs[n].calls[k] in fs && !fs[fs[n].calls[k]].exported
    ensures Inspecting(fs, norm, anchor, n, k + 1, seen, visited, done + (visited - was), before, found)
  {
    CalleesNext(fs, norm, n, k);
    WalkedBoth(fs, was, visited, done, visited - was);
    CalleesOfBoth(fs, norm, done, visited - was);
  }

  lemma InspectedAll(fs: Funs, norm: Name -> Name, anchor: Name, n: Name, seen: set<Name>,
                     visited: set<Name>, done: set<Name>, before: set<Name>, found: set<Name>)
    requires n in fs && n !in seen
    requires Inspecting(fs, norm, anchor, n, |fs[n].calls|, seen, visited, done, before, found)
    ensures WalkFound(fs, norm, anchor, seen, visited, before, found)
  {
    CalleesOfOne(fs, norm, done, n);
    assert visited - seen == done + {n};
  }

  /** The recursive walk: it ends because every body entered is visited first. */
  method Walk(fs: Funs, norm: Name -> Name, ghost anchor: Name, n: Name, seen: set<Name>, before: seq<Name>)
      returns (visited: set<Name>, calls: seq<Name>)
    requires n in fs && Reached(fs, norm, anchor, n)
    ensures n in visited && WalkFound(fs, norm, anchor, seen, visited, Members(before), Members(calls))
    decreases fs.Keys - seen
  {
    visited, calls := seen, before;
    if n in seen {
      return;
    }
    visited := visited + {n};
    ghost var done: set<Name> := {};
    for k := 0 to |fs[n].calls|
      invariant Inspecting(fs, norm, anchor, n, k, seen, visited, done, Members(before), Members(calls))
    {
      var c := fs[n].calls[k];
      if c in fs && !fs[c].exported {
        ghost var was, had := visited, Members(calls);
        ReachedNext(fs, norm, anchor, n, c);
        visited, calls := Walk(fs, norm, anchor, c, visited, calls);
        InspectEntered(fs, norm, anchor, n, k, seen, was, visited, done, Members(before), had, Members(calls));
        done := done + (visited - was);
      } else {
        InspectCall(fs, norm, anchor, n, k, seen, visited, done, Members(before), Members(calls));
        if c in fs {
          MembersSnoc(calls, norm(c));
          calls := calls + [norm(c)];
        }
      }
    }
    InspectedAll(fs, norm, anchor, n, seen, visited, done, Members(before), Members(calls));
  }

  lemma WalkFoundBoth(fs: Funs, norm: Name -> Name, anchor: Name, u: set<Name>, v: set<Name>, w: set<Name>,
                      a: set<Name>, b: set<Name>, c: set<Name>)
    requires WalkFound(fs, norm, anchor, u, v, a, b) && WalkFound(fs, norm, anchor, v, w, b, c)
    ensures WalkFound(fs, norm, anchor, u, w, a, c)
  {
    WalkedBoth(fs, v, w, v - u, w - v);
    CalleesOfBoth(fs, norm, v - u, w - v);
    assert w - u == (v - u) + (w - v);
  }

  /** Walked from every anchor, the visited bodies are exactly the reached ones. */
  lemma VisitedAreReached(fs: Funs, norm: Name -> Name, anchor: Name, visited: set<Name>,
                          before: set<Name>, found: set<Name>)
    requires WalkFound(fs, norm, anchor, {}, visited, before, found)
    requires forall n :: IsAnchor(fs, norm, anchor, n) ==> n in visited
    ensures forall n :: n in visited <==> Reached(fs, norm, anchor, n)
  {
    assert visited - {} == visited;
    forall a, b | a in visited && Enters(fs, a, b) ensures b in visited {
      assert EntersDone(fs, visited, a, |fs[a].calls|);
      var i :| 0 <= i < |fs[a].calls| && fs[a].calls[i] == b;
    }
    forall n | Reached(fs, norm, anchor, n) ensures n in visited {
      var p :| Path(fs, norm, anchor, p) && p[|p| - 1] == n;
      ClosedHoldsPath(fs, norm, anchor, visited, p, |p| - 1);
    }
  }

  lemma CalleesAre(fs: Funs, norm: Name -> Name, done: set<Name>, x: Name)
    ensures x in Callees(fs, norm, done) <==> exists a, b :: a in done && CallsExported(fs, a, b) && x == norm(b)
  {
    if a, b :| a in done && CallsExported(fs, a, b) && x == norm(b) {
      var i :| 0 <= i < |fs[a].calls| && fs[a].calls[i] == b;
    }
  }

  /** What `exportedCallees` is for. */
  ghost predicate IsAnswer(fs: Funs, norm: Name -> Name, anchor: Name, found: set<Name>) {
    forall x :: x in found <==>
      exists a, b :: Reached(fs, norm, anchor, a) && CallsExported(fs, a, b) && x == norm(b)
  }

  lemma WalkedFromAnchors(fs: Funs, norm: Name -> Name, anchor: Name, visited: set<Name>, found: set<Name>)
    requires WalkFound(fs, norm, anchor, {}, visited, {}, found)
    requires forall n :: IsAnchor(fs, norm, anchor, n) ==> n in visited
    ensures IsAnswer(fs, norm, anchor, found)
  {
    VisitedAreReached(fs, norm, anchor, visited, {}, found);
    assert visited - {} == visited;
    forall x: Name ensures x in found <==>
      exists a, b :: Reached(fs, norm, anchor, a) && CallsExported(fs, a, b) && x == norm(b)
    {
      CalleesAre(fs, norm, visited, x);
    }
  }

  /**
   * The functions are taken in any order, as a map gives them. The answer is exactly the exported
   * functions, normalized, that are called from a body reached from an anchor through unexported
   * ones, each once and in order.
   */
  method ExportedCalleesOf(fs: Funs, norm: Name -> Name, anchor: Name) returns (found: seq<Name>)
    ensures Rising(found) && IsAnswer(fs, norm, anchor, Members(found))
  {
    var visited: set<Name>, calls: seq<Name> := {}, [];
    var left := fs.Keys;
    while left != {}
      invariant left <= fs.Keys
      invariant WalkFound(fs, norm, anchor, {}, visited, {}, Members(calls))
      invariant forall n :: IsAnchor(fs, norm, anchor, n) && n !in left ==> n in visited
    {
      var n :| n in left;
      left := left - {n};
      if fs[n].exported && norm(n) == norm(anchor) {
        ghost var was, had := visited, Members(calls);
        ReachedAnchor(fs, norm, anchor, n);
        visited, calls := Walk(fs, norm, anchor, n, visited, calls);
        WalkFoundBoth(fs, norm, anchor, {}, was, visited, {}, had, Members(calls));
      }
    }
    WalkedFromAnchors(fs, norm, anchor, visited, Members(calls));
    SortCompactRises(calls);
    found := SortCompact(calls);
  }

  /** Whatever order the functions are taken in, the answer is the same list. */
  lemma AnswerIsDetermined(fs: Funs, norm: Name -> Name, anchor: Name, found: seq<Name>, other: seq<Name>)
    requires Rising(found) && Rising(other)
    requires IsAnswer(fs, norm, anchor, Members(found)) && IsAnswer(fs, norm, anchor, Members(other))
    ensures found == other
  {
    RisingIsDetermined(found, other);
  }
}
