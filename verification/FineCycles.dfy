/** `resolveFineCycles`: derived edges are dropped, cycle by cycle, until the rest can be ordered. */
module FineCycles {
  import opened Options
  import opened TopoNodes

  /** A derived edge; a weak one rests on a baseline fallback rather than on declarations. */
  datatype FineEdge = FineEdge(writer: nat, reader: nat, weak: bool)

  /** What `TopoNodes` sees of the edges. */
  function Plain(es: seq<FineEdge>): (ps: seq<Edge>)
    ensures |ps| == |es|
    ensures forall k :: 0 <= k < |es| ==> ps[k] == Edge(es[k].writer, es[k].reader, false)
  {
    seq(|es|, k requires 0 <= k < |es| => Edge(es[k].writer, es[k].reader, false))
  }

  /** Edges join two different ones of the `n` nodes. */
  ghost predicate Sound(es: seq<FineEdge>, n: nat) {
    forall k :: 0 <= k < |es| ==> es[k].writer < n && es[k].reader < n && es[k].writer != es[k].reader
  }

  // ----- cycles -----

  /** Each edge starts where the one before it ends. */
  ghost predicate Linked(c: seq<FineEdge>) {
    forall i :: 0 < i < |c| ==> c[i - 1].reader == c[i].writer
  }

  ghost predicate Closed(c: seq<FineEdge>) {
    c != [] && Linked(c) && c[|c| - 1].reader == c[0].writer
  }

  /** The edges with these indices. */
  function Pick(es: seq<FineEdge>, c: seq<nat>): (r: seq<FineEdge>)
    requires forall i :: 0 <= i < |c| ==> c[i] < |es|
    ensures |r| == |c| && forall i :: 0 <= i < |c| ==> r[i] == es[c[i]]
  {
    seq(|c|, i requires 0 <= i < |c| => es[c[i]])
  }

  ghost predicate IsCycle(es: seq<FineEdge>, c: seq<nat>) {
    Distinct(c) && (forall i :: 0 <= i < |c| ==> c[i] < |es|) && Closed(Pick(es, c))
  }

  lemma {:induction false} RankClimbs(c: seq<FineEdge>, rank: nat -> nat, i: nat)
    requires Linked(c) && i < |c| && forall k :: 0 <= k < |c| ==> rank(c[k].writer) < rank(c[k].reader)
    ensures rank(c[0].writer) < rank(c[i].reader)
  {
    if i > 0 {
      RankClimbs(c, rank, i - 1);
    }
  }

  /** A cycle cannot be ranked. */
  lemma CycleIsNotAcyclic(es: seq<FineEdge>, c: seq<nat>)
    requires IsCycle(es, c)
    ensures !Acyclic(Plain(es))
  {
    forall rank: nat -> nat ensures !RankedBy(Plain(es), rank) {
      var p := Pick(es, c);
      if forall k :: 0 <= k < |p| ==> rank(p[k].writer) < rank(p[k].reader) {
        RankClimbs(p, rank, |p| - 1);
      } else {
        var k :| 0 <= k < |p| && !(rank(p[k].writer) < rank(p[k].reader));
        assert Plain(es)[c[k]] == Edge(p[k].writer, p[k].reader, false);
      }
    }
  }

  // ----- the search -----

  /** The finished nodes: each once, after everything it points to. */
  ghost predicate Finished(es: seq<FineEdge>, n: nat, fin: seq<nat>) {
    Distinct(fin) && (forall i :: 0 <= i < |fin| ==> fin[i] < n) &&
    forall i, k :: 0 <= i < |fin| && 0 <= k < |es| && es[k].writer == fin[i] ==> es[k].reader in fin[..i]
  }

  function IndexOf(s: seq<nat>, x: nat): (i: nat)
    requires x in s
    ensures i < |s| && s[i] == x
  {
    if s[0] == x then 0 else IndexOf(s[1..], x) + 1
  }

  /** When every node is finished, finishing order turned round ranks the edges. */
  lemma FinishedIsAcyclic(es: seq<FineEdge>, n: nat, fin: seq<nat>)
    requires Sound(es, n) && Finished(es, n, fin) && forall x: nat :: x < n ==> x in fin
    ensures Acyclic(Plain(es))
  {
    var rank: nat -> nat := x => if x in fin then |fin| - IndexOf(fin, x) else 0;
    forall k | 0 <= k < |es| ensures rank(Plain(es)[k].writer) < rank(Plain(es)[k].reader) {
      var i := IndexOf(fin, es[k].writer);
      var j :| 0 <= j < i && fin[j] == es[k].reader;
    }
    assert RankedBy(Plain(es), rank);
  }

  /** The edges walked to reach `n`: linked, from distinct grey nodes, the last one into `n`. */
  ghost predicate StackTo(es: seq<FineEdge>, stack: seq<nat>, grey: set<nat>, n: nat) {
    Distinct(stack) && (forall i :: 0 <= i < |stack| ==> stack[i] < |es|) &&
    (forall i :: 0 < i < |stack| ==> es[stack[i - 1]].reader == es[stack[i]].writer) &&
    (stack != [] ==> es[stack[|stack| - 1]].reader == n) &&
    (forall x :: x in grey <==> exists i :: 0 <= i < |stack| && es[stack[i]].writer == x)
  }

  lemma Push(es: seq<FineEdge>, stack: seq<nat>, grey: set<nat>, n: nat, k: nat)
    requires StackTo(es, stack, grey, n) && n !in grey && k < |es| && es[k].writer == n
    ensures StackTo(es, stack + [k], grey + {n}, es[k].reader)
  {
    var t := stack + [k];
    assert forall i :: 0 <= i < |stack| ==> t[i] == stack[i];
    forall x | x in grey + {n} ensures exists i :: 0 <= i < |t| && es[t[i]].writer == x {
      if x == n {
        assert es[t[|stack|]].writer == x;
      } else {
        var i :| 0 <= i < |stack| && es[stack[i]].writer == x;
        assert es[t[i]].writer == x;
      }
    }
  }

  lemma BackIntoStack(es: seq<FineEdge>, stack: seq<nat>, grey: set<nat>, n: nat, k: nat, i: nat)
    requires StackTo(es, stack, grey, n) && n !in grey && k < |es| && es[k].writer == n
    requires i < |stack| && es[stack[i]].writer == es[k].reader
    ensures IsCycle(es, stack[i..] + [k])
  {
    var c := stack[i..] + [k];
    assert forall j :: 0 <= j < |c| - 1 ==> c[j] == stack[i + j];
    var p := Pick(es, c);
    forall j | 0 < j < |p| ensures p[j - 1].reader == p[j].writer {
      if j < |p| - 1 {
        assert c[j - 1] == stack[i + j - 1] && c[j] == stack[i + j];
      }
    }
  }

  /** The readers of the first `k` edges out of `x` are finished. */
  ghost predicate OutDone(es: seq<FineEdge>, fin: seq<nat>, x: nat, k: nat) {
    k <= |es| && forall j :: 0 <= j < k && es[j].writer == x ==> es[j].reader in fin
  }

  lemma Finish(es: seq<FineEdge>, n: nat, fin: seq<nat>, x: nat)
    requires Finished(es, n, fin) && x < n && x !in fin && OutDone(es, fin, x, |es|)
    ensures Finished(es, n, fin + [x])
  {
    var t := fin + [x];
    forall i, k | 0 <= i < |t| && 0 <= k < |es| && es[k].writer == t[i] ensures es[k].reader in t[..i] {
      if i < |fin| {
        assert es[k].reader in fin[..i] && t[..i] == fin[..i];
      } else {
        assert t[..i] == fin;
      }
    }
  }

  ghost predicate Apart(grey: set<nat>, fin: seq<nat>) {
    forall x :: x in grey ==> x !in fin
  }

  /** Where the walk came through the grey node `x`. */
  method StackIndex(es: seq<FineEdge>, stack: seq<nat>, ghost grey: set<nat>, ghost n: nat, x: nat) returns (i: nat)
    requires StackTo(es, stack, grey, n) && x in grey
    ensures i < |stack| && es[stack[i]].writer == x
  {
    i := 0;
    while es[stack[i]].writer != x
      invariant i < |stack| && forall j :: 0 <= j < i ==> es[stack[j]].writer != x
      decreases |stack| - i
    {
      ghost var j :| 0 <= j < |stack| && es[stack[j]].writer == x;
      i := i + 1;
    }
  }

  /** More nodes are finished than before, none of them grey. */
  ghost predicate Progress(es: seq<FineEdge>, n: nat, grey: set<nat>, before: seq<nat>, fin: seq<nat>) {
    Finished(es, n, fin) && Apart(grey, fin) && forall y :: y in before ==> y in fin
  }

  lemma OneMoreOut(es: seq<FineEdge>, was: seq<nat>, fin: seq<nat>, x: nat, k: nat)
    requires k < |es| && OutDone(es, was, x, k) && (forall y :: y in was ==> y in fin)
    requires es[k].writer == x ==> es[k].reader in fin
    ensures OutDone(es, fin, x, k + 1)
  {
  }

  lemma ProgressOn(es: seq<FineEdge>, n: nat, grey: set<nat>, before: seq<nat>, was: seq<nat>, fin: seq<nat>)
    requires Progress(es, n, grey, before, was) && Progress(es, n, grey, was, fin)
    ensures Progress(es, n, grey, before, fin)
  {
  }

  lemma FinishLast(es: seq<FineEdge>, n: nat, grey: set<nat>, before: seq<nat>, fin: seq<nat>, x: nat)
    requires Progress(es, n, grey + {x}, before, fin) && x < n && x !in grey && OutDone(es, fin, x, |es|)
    ensures Progress(es, n, grey, before, fin + [x])
  {
    assert x in grey + {x};
    Finish(es, n, fin, x);
  }

  lemma GreyGrows(n: nat, grey: set<nat>, x: nat)
    requires x < n && x !in grey
    ensures Below(n) - (grey + {x}) < Below(n) - grey
  {
    SizeOfBelow(n);
    assert x in Below(n) - grey;
  }

  /** The depth-first visit of the white node `x`: a cycle, or `x` and more finished. */
  method Visit(es: seq<FineEdge>, n: nat, x: nat, grey: set<nat>, before: seq<nat>, stack: seq<nat>)
      returns (cycle: Option<seq<nat>>, fin: seq<nat>)
    requires Sound(es, n) && x < n && x !in grey && x !in before
    requires Finished(es, n, before) && Apart(grey, before) && StackTo(es, stack, grey, x)
    ensures cycle != None ==> IsCycle(es, cycle.value)
    ensures cycle == None ==> Progress(es, n, grey, before, fin) && x in fin
    decreases Below(n) - grey
  {
    fin := before;
    cycle := None;
    for k := 0 to |es|
      invariant cycle == None && Progress(es, n, grey + {x}, before, fin) && OutDone(es, fin, x, k)
    {
      ghost var was := fin;
      if es[k].writer == x {
        var m := es[k].reader;
        if m in grey {
          var i := StackIndex(es, stack, grey, x, m);
          BackIntoStack(es, stack, grey, x, k, i);
          return Some(stack[i..] + [k]), fin;
        } else if m !in fin {
          Push(es, stack, grey, x, k);
          GreyGrows(n, grey, x);
          cycle, fin := Visit(es, n, m, grey + {x}, fin, stack + [k]);
          if cycle != None {
            return;
          }
          ProgressOn(es, n, grey + {x}, before, was, fin);
        }
      }
      OneMoreOut(es, was, fin, x, k);
    }
    FinishLast(es, n, grey, before, fin, x);
    fin := fin + [x];
  }

  /** A cycle if there is one, and none only if the edges are acyclic. */
  method FindCycle(es: seq<FineEdge>, n: nat) returns (cycle: Option<seq<nat>>)
    requires Sound(es, n)
    ensures cycle != None ==> IsCycle(es, cycle.value)
    ensures cycle == None <==> Acyclic(Plain(es))
  {
    var fin: seq<nat> := [];
    for x := 0 to n
      invariant Finished(es, n, fin) && forall y: nat :: y < x ==> y in fin
    {
      if x !in fin {
        ghost var was := fin;
        cycle, fin := Visit(es, n, x, {}, fin, []);
        if cycle != None {
          CycleIsNotAcyclic(es, cycle.value);
          return;
        }
      }
    }
    FinishedIsAcyclic(es, n, fin);
    cycle := None;
  }

  // ----- which edge yields -----

  /** The edge points against the order of the nodes' keys. */
  predicate Against(e: FineEdge, key: nat -> nat) {
    key(e.writer) >= key(e.reader)
  }

  /** `e` has the greater pair of keys, writer first. */
  predicate Above(e: FineEdge, f: FineEdge, key: nat -> nat) {
    key(e.writer) > key(f.writer) || (key(e.writer) == key(f.writer) && key(e.reader) > key(f.reader))
  }

  /** The keys cannot rise all the way round. */
  lemma SomeEdgeAgainst(c: seq<FineEdge>, key: nat -> nat)
    requires Closed(c)
    ensures exists i :: 0 <= i < |c| && Against(c[i], key)
  {
    if forall k :: 0 <= k < |c| ==> key(c[k].writer) < key(c[k].reader) {
      RankClimbs(c, key, |c| - 1);
    }
  }

  ghost predicate Greatest(es: seq<FineEdge>, c: seq<nat>, key: nat -> nat, best: nat)
    requires forall i :: 0 <= i < |c| ==> c[i] < |es|
  {
    best < |es| && Against(es[best], key) &&
    forall i :: 0 <= i < |c| && Against(es[c[i]], key) ==> !Above(es[c[i]], es[best], key)
  }

  /** Of the edges of a cycle that point against the order, the one with the greatest keys. */
  method CycleBackEdge(es: seq<FineEdge>, c: seq<nat>, key: nat -> nat) returns (best: nat)
    requires IsCycle(es, c)
    ensures best in c && Greatest(es, c, key, best)
  {
    best := c[0];
    var found := false;
    for i := 0 to |c|
      invariant best in c && best < |es| && (found ==> Against(es[best], key))
      invariant forall j :: 0 <= j < i && Against(es[c[j]], key) ==> found && !Above(es[c[j]], es[best], key)
    {
      var e := es[c[i]];
      if key(e.writer) < key(e.reader) {
        continue;
      }
      var f := es[best];
      var above := if key(e.writer) != key(f.writer) then key(e.writer) > key(f.writer)
                   else key(e.reader) > key(f.reader);
      if !found || above {
        best, found := c[i], true;
      }
    }
    SomeEdgeAgainst(Pick(es, c), key);
  }

  // ----- dropping -----

  datatype Reason = WeakSide | CycleBroken

  datatype Dropped = Dropped(edge: FineEdge, reason: Reason)

  function EdgesOf(ds: seq<Dropped>): (es: seq<FineEdge>)
    ensures |es| == |ds|
  {
    if ds == [] then [] else EdgesOf(ds[..|ds| - 1]) + [ds[|ds| - 1].edge]
  }

  lemma EdgesOfSnoc(ds: seq<Dropped>, d: Dropped)
    ensures EdgesOf(ds + [d]) == EdgesOf(ds) + [d.edge]
  {
    assert (ds + [d])[..|ds|] == ds;
  }

  lemma {:induction false} EdgesOfConcat(a: seq<Dropped>, b: seq<Dropped>)
    ensures EdgesOf(a + b) == EdgesOf(a) + EdgesOf(b)
  {
    if b == [] {
      assert a + b == a;
    } else {
      EdgesOfConcat(a, b[..|b| - 1]);
      assert (a + b)[..|a + b| - 1] == a + b[..|b| - 1];
    }
  }

  /** What stays of the edges from `k` on. */
  function Rest(es: seq<FineEdge>, drop: set<nat>, k: nat): seq<FineEdge>
    requires k <= |es|
    decreases |es| - k
  {
    if k == |es| then []
    else (if k in drop then [] else [es[k]]) + Rest(es, drop, k + 1)
  }

  /** What is dropped of the edges from `k` on, the last first. */
  function DroppedFrom(es: seq<FineEdge>, drop: set<nat>, reason: Reason, k: nat): seq<Dropped>
    requires k <= |es|
    decreases |es| - k
  {
    if k == |es| then []
    else DroppedFrom(es, drop, reason, k + 1) + if k in drop then [Dropped(es[k], reason)] else []
  }

  /** Edge `e` goes to one side or the other. */
  lemma OnEitherSide(e: FineEdge, stay: seq<FineEdge>, go: seq<FineEdge>)
    ensures multiset([e] + stay) + multiset(go) == multiset{e} + (multiset(stay) + multiset(go))
    ensures multiset(stay) + multiset(go + [e]) == multiset{e} + (multiset(stay) + multiset(go))
  {
  }

  lemma {:induction false} DropConserves(es: seq<FineEdge>, drop: set<nat>, reason: Reason, k: nat)
    requires k <= |es|
    ensures multiset(Rest(es, drop, k)) + multiset(EdgesOf(DroppedFrom(es, drop, reason, k))) == multiset(es[k..])
    decreases |es| - k
  {
    if k < |es| {
      var stay, out := Rest(es, drop, k + 1), DroppedFrom(es, drop, reason, k + 1);
      DropConserves(es, drop, reason, k + 1);
      OnEitherSide(es[k], stay, EdgesOf(out));
      TailCount(es, k);
      if k in drop {
        EdgesOfSnoc(out, Dropped(es[k], reason));
        assert Rest(es, drop, k) == stay;
      } else {
        assert DroppedFrom(es, drop, reason, k) == out;
      }
    } else {
      assert es[k..] == [];
    }
  }

  lemma TailCount(es: seq<FineEdge>, k: nat)
    requires k < |es|
    ensures multiset(es[k..]) == multiset{es[k]} + multiset(es[k + 1..])
  {
    assert es[k..] == [es[k]] + es[k + 1..];
  }

  lemma RestLength(es: seq<FineEdge>, drop: set<nat>, k: nat)
    requires k < |es|
    ensures |Rest(es, drop, k)| == |Rest(es, drop, k + 1)| + if k in drop then 0 else 1
  {
  }

  lemma {:induction false} DropShrinks(es: seq<FineEdge>, drop: set<nat>, k: nat, j: nat)
    requires k <= |es|
    ensures |Rest(es, drop, k)| <= |es| - k
    ensures j in drop && k <= j < |es| ==> |Rest(es, drop, k)| < |es| - k
    decreases |es| - k
  {
    if k < |es| {
      RestLength(es, drop, k);
      DropShrinks(es, drop, k + 1, j);
    }
  }

  ghost predicate Picked(es: seq<FineEdge>, drop: set<nat>, reason: Reason, d: Dropped) {
    d.reason == reason && exists k :: k in drop && k < |es| && d.edge == es[k]
  }

  lemma {:induction false} DroppedArePicked(es: seq<FineEdge>, drop: set<nat>, reason: Reason, k: nat)
    requires k <= |es|
    ensures forall d :: d in DroppedFrom(es, drop, reason, k) ==> Picked(es, drop, reason, d)
    decreases |es| - k
  {
    if k < |es| {
      DroppedArePicked(es, drop, reason, k + 1);
    }
  }

  /** The chosen indices from `k` on. */
  function From(drop: set<nat>, k: nat): set<nat> {
    set j | j in drop && j >= k
  }

  lemma {:induction false} AllPickedAreDropped(es: seq<FineEdge>, drop: set<nat>, reason: Reason, k: nat)
    requires k <= |es| && forall j :: j in drop ==> j < |es|
    ensures |DroppedFrom(es, drop, reason, k)| == |From(drop, k)|
    ensures forall j :: j in From(drop, k) ==> Dropped(es[j], reason) in DroppedFrom(es, drop, reason, k)
    decreases |es| - k
  {
    if k == |es| {
      assert From(drop, k) == {};
    } else {
      AllPickedAreDropped(es, drop, reason, k + 1);
      if k in drop {
        assert From(drop, k) == From(drop, k + 1) + {k};
      } else {
        assert From(drop, k) == From(drop, k + 1);
      }
    }
  }

  lemma PartOf(a: seq<FineEdge>, b: seq<FineEdge>, all: seq<FineEdge>)
    requires multiset(a) + multiset(b) == multiset(all)
    ensures forall e :: e in a ==> e in all
  {
    forall e | e in a ensures e in all {
      assert e in multiset(a);
      assert e in multiset(all);
    }
  }

  /** The edges at the indices in `drop` are taken out, from the last to the first; nothing is lost. */
  method DropEdges(es: seq<FineEdge>, drop: set<nat>, reason: Reason) returns (kept: seq<FineEdge>, out: seq<Dropped>)
    requires drop != {} && forall k :: k in drop ==> k < |es|
    ensures multiset(kept) + multiset(EdgesOf(out)) == multiset(es) && |kept| < |es|
    ensures (forall e :: e in kept ==> e in es) && forall d :: d in out ==> Picked(es, drop, reason, d)
    ensures |out| == |drop| && forall k :: k in drop ==> Dropped(es[k], reason) in out
  {
    kept, out := es, [];
    for k := |es| downto 0
      invariant kept == es[..k] + Rest(es, drop, k) && out == DroppedFrom(es, drop, reason, k)
    {
      if k in drop {
        out := out + [Dropped(kept[k], reason)];
        kept := kept[..k] + kept[k + 1..];
      }
    }
    assert es[0..] == es && kept == Rest(es, drop, 0);
    var j :| j in drop;
    DropConserves(es, drop, reason, 0);
    DropShrinks(es, drop, 0, j);
    PartOf(kept, EdgesOf(out), es);
    DroppedArePicked(es, drop, reason, 0);
    AllPickedAreDropped(es, drop, reason, 0);
    assert From(drop, 0) == drop;
  }

  // ----- until none is left -----

  ghost predicate CycleThrough(all: seq<FineEdge>, e: FineEdge, strong: bool, c: seq<FineEdge>) {
    Closed(c) && e in c && forall i :: 0 <= i < |c| ==> c[i] in all && (strong ==> !c[i].weak)
  }

  /** `e` lies on a cycle of edges of `all`, of strong ones only where `strong` is set. */
  ghost predicate OnCycle(all: seq<FineEdge>, e: FineEdge, strong: bool) {
    exists c: seq<FineEdge> :: CycleThrough(all, e, strong, c)
  }

  /** A weak edge goes for being weak on a cycle; a strong one only from a cycle of strong ones, and
      against the order. */
  ghost predicate Justified(all: seq<FineEdge>, key: nat -> nat, d: Dropped) {
    match d.reason
    case WeakSide => d.edge.weak && OnCycle(all, d.edge, false)
    case CycleBroken => !d.edge.weak && OnCycle(all, d.edge, true) && Against(d.edge, key)
  }

  /** The edges one cycle gives up, and why. */
  method Yielding(es: seq<FineEdge>, c: seq<nat>, key: nat -> nat) returns (drop: set<nat>, reason: Reason)
    requires IsCycle(es, c)
    ensures drop != {} && forall k :: k in drop ==> k < |es| && k in c
    ensures reason == WeakSide ==> forall i :: 0 <= i < |c| ==> (c[i] in drop <==> es[c[i]].weak)
    ensures reason == CycleBroken ==> forall i :: 0 <= i < |c| ==> !es[c[i]].weak
    ensures reason == CycleBroken ==> |drop| == 1 && forall k :: k in drop ==> Greatest(es, c, key, k)
  {
    drop := {};
    for i := 0 to |c|
      invariant forall k :: k in drop ==> k < |es| && k in c && es[k].weak
      invariant forall j :: 0 <= j < i && es[c[j]].weak ==> c[j] in drop
    {
      if es[c[i]].weak {
        drop := drop + {c[i]};
      }
    }
    reason := WeakSide;
    if drop == {} {
      var best := CycleBackEdge(es, c, key);
      drop, reason := {best}, CycleBroken;
    }
  }

  lemma YieldIsSound(es: seq<FineEdge>, c: seq<nat>, key: nat -> nat, drop: set<nat>, reason: Reason)
    requires IsCycle(es, c) && forall k :: k in drop ==> k < |es| && k in c
    requires reason == WeakSide ==> forall i :: 0 <= i < |c| ==> (c[i] in drop <==> es[c[i]].weak)
    requires reason == CycleBroken ==> forall k :: k in drop ==> Greatest(es, c, key, k)
    ensures reason == WeakSide ==> forall k :: k in drop ==> es[k].weak
    ensures reason == CycleBroken ==> forall k :: k in drop ==> Against(es[k], key)
  {
    forall k | k in drop && reason == WeakSide ensures es[k].weak {
      var i :| 0 <= i < |c| && c[i] == k;
    }
  }

  lemma CycleJustifies(all: seq<FineEdge>, key: nat -> nat, es: seq<FineEdge>, c: seq<nat>, drop: set<nat>,
                       reason: Reason, d: Dropped)
    requires IsCycle(es, c) && (forall e :: e in es ==> e in all) && Picked(es, drop, reason, d)
    requires forall k :: k in drop ==> k < |es| && k in c
    requires reason == WeakSide ==> forall k :: k in drop ==> es[k].weak
    requires reason == CycleBroken ==> forall k :: k in drop ==> Against(es[k], key)
    requires reason == CycleBroken ==> forall i :: 0 <= i < |c| ==> !es[c[i]].weak
    ensures Justified(all, key, d)
  {
    var k :| k in drop && k < |es| && d.edge == es[k];
    var i :| 0 <= i < |c| && c[i] == k;
    var p := Pick(es, c);
    assert p[i] == d.edge;
    assert CycleThrough(all, d.edge, reason == CycleBroken, p);
  }

  lemma SoundPart(es: seq<FineEdge>, all: seq<FineEdge>, n: nat)
    requires Sound(all, n) && forall e :: e in es ==> e in all
    ensures Sound(es, n)
  {
    forall k | 0 <= k < |es| ensures es[k].writer < n && es[k].reader < n && es[k].writer != es[k].reader {
      assert es[k] in all;
    }
  }

  /**
   * What is kept can be ordered; kept and dropped together are the edges there were; and each
   * dropped edge has its reason.
   */
  method Resolve(all: seq<FineEdge>, n: nat, key: nat -> nat) returns (kept: seq<FineEdge>, dropped: seq<Dropped>)
    requires Sound(all, n)
    ensures Acyclic(Plain(kept))
    ensures multiset(kept) + multiset(EdgesOf(dropped)) == multiset(all)
    ensures forall d :: d in dropped ==> Justified(all, key, d)
  {
    kept, dropped := all, [];
    while true
      invariant (forall e :: e in kept ==> e in all)
      invariant multiset(kept) + multiset(EdgesOf(dropped)) == multiset(all)
      invariant forall d :: d in dropped ==> Justified(all, key, d)
      decreases |kept|
    {
      SoundPart(kept, all, n);
      var cycle := FindCycle(kept, n);
      if cycle == None {
        return;
      }
      var drop, reason := Yielding(kept, cycle.value, key);
      var rest, out := DropEdges(kept, drop, reason);
      forall d | d in out ensures Justified(all, key, d) {
        YieldIsSound(kept, cycle.value, key, drop, reason);
      CycleJustifies(all, key, kept, cycle.value, drop, reason, d);
      }
      EdgesOfConcat(dropped, out);
      kept, dropped := rest, dropped + out;
    }
  }

  lemma OnCycleIsNotAcyclic(all: seq<FineEdge>, e: FineEdge)
    requires OnCycle(all, e, false)
    ensures !Acyclic(Plain(all))
  {
    var c: seq<FineEdge> :| CycleThrough(all, e, false, c);
    forall rank: nat -> nat ensures !RankedBy(Plain(all), rank) {
      if forall k :: 0 <= k < |c| ==> rank(c[k].writer) < rank(c[k].reader) {
        RankClimbs(c, rank, |c| - 1);
      } else {
        var k :| 0 <= k < |c| && !(rank(c[k].writer) < rank(c[k].reader));
        var j :| 0 <= j < |all| && all[j] == c[k];
        assert Plain(all)[j] == Edge(c[k].writer, c[k].reader, false);
      }
    }
  }

  /** Edges that can be ordered as they are lose nothing. */
  lemma AcyclicLosesNothing(all: seq<FineEdge>, key: nat -> nat, d: Dropped)
    requires Justified(all, key, d)
    ensures !Acyclic(Plain(all))
  {
    var c: seq<FineEdge> :| CycleThrough(all, d.edge, d.reason == CycleBroken, c);
    assert CycleThrough(all, d.edge, false, c);
    OnCycleIsNotAcyclic(all, d.edge);
  }

  /** Scheduling marks some kept edges ordered afterwards; that leaves them acyclic. */
  lemma MarkingKeepsAcyclic(kept: seq<FineEdge>, edges: seq<Edge>)
    requires Acyclic(Plain(kept)) && |edges| == |kept|
    requires forall k :: 0 <= k < |kept| ==> edges[k].writer == kept[k].writer && edges[k].reader == kept[k].reader
    ensures Acyclic(edges)
  {
    var rank: nat -> nat :| RankedBy(Plain(kept), rank);
    forall k | 0 <= k < |edges| ensures rank(edges[k].writer) < rank(edges[k].reader) {
      assert Plain(kept)[k].writer == edges[k].writer;
    }
    assert RankedBy(edges, rank);
  }
}
