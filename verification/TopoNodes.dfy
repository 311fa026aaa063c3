/** `DerivedOrder.TopoNodes`: Kahn's walk over the derived writer-before-reader edges. */
module TopoNodes {

  datatype Edge = Edge(writer: nat, reader: nat, ordered: bool)

  /** Every edge joins two of the `n` nodes. */
  ghost predicate InRange(edges: seq<Edge>, n: nat) {
    forall k :: 0 <= k < |edges| ==> edges[k].writer < n && edges[k].reader < n
  }

  /** The edges can be ranked, which is what cycle resolution leaves behind. */
  ghost predicate RankedBy(edges: seq<Edge>, rank: nat -> nat) {
    forall k :: 0 <= k < |edges| ==> rank(edges[k].writer) < rank(edges[k].reader)
  }

  ghost predicate Acyclic(edges: seq<Edge>) {
    exists rank: nat -> nat :: RankedBy(edges, rank)
  }

  ghost predicate Distinct(s: seq<nat>) {
    forall i, j :: 0 <= i < j < |s| ==> s[i] != s[j]
  }

  /** The reader of an edge comes only after its writer. */
  ghost predicate WritersFirst(edges: seq<Edge>, s: seq<nat>) {
    forall k, i :: 0 <= k < |edges| && 0 <= i < |s| && s[i] == edges[k].reader ==> edges[k].writer in s[..i]
  }

  /** How many edges into `x` still wait for a writer outside `done`. */
  function Pending(edges: seq<Edge>, done: set<nat>, x: nat): nat {
    if edges == [] then 0
    else (if edges[0].reader == x && edges[0].writer !in done then 1 else 0) + Pending(edges[1..], done, x)
  }

  lemma {:induction false} PendingSnoc(edges: seq<Edge>, e: Edge, done: set<nat>, x: nat)
    ensures Pending(edges + [e], done, x)
         == Pending(edges, done, x) + if e.reader == x && e.writer !in done then 1 else 0
  {
    if edges == [] {
      assert edges + [e] == [e] && [e][1..] == [];
    } else {
      assert (edges + [e])[1..] == edges[1..] + [e];
      PendingSnoc(edges[1..], e, done, x);
    }
  }

  /** Nothing pending means that every writer is done. */
  lemma {:induction false} NonePending(edges: seq<Edge>, done: set<nat>, x: nat)
    ensures Pending(edges, done, x) == 0 <==>
            forall k :: 0 <= k < |edges| && edges[k].reader == x ==> edges[k].writer in done
  {
    if edges != [] {
      NonePending(edges[1..], done, x);
      assert forall k :: 0 < k < |edges| ==> edges[k] == edges[1..][k - 1];
    }
  }

  /** What is left of `x`'s in-degree when the edges before `k` have seen `n` done and the rest have not. */
  function Midway(edges: seq<Edge>, done: set<nat>, n: nat, k: nat, x: nat): nat
    requires k <= |edges|
  {
    Pending(edges[..k], done + {n}, x) + Pending(edges[k..], done, x)
  }

  lemma MidwayEnds(edges: seq<Edge>, done: set<nat>, n: nat, x: nat)
    ensures Midway(edges, done, n, 0, x) == Pending(edges, done, x)
    ensures Midway(edges, done, n, |edges|, x) == Pending(edges, done + {n}, x)
  {
    assert edges[..0] == [] && edges[0..] == edges;
    assert edges[..|edges|] == edges && edges[|edges|..] == [];
  }

  lemma MidwayStep(edges: seq<Edge>, done: set<nat>, n: nat, k: nat, x: nat)
    requires k < |edges| && n !in done
    ensures Midway(edges, done, n, k + 1, x)
         == Midway(edges, done, n, k, x) - if edges[k].reader == x && edges[k].writer == n then 1 else 0
  {
    assert edges[..k + 1] == edges[..k] + [edges[k]];
    PendingSnoc(edges[..k], edges[k], done + {n}, x);
    assert edges[k..][0] == edges[k] && edges[k..][1..] == edges[k + 1..];
  }

  function Members(s: seq<nat>): set<nat> {
    set x | x in s
  }

  /** `queue` (what is out, then what is ready) holds, once each, exactly the nodes waiting for nothing. */
  ghost predicate Queued(queue: seq<nat>, indeg: seq<int>) {
    Distinct(queue) &&
    (forall i :: 0 <= i < |queue| ==> queue[i] < |indeg|) &&
    forall x :: 0 <= x < |indeg| ==> (x in queue <==> indeg[x] == 0)
  }

  lemma QueueNext(queue: seq<nat>, indeg: seq<int>, x: nat)
    requires x < |indeg| && Queued(queue, indeg) && indeg[x] >= 1
    ensures Queued(if indeg[x] == 1 then queue + [x] else queue, indeg[x := indeg[x] - 1])
  {
    assert x !in queue;
  }

  lemma {:induction false} NoMoreThanNodes(s: seq<nat>, n: nat)
    requires Distinct(s) && forall i :: 0 <= i < |s| ==> s[i] < n
    ensures |s| <= n
  {
    SizeOfMembers(s);
    SizeOfBelow(n);
    assert Members(s) <= Below(n);
    SubsetNoLarger(Members(s), Below(n));
  }

  lemma {:induction false} SizeOfMembers(s: seq<nat>)
    requires Distinct(s)
    ensures |Members(s)| == |s|
  {
    if s != [] {
      SizeOfMembers(s[1..]);
      assert s == [s[0]] + s[1..];
      assert Members(s) == {s[0]} + Members(s[1..]);
    }
  }

  function Below(n: nat): set<nat> {
    if n == 0 then {} else Below(n - 1) + {n - 1}
  }

  lemma {:induction false} SizeOfBelow(n: nat)
    ensures |Below(n)| == n && forall x: nat :: x in Below(n) <==> x < n
  {
    if n > 0 {
      SizeOfBelow(n - 1);
    }
  }

  lemma {:induction false} SubsetNoLarger(a: set<nat>, b: set<nat>)
    requires a <= b
    ensures |a| <= |b|
  {
    if a != {} {
      var x :| x in a;
      SubsetNoLarger(a - {x}, b - {x});
    }
  }

  /** `indeg` counts what each node still waits for. */
  ghost predicate Counts(indeg: seq<int>, edges: seq<Edge>, done: set<nat>) {
    forall x :: 0 <= x < |indeg| ==> indeg[x] == Pending(edges, done, x)
  }

  /** The same in the middle of releasing the readers of `n`. */
  ghost predicate MidCounts(indeg: seq<int>, edges: seq<Edge>, done: set<nat>, n: nat, k: nat)
    requires k <= |edges|
  {
    forall x :: 0 <= x < |indeg| ==> indeg[x] == Midway(edges, done, n, k, x)
  }

  lemma Start(indeg: seq<int>, edges: seq<Edge>, done: set<nat>, n: nat)
    ensures Counts(indeg, edges, done) <==> MidCounts(indeg, edges, done, n, 0)
    ensures Counts(indeg, edges, done + {n}) <==> MidCounts(indeg, edges, done, n, |edges|)
  {
    forall x | 0 <= x < |indeg| ensures Midway(edges, done, n, 0, x) == Pending(edges, done, x)
                                     && Midway(edges, done, n, |edges|, x) == Pending(edges, done + {n}, x) {
      MidwayEnds(edges, done, n, x);
    }
  }

  lemma Release(indeg: seq<int>, edges: seq<Edge>, done: set<nat>, n: nat, k: nat)
    requires k < |edges| && n !in done && MidCounts(indeg, edges, done, n, k) && edges[k].reader < |indeg|
    ensures edges[k].writer != n ==> MidCounts(indeg, edges, done, n, k + 1)
    ensures edges[k].writer == n ==> indeg[edges[k].reader] >= 1
    ensures edges[k].writer == n ==>
              MidCounts(indeg[edges[k].reader := indeg[edges[k].reader] - 1], edges, done, n, k + 1)
  {
    forall x: nat ensures Midway(edges, done, n, k + 1, x)
        == Midway(edges, done, n, k, x) - if edges[k].reader == x && edges[k].writer == n then 1 else 0 {
      MidwayStep(edges, done, n, k, x);
    }
  }

  lemma FirstCounted(edges: seq<Edge>, k: nat, x: nat)
    requires k < |edges|
    ensures Pending(edges[..k + 1], {}, x) == Pending(edges[..k], {}, x) + if edges[k].reader == x then 1 else 0
  {
    assert edges[..k + 1] == edges[..k] + [edges[k]];
    PendingSnoc(edges[..k], edges[k], {}, x);
  }

  /** The in-degrees before anything is out. */
  method InDegrees(n: nat, edges: seq<Edge>) returns (indeg: array<int>)
    requires InRange(edges, n)
    ensures fresh(indeg) && indeg.Length == n && Counts(indeg[..], edges, {})
  {
    indeg := new int[n](_ => 0);
    for k := 0 to |edges|
      invariant Counts(indeg[..], edges[..k], {})
    {
      forall x: nat ensures Pending(edges[..k + 1], {}, x)
                         == Pending(edges[..k], {}, x) + if edges[k].reader == x then 1 else 0 {
        FirstCounted(edges, k, x);
      }
      indeg[edges[k].reader] := indeg[edges[k].reader] + 1;
    }
    assert edges[..|edges|] == edges;
  }

  lemma PlaceLast(edges: seq<Edge>, out: seq<nat>, m: nat)
    requires WritersFirst(edges, out) && Pending(edges, Members(out), m) == 0
    ensures WritersFirst(edges, out + [m])
  {
    NonePending(edges, Members(out), m);
    forall k, i | 0 <= k < |edges| && 0 <= i < |out + [m]| && (out + [m])[i] == edges[k].reader
      ensures edges[k].writer in (out + [m])[..i]
    {
      if i < |out| {
        assert edges[k].writer in out[..i] && (out + [m])[..i] == out[..i];
      } else {
        assert edges[k].writer in Members(out) && (out + [m])[..i] == out;
      }
    }
  }

  /** Along a ranking, a node left waiting would need an earlier one left waiting. */
  lemma {:induction false} NoneLeftWaiting(edges: seq<Edge>, n: nat, out: seq<nat>, rank: nat -> nat, x: nat)
    requires InRange(edges, n) && RankedBy(edges, rank) && x < n
    requires forall y: nat :: y < n ==> (y in out <==> Pending(edges, Members(out), y) == 0)
    ensures x in out
    decreases rank(x)
  {
    forall k | 0 <= k < |edges| && edges[k].reader == x ensures edges[k].writer in Members(out) {
      NoneLeftWaiting(edges, n, out, rank, edges[k].writer);
    }
    NonePending(edges, Members(out), x);
  }

  method FirstReady(indeg: array<int>) returns (ready: seq<nat>)
    requires forall x :: 0 <= x < indeg.Length ==> indeg[x] >= 0
    ensures Queued(ready, indeg[..])
  {
    ready := [];
    for x := 0 to indeg.Length
      invariant Distinct(ready) && forall i :: 0 <= i < |ready| ==> ready[i] < x
      invariant forall y: nat :: y < x ==> (y in ready <==> indeg[y] == 0)
    {
      if indeg[x] == 0 {
        ready := ready + [x];
      }
    }
  }

  /** The queue and the counts after the edges before `k` have released their readers. */
  ghost predicate MidRelease(queue: seq<nat>, indeg: seq<int>, edges: seq<Edge>, done: set<nat>, m: nat, k: nat) {
    k <= |edges| && Queued(queue, indeg) && MidCounts(indeg, edges, done, m, k)
  }

  lemma ReleaseOne(queue: seq<nat>, indeg: seq<int>, edges: seq<Edge>, done: set<nat>, m: nat, k: nat)
    requires k < |edges| && m !in done && edges[k].reader < |indeg| && MidRelease(queue, indeg, edges, done, m, k)
    ensures edges[k].writer != m ==> MidRelease(queue, indeg, edges, done, m, k + 1)
    ensures edges[k].writer == m ==>
              var r := edges[k].reader;
              MidRelease(if indeg[r] == 1 then queue + [r] else queue, indeg[r := indeg[r] - 1], edges, done, m, k + 1)
  {
    Release(indeg, edges, done, m, k);
    if edges[k].writer == m {
      QueueNext(queue, indeg, edges[k].reader);
    }
  }

  datatype Frontier = Frontier(ready: seq<nat>, indeg: seq<int>)

  /** Edge `e` seen once `m` is out. */
  function ReleaseBy(e: Edge, m: nat, f: Frontier): (g: Frontier)
    requires e.reader < |f.indeg|
    ensures |g.indeg| == |f.indeg|
  {
    if e.writer != m then f
    else
      var left := f.indeg[e.reader] - 1;
      Frontier(if left == 0 then f.ready + [e.reader] else f.ready, f.indeg[e.reader := left])
  }

  /** The readers that the edges from `k` on release once `m` is out. */
  function ReleaseFrom(edges: seq<Edge>, m: nat, k: nat, f: Frontier): Frontier
    requires InRange(edges, |f.indeg|) && k <= |edges|
    decreases |edges| - k
  {
    if k == |edges| then f else ReleaseFrom(edges, m, k + 1, ReleaseBy(edges[k], m, f))
  }

  lemma ReleaseByKeeps(edges: seq<Edge>, done: set<nat>, m: nat, k: nat, out: seq<nat>, f: Frontier)
    requires k < |edges| && m !in done && edges[k].reader < |f.indeg|
    requires MidRelease(out + f.ready, f.indeg, edges, done, m, k)
    ensures var g := ReleaseBy(edges[k], m, f); MidRelease(out + g.ready, g.indeg, edges, done, m, k + 1)
  {
    ReleaseOne(out + f.ready, f.indeg, edges, done, m, k);
    assert out + (f.ready + [edges[k].reader]) == out + f.ready + [edges[k].reader];
  }

  lemma {:induction false} ReleaseFromKeeps(edges: seq<Edge>, done: set<nat>, m: nat, k: nat,
                                            out: seq<nat>, f: Frontier)
    requires InRange(edges, |f.indeg|) && k <= |edges| && m !in done
    requires MidRelease(out + f.ready, f.indeg, edges, done, m, k)
    ensures var g := ReleaseFrom(edges, m, k, f);
            |g.indeg| == |f.indeg| && MidRelease(out + g.ready, g.indeg, edges, done, m, |edges|)
    decreases |edges| - k
  {
    if k < |edges| {
      ReleaseByKeeps(edges, done, m, k, out, f);
      ReleaseFromKeeps(edges, done, m, k + 1, out, ReleaseBy(edges[k], m, f));
    }
  }

  /** Node `m` is out: its readers wait for one writer less, and those left with none become ready. */
  method ReleaseReaders(edges: seq<Edge>, indeg: array<int>, m: nat, waiting: seq<nat>) returns (ready: seq<nat>)
    requires InRange(edges, indeg.Length)
    modifies indeg
    ensures Frontier(ready, indeg[..]) == ReleaseFrom(edges, m, 0, Frontier(waiting, old(indeg[..])))
  {
    ready := waiting;
    for k := 0 to |edges|
      invariant ReleaseFrom(edges, m, k, Frontier(ready, indeg[..]))
             == ReleaseFrom(edges, m, 0, Frontier(waiting, old(indeg[..])))
    {
      if edges[k].writer == m {
        var r := edges[k].reader;
        ghost var was := indeg[..];
        indeg[r] := indeg[r] - 1;
        assert indeg[..] == was[r := was[r] - 1];
        if indeg[r] == 0 {
          ready := ready + [r];
        }
      }
    }
  }

  /** What the queue and the counts are once `m` is out and its readers are released. */
  lemma Advance(edges: seq<Edge>, out: seq<nat>, ready: seq<nat>, indeg: seq<int>)
    requires InRange(edges, |indeg|) && ready != []
    requires Queued(out + ready, indeg) && Counts(indeg, edges, Members(out))
    ensures var g := ReleaseFrom(edges, ready[0], 0, Frontier(ready[1..], indeg));
            |g.indeg| == |indeg| && Queued(out + [ready[0]] + g.ready, g.indeg)
            && Counts(g.indeg, edges, Members(out + [ready[0]]))
  {
    var m, f := ready[0], Frontier(ready[1..], indeg);
    Taken(out, ready, indeg);
    Start(indeg, edges, Members(out), m);
    ReleaseFromKeeps(edges, Members(out), m, 0, out + [m], f);
    Start(ReleaseFrom(edges, m, 0, f).indeg, edges, Members(out), m);
  }

  /**
   * The walk puts each node out at most once and never before a writer it reads from; it leaves
   * out only nodes that wait on one another, so acyclic edges order every node.
   */
  method TopoOrder(n: nat, edges: seq<Edge>) returns (out: seq<nat>)
    requires InRange(edges, n)
    ensures Distinct(out) && forall i :: 0 <= i < |out| ==> out[i] < n
    ensures WritersFirst(edges, out)
    ensures Acyclic(edges) ==> forall x: nat :: x < n ==> x in out
  {
    var indeg := InDegrees(n, edges);
    var ready := FirstReady(indeg);
    out := [];
    assert out + ready == ready && Members(out) == {};
    while ready != []
      invariant fresh(indeg) && indeg.Length == n
      invariant Queued(out + ready, indeg[..]) && Counts(indeg[..], edges, Members(out))
      invariant WritersFirst(edges, out)
      decreases n - |out|
    {
      var m := ready[0];
      Taken(out, ready, indeg[..]);
      PlaceLast(edges, out, m);
      Advance(edges, out, ready, indeg[..]);
      ready := ReleaseReaders(edges, indeg, m, ready[1..]);
      out := out + [m];
    }
    assert out + ready == out;
    EveryNodeOut(edges, n, out, indeg[..]);
  }

  lemma EveryNodeOut(edges: seq<Edge>, n: nat, out: seq<nat>, indeg: seq<int>)
    requires InRange(edges, n) && |indeg| == n && Queued(out, indeg) && Counts(indeg, edges, Members(out))
    ensures Acyclic(edges) ==> forall x: nat :: x < n ==> x in out
  {
    if rank: nat -> nat :| RankedBy(edges, rank) {
      forall x: nat | x < n ensures x in out {
        NoneLeftWaiting(edges, n, out, rank, x);
      }
    }
  }

  lemma Taken(out: seq<nat>, ready: seq<nat>, indeg: seq<int>)
    requires ready != [] && Queued(out + ready, indeg)
    ensures ready[0] !in out && ready[0] < |indeg| && indeg[ready[0]] == 0
    ensures out + [ready[0]] + ready[1..] == out + ready
    ensures Members(out + [ready[0]]) == Members(out) + {ready[0]}
    ensures |out| < |indeg|
  {
    var q := out + ready;
    assert q[|out|] == ready[0];
    assert forall i :: 0 <= i < |out| ==> q[i] == out[i];
    NoMoreThanNodes(q, |indeg|);
  }
}
