/** `prepareOrderSettle` and `settleDerivedOrder`: one pass over the targets of a batch, writers
    first, that re-runs the readers whose inputs were written after they ran. */
module SettleOrder {
  import opened Options
  import opened TopoNodes

  type Project = string

  type Target = string

  datatype Ref = Ref(project: Project, target: Target)

  datatype Node = Node(key: Ref, steps: seq<Ref>, declaredWrites: bool)

  /** The bytes under a node's write globs; hashing is taken to tell different bytes apart. */
  type Bytes = string

  /**
   * What the batch left and what settling changes: per node, the bytes it wrote, when it last ran
   * and when its bytes last changed. Time 0 is before the invocation.
   */
  datatype Disk = Disk(bytes: seq<Bytes>, ranAt: seq<nat>, changedAt: seq<nat>, clock: nat)

  /** Everything the pass reads. `outcome` says, for each node, what a re-run of it writes, or that it fails. */
  datatype Batch = Batch(nodes: seq<Node>, edges: seq<Edge>, dropped: seq<Edge>,
                         steps: seq<Ref>, hits: seq<bool>, skipCache: map<Project, set<Target>>,
                         before: map<nat, Bytes>, disk: Disk, outcome: seq<Option<Bytes>>)

  // ----- the readers the pass may re-run -----

  predicate Replayed(b: Batch, k: Ref) {
    exists i :: 0 <= i < |b.steps| && b.steps[i] == k && i < |b.hits| && b.hits[i]
  }

  /** Not a step itself, in no replayed step, declaring writes, of a known project, skip-cache. */
  predicate Eligible(b: Batch, r: nat)
    requires r < |b.nodes|
  {
    var node := b.nodes[r];
    node.key !in b.steps && (forall s | s in node.steps :: !Replayed(b, s)) && node.declaredWrites &&
    node.key.project in b.skipCache && node.key.target in b.skipCache[node.key.project]
  }

  // ----- one turn -----

  datatype Rerun = Rerun(node: nat, because: nat)

  datatype Pass = Pass(disk: Disk, reranMoved: set<nat>, log: seq<Rerun>, failed: Option<nat>)

  /** The writer's bytes differ from what they were before the batch. */
  predicate Moved(b: Batch, w: nat)
    requires w < |b.disk.bytes|
  {
    w in b.before && b.disk.bytes[w] != b.before[w]
  }

  predicate Stales(b: Batch, reranMoved: set<nat>, r: nat, e: Edge)
    requires e.writer < |b.disk.bytes|
  {
    e.reader == r && ((!e.ordered && Moved(b, e.writer)) || e.writer in reranMoved)
  }

  function Edges(b: Batch): seq<Edge> {
    b.edges + b.dropped
  }

  /** The first edge that makes `r` stale. */
  function FirstStale(b: Batch, reranMoved: set<nat>, r: nat, k: nat): (w: Option<nat>)
    requires k <= |Edges(b)| && InRange(Edges(b), |b.disk.bytes|)
    ensures w == None <==> forall i :: k <= i < |Edges(b)| ==> !Stales(b, reranMoved, r, Edges(b)[i])
    ensures w != None ==> exists i :: k <= i < |Edges(b)| && Edges(b)[i].writer == w.value
                                      && Stales(b, reranMoved, r, Edges(b)[i])
    decreases |Edges(b)| - k
  {
    if k == |Edges(b)| then None
    else if Stales(b, reranMoved, r, Edges(b)[k]) then Some(Edges(b)[k].writer)
    else FirstStale(b, reranMoved, r, k + 1)
  }

  predicate Sized(d: Disk, n: nat) {
    |d.bytes| == n && |d.ranAt| == n && |d.changedAt| == n
  }

  function RerunNode(d: Disk, r: nat, bytes: Bytes): (d': Disk)
    requires Sized(d, |d.bytes|) && r < |d.bytes|
    ensures Sized(d', |d.bytes|) && d'.clock == d.clock + 1
  {
    var now := d.clock + 1;
    Disk(d.bytes[r := bytes], d.ranAt[r := now],
         if bytes != d.bytes[r] then d.changedAt[r := now] else d.changedAt, now)
  }

  ghost predicate Formed(b: Batch) {
    var n := |b.nodes|;
    Sized(b.disk, n) && |b.outcome| == n && InRange(Edges(b), n) &&
    (forall w :: w in b.before ==> w < n)
  }

  ghost predicate InPass(b: Batch, p: Pass) {
    Formed(b) && Sized(p.disk, |b.nodes|)
  }

  /** Node `r` gets its turn. */
  function Turn(b: Batch, p: Pass, r: nat): (p': Pass)
    requires InPass(b, p) && r < |b.nodes|
    ensures InPass(b, p')
  {
    if p.failed != None || !Eligible(b, r) then p
    else
      var stale := FirstStale(b, p.reranMoved, r, 0);
      if stale == None then p
      else if b.outcome[r] == None then p.(failed := Some(r))
      else
        var bytes := b.outcome[r].value;
        Pass(RerunNode(p.disk, r, bytes),
             if r in b.before && bytes != p.disk.bytes[r] then p.reranMoved + {r} else p.reranMoved,
             p.log + [Rerun(r, stale.value)], None)
  }

  function Begin(b: Batch): Pass {
    Pass(b.disk, {}, [], None)
  }

  ghost predicate InOrder(b: Batch, order: seq<nat>) {
    forall i :: 0 <= i < |order| ==> order[i] < |b.nodes|
  }

  /** The pass after the first `k` turns. */
  function After(b: Batch, order: seq<nat>, k: nat): (p: Pass)
    requires Formed(b) && InOrder(b, order) && k <= |order|
    ensures InPass(b, p)
  {
    if k == 0 then Begin(b) else Turn(b, After(b, order, k - 1), order[k - 1])
  }

  // ----- what turns leave alone -----

  /** Two passes agree about node `n`. */
  ghost predicate SameAt(p: Pass, q: Pass, n: nat) {
    n < |p.disk.bytes| && Sized(p.disk, |p.disk.bytes|) && Sized(q.disk, |p.disk.bytes|) &&
    p.disk.bytes[n] == q.disk.bytes[n] && p.disk.ranAt[n] == q.disk.ranAt[n] &&
    p.disk.changedAt[n] == q.disk.changedAt[n] && (n in p.reranMoved <==> n in q.reranMoved)
  }

  lemma TurnTouchesItsOwn(b: Batch, p: Pass, r: nat, n: nat)
    requires InPass(b, p) && r < |b.nodes| && n < |b.nodes| && n != r
    ensures SameAt(p, Turn(b, p, r), n)
  {
  }

  ghost predicate Turns(b: Batch, order: seq<nat>, i: nat, k: nat) {
    Formed(b) && InOrder(b, order) && i <= k <= |order|
  }

  /** `n` has no turn from `i` up to `k`. */
  ghost predicate NotIn(order: seq<nat>, i: nat, k: nat, n: nat)
    requires i <= k <= |order|
  {
    forall j :: i <= j < k ==> order[j] != n
  }

  lemma {:induction false} Untouched(b: Batch, order: seq<nat>, i: nat, k: nat, n: nat)
    requires Turns(b, order, i, k) && n < |b.nodes| && NotIn(order, i, k, n)
    ensures SameAt(After(b, order, i), After(b, order, k), n)
    decreases k
  {
    if i < k {
      Untouched(b, order, i, k - 1, n);
      TurnTouchesItsOwn(b, After(b, order, k - 1), order[k - 1], n);
    }
  }

  /** The clock only moves on, and no time is later than the clock. */
  ghost predicate TimesPast(d: Disk) {
    Sized(d, |d.bytes|) && forall n :: 0 <= n < |d.bytes| ==> d.ranAt[n] <= d.clock && d.changedAt[n] <= d.clock
  }

  lemma TurnTakesTime(b: Batch, p: Pass, r: nat)
    requires InPass(b, p) && r < |b.nodes| && TimesPast(p.disk)
    ensures TimesPast(Turn(b, p, r).disk) && p.disk.clock <= Turn(b, p, r).disk.clock
  {
  }

  lemma {:induction false} ClockMovesOn(b: Batch, order: seq<nat>, i: nat, k: nat)
    requires Turns(b, order, i, k) && TimesPast(b.disk)
    ensures TimesPast(After(b, order, k).disk) && After(b, order, i).disk.clock <= After(b, order, k).disk.clock
    decreases k
  {
    if k > 0 {
      ClockMovesOn(b, order, if i < k then i else k - 1, k - 1);
      TurnTakesTime(b, After(b, order, k - 1), order[k - 1]);
    }
  }

  /** Only a re-run that is recorded as moving bytes moves the bytes of a writer. */
  lemma {:induction false} ChangeIsRecorded(b: Batch, order: seq<nat>, k: nat, w: nat)
    requires Turns(b, order, k, k) && w in b.before
    ensures w !in After(b, order, k).reranMoved ==> After(b, order, k).disk.changedAt[w] == b.disk.changedAt[w]
  {
    if k > 0 {
      ChangeIsRecorded(b, order, k - 1, w);
    }
  }

  lemma {:induction false} FailureStops(b: Batch, order: seq<nat>, i: nat, k: nat)
    requires Turns(b, order, i, k)
    ensures After(b, order, i).failed != None ==> After(b, order, k) == After(b, order, i)
    decreases k
  {
    if i < k {
      FailureStops(b, order, i, k - 1);
    }
  }

  // ----- one pass suffices -----

  /** The reader of `e` last ran after the last change of the writer's bytes. */
  ghost predicate Fresh(d: Disk, e: Edge) {
    e.writer < |d.changedAt| && e.reader < |d.ranAt| &&
    (d.changedAt[e.writer] == 0 || d.changedAt[e.writer] < d.ranAt[e.reader])
  }

  /** What is known of one edge: its writer was hashed, and an ordered edge is kept and ran writer first. */
  ghost predicate EdgeRan(b: Batch, x: nat)
    requires x < |Edges(b)|
  {
    var e := Edges(b)[x];
    e.writer in b.before && e.writer != e.reader && (e.ordered ==> x < |b.edges| && Fresh(b.disk, e))
  }

  /** What the batch guarantees: times are past, and a writer moved exactly when its bytes changed during it. */
  ghost predicate BatchRan(b: Batch) {
    Formed(b) && TimesPast(b.disk) &&
    (forall w :: w in b.before ==> (Moved(b, w) <==> b.disk.changedAt[w] > 0)) &&
    (forall x :: 0 <= x < |Edges(b)| ==> EdgeRan(b, x))
  }

  lemma EdgeFacts(b: Batch, x: nat)
    requires BatchRan(b) && x < |Edges(b)|
    ensures EdgeRan(b, x) && Edges(b)[x].reader < |b.nodes| && Edges(b)[x].writer < |b.nodes|
    ensures !Moved(b, Edges(b)[x].writer) ==> Fresh(b.disk, Edges(b)[x])
  {
    assert EdgeRan(b, x);
  }

  /** Right after its turn an eligible reader is fresh along every edge, kept or dropped. */
  lemma TurnServes(b: Batch, order: seq<nat>, i: nat, x: nat)
    requires BatchRan(b) && Turns(b, order, i, i) && i < |order| && NotIn(order, 0, i, order[i])
    requires x < |Edges(b)| && Edges(b)[x].reader == order[i] && Eligible(b, order[i])
    requires After(b, order, i + 1).failed == None
    ensures Fresh(After(b, order, i + 1).disk, Edges(b)[x])
  {
    var r, e, p := order[i], Edges(b)[x], After(b, order, i);
    EdgeFacts(b, x);
    FailureStops(b, order, i, i + 1);
    ClockMovesOn(b, order, i, i);
    TurnTouchesItsOwn(b, p, r, e.writer);
    if FirstStale(b, p.reranMoved, r, 0) == None {
      assert !Stales(b, p.reranMoved, r, e);
      ChangeIsRecorded(b, order, i, e.writer);
      Untouched(b, order, 0, i, r);
    }
  }

  /** The order the pass takes the nodes in: each once, writers of kept edges first. */
  ghost predicate Sorted(b: Batch, order: seq<nat>) {
    Formed(b) && InOrder(b, order) && Distinct(order) && WritersFirst(b.edges, order)
  }

  function Final(b: Batch, order: seq<nat>): Pass
    requires Formed(b) && InOrder(b, order)
  {
    After(b, order, |order|)
  }

  lemma MoveIsTimed(b: Batch, p: Pass, r: nat)
    requires InPass(b, p) && r < |b.nodes| && r !in p.reranMoved && r in Turn(b, p, r).reranMoved
    ensures Turn(b, p, r).disk.changedAt[r] == p.disk.clock + 1
  {
  }

  lemma OnlyTurn(order: seq<nat>, j: nat)
    requires Distinct(order) && j < |order|
    ensures NotIn(order, 0, j, order[j]) && NotIn(order, j + 1, |order|, order[j])
  {
  }

  lemma LaterMove(b: Batch, order: seq<nat>, i: nat, j: nat)
    requires Sorted(b, order) && TimesPast(b.disk) && i < j < |order| && order[j] in Final(b, order).reranMoved
    ensures Final(b, order).disk.changedAt[order[j]] > After(b, order, i + 1).disk.clock
  {
    OnlyTurn(order, j);
    Untouched(b, order, 0, j, order[j]);
    Untouched(b, order, j + 1, |order|, order[j]);
    MoveIsTimed(b, After(b, order, j), order[j]);
    ClockMovesOn(b, order, i + 1, j);
  }

  /** A writer with a later turn that moved nothing is, to the end, what it was at the reader's turn. */
  lemma LaterStill(b: Batch, order: seq<nat>, i: nat, j: nat)
    requires Sorted(b, order) && i < j < |order| && order[j] in b.before && order[j] !in Final(b, order).reranMoved
    ensures Final(b, order).disk.changedAt[order[j]] == After(b, order, i + 1).disk.changedAt[order[j]]
  {
    Untouched(b, order, 0, i + 1, order[j]);
    ChangeIsRecorded(b, order, |order|, order[j]);
  }

  lemma StaleIffMovedLater(b: Batch, order: seq<nat>, i: nat, x: nat)
    requires BatchRan(b) && Sorted(b, order) && i < |order| && Eligible(b, order[i])
    requires x < |Edges(b)| && Edges(b)[x].reader == order[i] && Final(b, order).failed == None
    ensures !Fresh(Final(b, order).disk, Edges(b)[x]) <==>
            exists j :: i < j < |order| && order[j] == Edges(b)[x].writer && order[j] in Final(b, order).reranMoved
  {
    var e, n := Edges(b)[x], |order|;
    EdgeFacts(b, x);
    FailureStops(b, order, i + 1, n);
    TurnServes(b, order, i, x);
    Untouched(b, order, i + 1, n, order[i]);
    ClockMovesOn(b, order, i + 1, i + 1);
    if j :| i < j < n && order[j] == e.writer {
      if e.writer in Final(b, order).reranMoved {
        LaterMove(b, order, i, j);
      } else {
        LaterStill(b, order, i, j);
      }
    } else {
      Untouched(b, order, i + 1, n, e.writer);
    }
  }

  lemma KeptEdgeIsServed(b: Batch, order: seq<nat>, i: nat, x: nat)
    requires BatchRan(b) && Sorted(b, order) && i < |order| && Eligible(b, order[i])
    requires x < |b.edges| && b.edges[x].reader == order[i] && Final(b, order).failed == None
    ensures Fresh(Final(b, order).disk, b.edges[x])
  {
    assert Edges(b)[x] == b.edges[x] && b.edges[x].writer in order[..i];
    StaleIffMovedLater(b, order, i, x);
  }

  /** One pass suffices: every eligible reader has run after the last change along every kept edge. */
  lemma OnePassSuffices(b: Batch, order: seq<nat>)
    requires BatchRan(b) && Sorted(b, order) && (forall r: nat :: r < |b.nodes| ==> r in order)
    requires Final(b, order).failed == None
    ensures forall x :: 0 <= x < |b.edges| && b.edges[x].reader < |b.nodes| && Eligible(b, b.edges[x].reader) ==>
              Fresh(Final(b, order).disk, b.edges[x])
  {
    forall x | 0 <= x < |b.edges| && b.edges[x].reader < |b.nodes| && Eligible(b, b.edges[x].reader)
      ensures Fresh(Final(b, order).disk, b.edges[x])
    {
      assert b.edges[x].reader in order;
      var i: nat :| i < |order| && order[i] == b.edges[x].reader;
      KeptEdgeIsServed(b, order, i, x);
    }
  }

  // ----- foreseen from the batch alone -----

  /** Edge `x` will make the node of turn `j` stale. */
  ghost predicate WillStale(b: Batch, order: seq<nat>, j: nat, x: nat)
    requires Formed(b) && InOrder(b, order) && j < |order| && x < |Edges(b)|
    decreases j, 0
  {
    var e := Edges(b)[x];
    e.reader == order[j] &&
    ((!e.ordered && Moved(b, e.writer)) || exists i :: 0 <= i < j && order[i] == e.writer && WillMove(b, order, i))
  }

  /** The node of turn `j` will re-run: it is eligible and some edge will make it stale. */
  ghost predicate WillRun(b: Batch, order: seq<nat>, j: nat)
    requires Formed(b) && InOrder(b, order) && j < |order|
    decreases j, 1
  {
    Eligible(b, order[j]) && exists x :: 0 <= x < |Edges(b)| && WillStale(b, order, j, x)
  }

  /** And its re-run will write other bytes than the batch left, under writes that were hashed. */
  ghost predicate WillMove(b: Batch, order: seq<nat>, j: nat)
    requires Formed(b) && InOrder(b, order) && j < |order|
    decreases j, 2
  {
    WillRun(b, order, j) && order[j] in b.before &&
    b.outcome[order[j]] != None && b.outcome[order[j]].value != b.disk.bytes[order[j]]
  }

  ghost predicate WillFail(b: Batch, order: seq<nat>, j: nat)
    requires Formed(b) && InOrder(b, order) && j < |order|
  {
    WillRun(b, order, j) && b.outcome[order[j]] == None
  }

  /** At turn `j` the node is found eligible and stale. */
  predicate Runs(b: Batch, p: Pass, r: nat)
    requires InPass(b, p) && r < |b.nodes|
  {
    Eligible(b, r) && FirstStale(b, p.reranMoved, r, 0) != None
  }

  lemma StaleIsForeseen(b: Batch, order: seq<nat>, j: nat, x: nat)
    requires Sorted(b, order) && j < |order| && After(b, order, j).failed == None && x < |Edges(b)|
    ensures Stales(b, After(b, order, j).reranMoved, order[j], Edges(b)[x]) <==> WillStale(b, order, j, x)
    decreases j, 1
  {
    MovesAreForeseen(b, order, j, Edges(b)[x].writer);
  }

  lemma RunIsForeseen(b: Batch, order: seq<nat>, j: nat)
    requires Sorted(b, order) && j < |order| && After(b, order, j).failed == None
    ensures Runs(b, After(b, order, j), order[j]) <==> WillRun(b, order, j)
    decreases j, 2
  {
    forall x | 0 <= x < |Edges(b)|
      ensures Stales(b, After(b, order, j).reranMoved, order[j], Edges(b)[x]) <==> WillStale(b, order, j, x)
    {
      StaleIsForeseen(b, order, j, x);
    }
  }

  /** A turn records a move exactly when its node runs, was hashed and writes other bytes. */
  lemma TurnMoves(b: Batch, p: Pass, r: nat, w: nat)
    requires InPass(b, p) && r < |b.nodes| && p.failed == None
    ensures w in Turn(b, p, r).reranMoved <==>
              w in p.reranMoved ||
              (w == r && Runs(b, p, r) && r in b.before
               && b.outcome[r] != None && b.outcome[r].value != p.disk.bytes[r])
  {
  }

  lemma TurnFails(b: Batch, p: Pass, r: nat)
    requires InPass(b, p) && r < |b.nodes| && p.failed == None
    ensures Turn(b, p, r).failed == None <==> !(Runs(b, p, r) && b.outcome[r] == None)
  {
  }

  /** What the pass records as moved is what the batch let foresee. */
  lemma {:induction false} MovesAreForeseen(b: Batch, order: seq<nat>, k: nat, w: nat)
    requires Sorted(b, order) && k <= |order| && After(b, order, k).failed == None
    ensures w in After(b, order, k).reranMoved <==> exists i :: 0 <= i < k && order[i] == w && WillMove(b, order, i)
    decreases k, 0
  {
    if k > 0 {
      var p, r := After(b, order, k - 1), order[k - 1];
      FailureStops(b, order, k - 1, k);
      MovesAreForeseen(b, order, k - 1, w);
      RunIsForeseen(b, order, k - 1);
      TurnMoves(b, p, r, w);
      Untouched(b, order, 0, k - 1, r);
      assert w == r && WillMove(b, order, k - 1) ==> order[k - 1] == w;
    }
  }

  /** The pass fails exactly when some node that will re-run has a re-run that fails. */
  lemma {:induction false} FailsExactlyWhen(b: Batch, order: seq<nat>, k: nat)
    requires Sorted(b, order) && k <= |order|
    ensures After(b, order, k).failed == None <==> forall i :: 0 <= i < k ==> !WillFail(b, order, i)
  {
    if k > 0 {
      FailsExactlyWhen(b, order, k - 1);
      FailureStops(b, order, k - 1, k);
      if After(b, order, k - 1).failed == None {
        RunIsForeseen(b, order, k - 1);
        TurnFails(b, After(b, order, k - 1), order[k - 1]);
        assert After(b, order, k).failed == None <==> !WillFail(b, order, k - 1);
      }
    }
  }

  lemma TurnNames(b: Batch, p: Pass, r: nat)
    requires InPass(b, p) && r < |b.nodes| && p.failed == None
    ensures Turn(b, p, r).failed != None ==> Turn(b, p, r).failed == Some(r)
  {
  }

  /** The failure reported is that of the first turn that will fail; nothing after it re-runs. */
  lemma {:induction false} FirstFailureIsReported(b: Batch, order: seq<nat>, j: nat, k: nat)
    requires Sorted(b, order) && j < k <= |order| && WillFail(b, order, j)
    requires forall i :: 0 <= i < j ==> !WillFail(b, order, i)
    ensures After(b, order, k).failed == Some(order[j]) && After(b, order, k).log == After(b, order, j).log
    decreases k
  {
    FailsExactlyWhen(b, order, j);
    FailsExactlyWhen(b, order, j + 1);
    TurnNames(b, After(b, order, j), order[j]);
    FailureStops(b, order, j + 1, k);
  }

  /**
   * An eligible reader is left stale along an edge, kept or dropped, exactly when the writer's turn
   * comes later and will move its bytes; both sides of a pass without failure are foreseen.
   */
  lemma StaleExactlyWhenWriterWillMoveLater(b: Batch, order: seq<nat>, i: nat, x: nat)
    requires BatchRan(b) && Sorted(b, order) && i < |order| && Eligible(b, order[i])
    requires x < |Edges(b)| && Edges(b)[x].reader == order[i]
    requires forall j :: 0 <= j < |order| ==> !WillFail(b, order, j)
    ensures !Fresh(Final(b, order).disk, Edges(b)[x]) <==>
            exists j :: i < j < |order| && order[j] == Edges(b)[x].writer && WillMove(b, order, j)
  {
    var w := Edges(b)[x].writer;
    FailsExactlyWhen(b, order, |order|);
    StaleIffMovedLater(b, order, i, x);
    MovesAreForeseen(b, order, |order|, w);
    if j :| i < j < |order| && order[j] == w && order[j] in Final(b, order).reranMoved {
      var m :| 0 <= m < |order| && order[m] == w && WillMove(b, order, m);
      assert m == j;
    }
  }

  /** Two targets that read each other: the first is re-run, then the second moves what the first read. */
  function Entangled(): Batch {
    var first, second := Node(Ref("a", "index"), [], true), Node(Ref("b", "index"), [], true);
    Batch([first, second], [Edge(0, 1, false)], [Edge(1, 0, false)], [], [],
          map["a" := {"index"}, "b" := {"index"}], map[0 := "old", 1 := "old"],
          Disk(["new", "new"], [1, 2], [1, 2], 2), [Some("newer"), Some("newer")])
  }

  lemma EntangledPass()
    ensures var b := Entangled(); Formed(b) && InOrder(b, [0, 1]) && Eligible(b, 0) && Eligible(b, 1)
    ensures var b := Entangled(); Final(b, [0, 1]).disk == Disk(["newer", "newer"], [3, 4], [3, 4], 4)
  {
    var b := Entangled();
    assert Edges(b) == [Edge(0, 1, false), Edge(1, 0, false)];
    var p1 := After(b, [0, 1], 1);
    assert Stales(b, {}, 0, Edges(b)[1]);
    assert p1.disk == Disk(["newer", "new"], [3, 2], [3, 2], 3);
    assert Stales(b, p1.reranMoved, 1, Edges(b)[0]);
  }

  /** A dropped edge may be left stale, both of its ends eligible and nothing failing. */
  lemma DroppedEdgeMayStayStale()
    ensures var b := Entangled(); Formed(b) && InOrder(b, [0, 1]) && BatchRan(b) && Sorted(b, [0, 1])
    ensures var b := Entangled(); Eligible(b, 0) && !Fresh(Final(b, [0, 1]).disk, b.dropped[0])
  {
    EntangledPass();
    var b := Entangled();
    assert Edges(b) == [Edge(0, 1, false), Edge(1, 0, false)];
    assert forall x :: 0 <= x < 2 ==> EdgeRan(b, x);
  }

  // ----- no needless re-run -----

  ghost predicate LogWithin(log: seq<Rerun>, order: seq<nat>, k: nat) {
    k <= |order| && forall x :: 0 <= x < |log| ==> log[x].node in order[..k]
  }

  ghost predicate OnceEach(log: seq<Rerun>) {
    forall x, y :: 0 <= x < y < |log| ==> log[x].node != log[y].node
  }

  /** Each node re-runs at most once. */
  lemma {:induction false} RerunsAtMostOnce(b: Batch, order: seq<nat>, k: nat)
    requires Sorted(b, order) && k <= |order|
    ensures LogWithin(After(b, order, k).log, order, k) && OnceEach(After(b, order, k).log)
  {
    if k > 0 {
      RerunsAtMostOnce(b, order, k - 1);
      assert order[..k] == order[..k - 1] + [order[k - 1]];
      assert order[k - 1] !in order[..k - 1];
    }
  }

  /** If no writer moved, nothing re-runs and the disk stays as it is. */
  lemma {:induction false} SettledTreeIsANoOp(b: Batch, order: seq<nat>, k: nat)
    requires Turns(b, order, k, k) && forall w :: w in b.before ==> !Moved(b, w)
    ensures After(b, order, k) == Begin(b)
  {
    if k > 0 {
      SettledTreeIsANoOp(b, order, k - 1);
    }
  }

  /** Why the `x`th re-run happened: an unordered edge from a moved writer, or from an earlier re-run that moved. */
  ghost predicate HasReason(b: Batch, log: seq<Rerun>, reranMoved: set<nat>, x: nat)
    requires Formed(b) && x < |log|
  {
    var r, w := log[x].node, log[x].because;
    r < |b.nodes| && Eligible(b, r) &&
    exists k :: 0 <= k < |Edges(b)| && Edges(b)[k].reader == r && Edges(b)[k].writer == w &&
      ((!Edges(b)[k].ordered && Moved(b, w)) || (w in reranMoved && exists y :: 0 <= y < x && log[y].node == w))
  }

  ghost predicate MovesLogged(p: Pass) {
    forall w :: w in p.reranMoved ==> exists y :: 0 <= y < |p.log| && p.log[y].node == w
  }

  lemma TurnHasReason(b: Batch, p: Pass, r: nat, x: nat)
    requires InPass(b, p) && r < |b.nodes| && MovesLogged(p) && x < |Turn(b, p, r).log|
    requires x < |p.log| ==> HasReason(b, p.log, p.reranMoved, x)
    ensures HasReason(b, Turn(b, p, r).log, Turn(b, p, r).reranMoved, x)
  {
    var p' := Turn(b, p, r);
    if x < |p.log| {
      assert p'.log[x] == p.log[x];
      assert forall y :: 0 <= y < x ==> p'.log[y] == p.log[y];
    } else {
      var w := FirstStale(b, p.reranMoved, r, 0).value;
      var k :| 0 <= k < |Edges(b)| && Edges(b)[k].writer == w && Stales(b, p.reranMoved, r, Edges(b)[k]);
      assert forall y :: 0 <= y < |p.log| ==> p'.log[y] == p.log[y];
    }
  }

  lemma TurnLogsMoves(b: Batch, p: Pass, r: nat)
    requires InPass(b, p) && r < |b.nodes| && MovesLogged(p)
    ensures MovesLogged(Turn(b, p, r))
  {
    var p' := Turn(b, p, r);
    forall w | w in p'.reranMoved ensures exists y :: 0 <= y < |p'.log| && p'.log[y].node == w {
      if w in p.reranMoved {
        var y :| 0 <= y < |p.log| && p.log[y].node == w;
        assert p'.log[y] == p.log[y];
      } else {
        assert p'.log[|p.log|].node == w;
      }
    }
  }

  /** Every re-run has a reason, and the one it reports. */
  lemma {:induction false} EveryRerunHasAReason(b: Batch, order: seq<nat>, k: nat)
    requires Turns(b, order, k, k)
    ensures MovesLogged(After(b, order, k))
    ensures forall x :: 0 <= x < |After(b, order, k).log| ==>
              HasReason(b, After(b, order, k).log, After(b, order, k).reranMoved, x)
  {
    if k > 0 {
      var p := After(b, order, k - 1);
      EveryRerunHasAReason(b, order, k - 1);
      TurnLogsMoves(b, p, order[k - 1]);
      forall x | 0 <= x < |After(b, order, k).log|
        ensures HasReason(b, After(b, order, k).log, After(b, order, k).reranMoved, x)
      {
        TurnHasReason(b, p, order[k - 1], x);
      }
    }
  }

  // ----- the pass itself -----

  /** Every writer of a kept or dropped edge is hashed before the batch; nothing at all when there is no edge. */
  method PrepareSettle(edges: seq<Edge>, dropped: seq<Edge>, bytes: seq<Bytes>)
      returns (before: Option<map<nat, Bytes>>)
    requires InRange(edges + dropped, |bytes|)
    ensures before == None <==> edges + dropped == []
    ensures before != None ==>
              forall w :: w in before.value <==>
                exists k :: 0 <= k < |edges + dropped| && (edges + dropped)[k].writer == w
    ensures before != None ==> forall w :: w in before.value ==> w < |bytes| && before.value[w] == bytes[w]
  {
    if |edges| + |dropped| == 0 {
      return None;
    }
    var m: map<nat, Bytes> := map[];
    var all := edges + dropped;
    for k := 0 to |all|
      invariant forall w :: w in m <==> exists i :: 0 <= i < k && all[i].writer == w
      invariant forall w :: w in m ==> w < |bytes| && m[w] == bytes[w]
    {
      if all[k].writer !in m {
        m := m[all[k].writer := bytes[all[k].writer]];
      }
    }
    before := Some(m);
  }

  method ReplayedSteps(steps: seq<Ref>, hits: seq<bool>) returns (replayed: set<Ref>)
    ensures forall k :: k in replayed <==> exists i :: 0 <= i < |steps| && steps[i] == k && i < |hits| && hits[i]
  {
    replayed := {};
    for i := 0 to |steps|
      invariant forall k :: k in replayed <==> exists j :: 0 <= j < i && steps[j] == k && j < |hits| && hits[j]
    {
      if i < |hits| && hits[i] {
        replayed := replayed + {steps[i]};
      }
    }
  }

  method MovedWriters(b: Batch) returns (moved: set<nat>)
    requires Formed(b)
    ensures forall w :: w in moved <==> w in b.before && Moved(b, w)
  {
    moved := {};
    var left := b.before.Keys;
    while left != {}
      invariant left <= b.before.Keys
      invariant forall w :: w in moved <==> w in b.before && w !in left && Moved(b, w)
    {
      var w :| w in left;
      if b.disk.bytes[w] != b.before[w] {
        moved := moved + {w};
      }
      left := left - {w};
    }
  }

  method StaleWriter(b: Batch, moved: set<nat>, reranMoved: set<nat>, r: nat) returns (stale: Option<nat>)
    requires Formed(b) && forall w :: w in moved <==> w in b.before && Moved(b, w)
    ensures stale == FirstStale(b, reranMoved, r, 0)
  {
    var all := b.edges + b.dropped;
    for k := 0 to |all|
      invariant FirstStale(b, reranMoved, r, 0) == FirstStale(b, reranMoved, r, k)
    {
      var e := all[k];
      if e.reader == r && ((!e.ordered && e.writer in moved) || e.writer in reranMoved) {
        return Some(e.writer);
      }
    }
    stale := None;
  }

  /** The hashes re-runs are compared by: those of the writers, as they stand on disk. */
  ghost predicate Current(b: Batch, current: map<nat, Bytes>, d: Disk) {
    Sized(d, |b.nodes|) && current.Keys == b.before.Keys &&
    forall w :: w in current ==> w < |d.bytes| && current[w] == d.bytes[w]
  }

  predicate MayRerun(b: Batch, replayed: set<Ref>, r: nat)
    requires r < |b.nodes|
  {
    var node := b.nodes[r];
    !(node.key in b.steps || (exists s :: s in node.steps && s in replayed) || !node.declaredWrites)
    && !(node.key.project !in b.skipCache || node.key.target !in b.skipCache[node.key.project])
  }

  lemma MayRerunIsEligible(b: Batch, replayed: set<Ref>, r: nat)
    requires r < |b.nodes| && forall k :: k in replayed <==> Replayed(b, k)
    ensures MayRerun(b, replayed, r) <==> Eligible(b, r)
  {
  }

  method TakeTurn(b: Batch, p: Pass, hashes: map<nat, Bytes>, moved: set<nat>, replayed: set<Ref>, r: nat)
      returns (q: Pass, current: map<nat, Bytes>)
    requires InPass(b, p) && r < |b.nodes| && p.failed == None && Current(b, hashes, p.disk)
    requires forall w :: w in moved <==> w in b.before && Moved(b, w)
    requires forall k :: k in replayed <==> Replayed(b, k)
    ensures q == Turn(b, p, r) && Current(b, current, q.disk)
  {
    q, current := p, hashes;
    MayRerunIsEligible(b, replayed, r);
    if !MayRerun(b, replayed, r) {
      return;
    }
    var stale := StaleWriter(b, moved, p.reranMoved, r);
    if stale == None {
      return;
    }
    if b.outcome[r] == None {
      q := p.(failed := Some(r));
      return;
    }
    var disk, reranMoved := RerunNode(p.disk, r, b.outcome[r].value), p.reranMoved;
    if r in current {
      current := current[r := disk.bytes[r]];
      if current[r] != hashes[r] {
        reranMoved := reranMoved + {r};
      }
    }
    q := Pass(disk, reranMoved, p.log + [Rerun(r, stale.value)], None);
  }

  lemma KeptInRange(b: Batch)
    requires Formed(b)
    ensures InRange(b.edges, |b.nodes|)
  {
    assert forall k :: 0 <= k < |b.edges| ==> b.edges[k] == Edges(b)[k];
  }

  /** The pass takes the nodes writers first and stops at the first re-run that fails. */
  method Settle(b: Batch) returns (p: Pass, order: seq<nat>)
    requires Formed(b)
    ensures Sorted(b, order) && p == Final(b, order)
    ensures Acyclic(b.edges) ==> forall r: nat :: r < |b.nodes| ==> r in order
  {
    var replayed := ReplayedSteps(b.steps, b.hits);
    var moved := MovedWriters(b);
    KeptInRange(b);
    order := TopoOrder(|b.nodes|, b.edges);
    p := Begin(b);
    var current := map w | w in b.before :: b.disk.bytes[w];
    for k := 0 to |order|
      invariant p == After(b, order, k) && p.failed == None && Current(b, current, p.disk)
    {
      p, current := TakeTurn(b, p, current, moved, replayed, order[k]);
      if p.failed != None {
        FailureStops(b, order, k + 1, |order|);
        return;
      }
    }
  }
}
