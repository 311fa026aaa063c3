/** `oldSpan`, `removedInSpan` and `baseSpan`: which old lines a span of new lines answers for. */
module SpanMap {
  import opened Options
  import opened Patch
  import opened LineMap

  // ----- where a removed run is charged -----

  /** The index of the first row from `i` on that has a new line, or the end. */
  function NextNew(rows: seq<Row>, i: nat): (j: nat)
    requires i <= |rows|
    ensures i <= j <= |rows|
    ensures j < |rows| ==> rows[j].newLine.Some?
    ensures forall k :: i <= k < j ==> rows[k].newLine == None
    decreases |rows| - i
  {
    if i == |rows| || rows[i].newLine.Some? then i else NextNew(rows, i + 1)
  }

  /** A row a span takes the removed run before it for: any of its rows but an unchanged first. */
  predicate Takes(r: Row, start: int, end: int) {
    r.newLine.Some? && start <= r.newLine.value <= end && (r.newLine.value > start || r.kind == Add)
  }

  /** Removed row `i` is charged to the span: the next row with a new line is one it takes. */
  predicate ChargedRow(rows: seq<Row>, i: nat, start: int, end: int)
    requires i < |rows|
  {
    && rows[i].kind == Del && rows[i].oldLine.Some?
    && NextNew(rows, i) < |rows| && Takes(rows[NextNew(rows, i)], start, end)
  }

  predicate Charged(rows: seq<Row>, l: int, start: int, end: int) {
    exists i :: 0 <= i < |rows| && ChargedRow(rows, i, start, end) && rows[i].oldLine == Some(l)
  }

  /** Old line `l` belongs to new lines start..end: it maps into them, or its removal is theirs. */
  ghost predicate Belongs(hunks: seq<Hunk>, start: int, end: int, l: int) {
    KeptIn(hunks, start, end + 1, l) || GoneIn(hunks, |hunks|, start, end, l)
  }

  ghost predicate KeptIn(hunks: seq<Hunk>, start: int, bound: int, l: int) {
    exists m :: start <= m < bound && Backward(hunks, m) == Some(l)
  }

  ghost predicate GoneIn(hunks: seq<Hunk>, n: nat, start: int, end: int, l: int)
    requires n <= |hunks|
  {
    exists i :: 0 <= i < n && Charged(hunks[i].rows, l, start, end)
  }

  /** Some row removes `l`, and the next row of the hunk that has a new line has `m`, being of kind `kind`. */
  ghost predicate RemovedAhead(rows: seq<Row>, l: int, m: int, kind: Kind) {
    exists i, j :: 0 <= i < j < |rows| && AheadOf(rows, i, j, l, m, kind)
  }

  ghost predicate AheadOf(rows: seq<Row>, i: nat, j: nat, l: int, m: int, kind: Kind)
    requires i < j < |rows|
  {
    && rows[i].kind == Del && rows[i].oldLine == Some(l) && rows[j].newLine == Some(m) && rows[j].kind == kind
    && forall k :: i <= k < j ==> rows[k].newLine == None
  }

  lemma NextNewIs(rows: seq<Row>, i: nat, j: nat)
    requires i <= j < |rows| && rows[j].newLine.Some? && forall k :: i <= k < j ==> rows[k].newLine == None
    ensures NextNew(rows, i) == j
  {
  }

  /** What is charged, by the rows alone: a removed run goes to the line after it, unless that is the span's
      first and unchanged. */
  lemma ChargedByRows(rows: seq<Row>, l: int, start: int, end: int)
    requires DelRowsPlain(rows)
    ensures Charged(rows, l, start, end) <==>
            exists m, kind :: RemovedAhead(rows, l, m, kind) && start <= m <= end && (m > start || kind == Add)
  {
    if i :| 0 <= i < |rows| && ChargedRow(rows, i, start, end) && rows[i].oldLine == Some(l) {
      var j := NextNew(rows, i);
      assert AheadOf(rows, i, j, l, rows[j].newLine.value, rows[j].kind);
      assert RemovedAhead(rows, l, rows[j].newLine.value, rows[j].kind);
    }
    if m, kind :| RemovedAhead(rows, l, m, kind) && start <= m <= end && (m > start || kind == Add) {
      var i, j :| 0 <= i < j < |rows| && AheadOf(rows, i, j, l, m, kind);
      NextNewIs(rows, i, j);
      assert ChargedRow(rows, i, start, end);
    }
  }

  // ----- the loops -----

  /** Removed rows carry an old line and no new one, as the parser makes them. */
  predicate DelRowsPlain(rows: seq<Row>) {
    forall i :: 0 <= i < |rows| && rows[i].kind == Del ==> rows[i].newLine == None
  }

  method RemovedInSpan(rows: seq<Row>, start: int, end: int) returns (out: seq<int>)
    ensures DelRowsPlain(rows) ==> forall l :: l in out <==> Charged(rows, l, start, end)
    ensures DelRowsPlain(rows) ==> forall l :: l in out <==>
              exists m, kind :: RemovedAhead(rows, l, m, kind) && start <= m <= end && (m > start || kind == Add)
  {
    out := [];
    var pending: seq<int> := [];
    for k := 0 to |rows|
      invariant DelRowsPlain(rows) ==> forall l :: l in pending <==> PendingAt(rows, k, l)
      invariant DelRowsPlain(rows) ==> forall l :: l in out <==> ChargedBefore(rows, k, l, start, end)
    {
      var r := rows[k];
      if DelRowsPlain(rows) {
        PendingSteps(rows, k, k + 1);
        ChargedSteps(rows, k, k + 1, start, end);
      }
      if r.kind == Del && r.oldLine.Some? {
        pending := pending + [r.oldLine.value];
      } else if r.newLine.Some? {
        var n := r.newLine.value;
        if n >= start && n <= end && (n > start || r.kind == Add) {
          out := out + pending;
        }
        pending := [];
      }
    }
    if DelRowsPlain(rows) {
      ChargedAtEnd(rows, start, end);
      forall l ensures Charged(rows, l, start, end) <==>
        exists m, kind :: RemovedAhead(rows, l, m, kind) && start <= m <= end && (m > start || kind == Add)
      {
        ChargedByRows(rows, l, start, end);
      }
    }
  }

  /** A removed row before `k` with no new line between. */
  ghost predicate PendingAt(rows: seq<Row>, k: nat, l: int)
    requires k <= |rows|
  {
    exists i: nat :: PendingRow(rows, i, k, l)
  }

  /** A removed row whose charging row comes before `k`. */
  ghost predicate ChargedBefore(rows: seq<Row>, k: nat, l: int, start: int, end: int)
    requires k <= |rows|
  {
    exists i :: 0 <= i < k && ChargedRow(rows, i, start, end) && rows[i].oldLine == Some(l) && NextNew(rows, i) < k
  }

  /** Row `i` removes old line `l` and nothing with a new line comes before `k`. */
  predicate PendingRow(rows: seq<Row>, i: nat, k: nat, l: int)
    requires k <= |rows|
  {
    i < k && rows[i].kind == Del && rows[i].oldLine == Some(l) && NextNew(rows, i) >= k
  }

  lemma PendingStep(rows: seq<Row>, k: nat, l: int)
    requires k < |rows| && DelRowsPlain(rows)
    ensures PendingAt(rows, k + 1, l) <==>
              (rows[k].newLine == None && PendingAt(rows, k, l)) || (rows[k].kind == Del && rows[k].oldLine == Some(l))
  {
    if rows[k].newLine == None && PendingAt(rows, k, l) {
      var i: nat :| PendingRow(rows, i, k, l);
      assert PendingRow(rows, i, k + 1, l);
    }
    if rows[k].kind == Del && rows[k].oldLine == Some(l) {
      assert PendingRow(rows, k, k + 1, l);
    }
    if PendingAt(rows, k + 1, l) {
      var i: nat :| PendingRow(rows, i, k + 1, l);
      assert i < k ==> PendingRow(rows, i, k, l);
    }
  }

  lemma ChargedStep(rows: seq<Row>, k: nat, l: int, start: int, end: int)
    requires k < |rows| && DelRowsPlain(rows)
    ensures ChargedBefore(rows, k + 1, l, start, end) <==>
              ChargedBefore(rows, k, l, start, end) || (Takes(rows[k], start, end) && PendingAt(rows, k, l))
  {
    if Takes(rows[k], start, end) && PendingAt(rows, k, l) {
      var i: nat :| PendingRow(rows, i, k, l);
      assert NextNew(rows, i) == k;
      assert ChargedRow(rows, i, start, end);
    }
    if ChargedBefore(rows, k + 1, l, start, end) {
      var i :| 0 <= i < k + 1 && ChargedRow(rows, i, start, end) && rows[i].oldLine == Some(l)
               && NextNew(rows, i) < k + 1;
      assert NextNew(rows, i) == k ==> PendingRow(rows, i, k, l);
    }
  }

  lemma PendingSteps(rows: seq<Row>, k: nat, next: nat)
    requires k < |rows| && DelRowsPlain(rows) && next == k + 1
    ensures forall l {:trigger PendingAt(rows, next, l)} :: PendingAt(rows, next, l) <==>
              (rows[k].newLine == None && PendingAt(rows, k, l)) || (rows[k].kind == Del && rows[k].oldLine == Some(l))
  {
    forall l {:trigger PendingAt(rows, next, l)}
      ensures PendingAt(rows, next, l) <==>
              (rows[k].newLine == None && PendingAt(rows, k, l)) || (rows[k].kind == Del && rows[k].oldLine == Some(l))
    {
      PendingStep(rows, k, l);
    }
  }

  lemma ChargedSteps(rows: seq<Row>, k: nat, next: nat, start: int, end: int)
    requires k < |rows| && DelRowsPlain(rows) && next == k + 1
    ensures forall l {:trigger ChargedBefore(rows, next, l, start, end)} ::
              ChargedBefore(rows, next, l, start, end) <==>
              ChargedBefore(rows, k, l, start, end) || (Takes(rows[k], start, end) && PendingAt(rows, k, l))
  {
    forall l {:trigger ChargedBefore(rows, next, l, start, end)}
      ensures ChargedBefore(rows, next, l, start, end) <==>
              ChargedBefore(rows, k, l, start, end) || (Takes(rows[k], start, end) && PendingAt(rows, k, l))
    {
      ChargedStep(rows, k, l, start, end);
    }
  }

  lemma ChargedAtEnd(rows: seq<Row>, start: int, end: int)
    ensures forall l :: ChargedBefore(rows, |rows|, l, start, end) <==> Charged(rows, l, start, end)
  {
  }

  lemma {:induction false} NumberedDelsPlain(rows: seq<Row>, o: int, n: int)
    requires Numbered(rows, o, n)
    ensures DelRowsPlain(rows)
    decreases |rows|
  {
    if rows != [] {
      var t := rows[1..];
      match rows[0].kind {
        case Context => NumberedDelsPlain(t, o + 1, n + 1);
        case Del => NumberedDelsPlain(t, o + 1, n);
        case Add => NumberedDelsPlain(t, o, n + 1);
        case Meta => NumberedDelsPlain(t, o, n);
      }
      assert forall i :: 0 < i < |rows| ==> rows[i] == t[i - 1];
    }
  }

  lemma {:induction false} FormedHunk(hunks: seq<Hunk>, o: int, n: int, i: nat)
    requires FormedFrom(hunks, o, n) && i < |hunks|
    ensures HunkFormed(hunks[i]) && DelRowsPlain(hunks[i].rows)
    decreases |hunks|
  {
    var h := hunks[0];
    if i == 0 {
      NumberedDelsPlain(h.rows, OldFirst(h), NewFirst(h));
    } else {
      FormedHunk(hunks[1..], OldFirst(h) + h.oldCount, NewFirst(h) + h.newCount, i - 1);
    }
  }

  /** Min and max over the collected lines. */
  method MinMax(xs: seq<int>) returns (lo: int, hi: int)
    requires xs != []
    ensures lo in xs && hi in xs && forall x :: x in xs ==> lo <= x <= hi
  {
    lo, hi := xs[0], xs[0];
    for i := 0 to |xs|
      invariant lo in xs && hi in xs && forall x :: x in xs[..i] ==> lo <= x <= hi
    {
      assert xs[..i + 1] == xs[..i] + [xs[i]];
      if xs[i] < lo {
        lo := xs[i];
      }
      if xs[i] > hi {
        hi := xs[i];
      }
    }
    assert xs[..|xs|] == xs;
  }

  /** `r` is the smallest range holding exactly what belongs to start..end. */
  ghost predicate IsSpan(hunks: seq<Hunk>, start: int, end: int, r: Option<(int, int)>) {
    match r
    case None => forall l :: !Belongs(hunks, start, end, l)
    case Some((lo, hi)) =>
      && Belongs(hunks, start, end, lo) && Belongs(hunks, start, end, hi)
      && forall l :: Belongs(hunks, start, end, l) ==> lo <= l <= hi
  }

  method OldSpan(start: int, end: int, hunks: seq<Hunk>) returns (r: Option<(int, int)>)
    ensures Formed(hunks) ==> IsSpan(hunks, start, end, r)
  {
    var kept: seq<int> := [];
    var line := start;
    while line <= end
      invariant start <= line && line <= (if start <= end then end + 1 else start)
      invariant Formed(hunks) ==> forall l :: l in kept <==> KeptIn(hunks, start, line, l)
    {
      var at := BackLine(line, hunks);
      assert Formed(hunks) ==>
               forall l :: KeptIn(hunks, start, line + 1, l) <==> KeptIn(hunks, start, line, l) || at == Some(l);
      if at.Some? {
        kept := kept + [at.value];
      }
      line := line + 1;
    }
    var gone: seq<int> := [];
    for i := 0 to |hunks|
      invariant Formed(hunks) ==> forall l :: l in gone <==> GoneIn(hunks, i, start, end, l)
    {
      var out := RemovedInSpan(hunks[i].rows, start, end);
      if Formed(hunks) {
        FormedHunk(hunks, 1, 1, i);
      }
      gone := gone + out;
    }
    var all := kept + gone;
    assert forall l :: KeptIn(hunks, start, line, l) <==> KeptIn(hunks, start, end + 1, l);
    assert Formed(hunks) ==> forall l :: l in all <==> Belongs(hunks, start, end, l);
    if all == [] {
      return None;
    }
    var lo, hi := MinMax(all);
    return Some((lo, hi));
  }

  // ----- what belongs to a span, by the line maps -----

  /** The row of a formed hunk that has new line `m` adds it exactly when `m` has no old line. */
  lemma AddedIffNoOldLine(hunks: seq<Hunk>, i: nat, j: nat, m: int)
    requires Formed(hunks) && i < |hunks| && j < |hunks[i].rows| && hunks[i].rows[j].newLine == Some(m)
    ensures hunks[i].rows[j].kind == Add <==> Backward(hunks, m) == None
  {
    var h, r := hunks[i], hunks[i].rows[j];
    FormedHunk(hunks, 1, 1, i);
    RowKinds(h.rows, OldFirst(h), NewFirst(h), j);
    DefinedExactlyOnSurvivors(hunks, m);
    if r.kind == Add {
      assert IsAddOf(r, m);
    } else {
      ContextRowsAlign(hunks, i, j, r.oldLine.value, m);
    }
  }

  lemma {:induction false} RowKinds(rows: seq<Row>, o: int, n: int, j: nat)
    requires Numbered(rows, o, n) && j < |rows|
    ensures match rows[j].kind
            case Context => rows[j].oldLine.Some? && rows[j].newLine.Some?
            case Del => rows[j].oldLine.Some? && rows[j].newLine == None
            case Add => rows[j].oldLine == None && rows[j].newLine.Some?
            case Meta => rows[j].oldLine == None && rows[j].newLine == None
    decreases |rows|
  {
    if j > 0 {
      match rows[0].kind
      case Context => RowKinds(rows[1..], o + 1, n + 1, j - 1);
      case Del => RowKinds(rows[1..], o + 1, n, j - 1);
      case Add => RowKinds(rows[1..], o, n + 1, j - 1);
      case Meta => RowKinds(rows[1..], o, n, j - 1);
    }
  }

  /** Some hunk removes `l` and goes on, after the removed run, with new line `m`. */
  ghost predicate RunAhead(hunks: seq<Hunk>, l: int, m: int) {
    exists i, kind :: 0 <= i < |hunks| && RemovedAhead(hunks[i].rows, l, m, kind)
  }

  /**
   * An old line belongs to new lines start..end exactly when its image is one of them, or it was removed
   * and the hunk's next line is one of them, the first only if it is not itself an old line.
   */
  lemma BelongsExactly(hunks: seq<Hunk>, start: int, end: int, l: int)
    requires Formed(hunks)
    ensures Belongs(hunks, start, end, l) <==>
              || (Forward(hunks, l).Some? && start <= Forward(hunks, l).value <= end)
              || exists m :: start <= m <= end && RunAhead(hunks, l, m) && (m > start || Backward(hunks, m) == None)
  {
    KeptByImage(hunks, start, end, l);
    GoneByRun(hunks, start, end, l);
  }

  lemma KeptByImage(hunks: seq<Hunk>, start: int, end: int, l: int)
    ensures KeptIn(hunks, start, end + 1, l) <==> Forward(hunks, l).Some? && start <= Forward(hunks, l).value <= end
  {
    if m :| start <= m < end + 1 && Backward(hunks, m) == Some(l) {
      ForwardBackwardInverse(hunks, l, m);
    }
    if Forward(hunks, l).Some? {
      ForwardBackwardInverse(hunks, l, Forward(hunks, l).value);
    }
  }

  lemma AheadKind(hunks: seq<Hunk>, i: nat, l: int, m: int, kind: Kind)
    requires Formed(hunks) && i < |hunks| && RemovedAhead(hunks[i].rows, l, m, kind)
    ensures kind == Add <==> Backward(hunks, m) == None
  {
    var j, k :| 0 <= j < k < |hunks[i].rows| && AheadOf(hunks[i].rows, j, k, l, m, kind);
    AddedIffNoOldLine(hunks, i, k, m);
  }

  lemma GoneByRun(hunks: seq<Hunk>, start: int, end: int, l: int)
    requires Formed(hunks)
    ensures GoneIn(hunks, |hunks|, start, end, l) <==>
              exists m :: start <= m <= end && RunAhead(hunks, l, m) && (m > start || Backward(hunks, m) == None)
  {
    if i :| 0 <= i < |hunks| && Charged(hunks[i].rows, l, start, end) {
      FormedHunk(hunks, 1, 1, i);
      ChargedByRows(hunks[i].rows, l, start, end);
      var m, kind :| RemovedAhead(hunks[i].rows, l, m, kind) && start <= m <= end && (m > start || kind == Add);
      AheadKind(hunks, i, l, m, kind);
      assert RunAhead(hunks, l, m);
    }
    if m :| start <= m <= end && RunAhead(hunks, l, m) && (m > start || Backward(hunks, m) == None) {
      var i, kind :| 0 <= i < |hunks| && RemovedAhead(hunks[i].rows, l, m, kind);
      FormedHunk(hunks, 1, 1, i);
      AheadKind(hunks, i, l, m, kind);
      ChargedByRows(hunks[i].rows, l, start, end);
    }
  }

  // ----- spans keep their order -----

  /** How far the old counter has come once new row `m` is written. */
  function Reached(ops: seq<Op>, o: int, n: int, m: int): int {
    if m < n then o - (n - 1 - m)
    else if ops == [] then o + (m - n) + 1
    else
      match ops[0]
      case Keep => Reached(ops[1..], o + 1, n + 1, m)
      case Ins => Reached(ops[1..], o, n + 1, m)
      case Cut => Reached(ops[1..], o + 1, n, m)
  }

  function ReachedBy(hunks: seq<Hunk>, m: int): int {
    Reached(Ops(hunks, 1), 1, 1, m)
  }

  lemma {:induction false} ReachedFrom(ops: seq<Op>, o: int, n: int, m: int)
    ensures m >= n - 1 ==> Reached(ops, o, n, m) >= o
    decreases |ops|
  {
    if ops != [] && m >= n {
      match ops[0]
      case Keep => ReachedFrom(ops[1..], o + 1, n + 1, m);
      case Ins => ReachedFrom(ops[1..], o, n + 1, m);
      case Cut => ReachedFrom(ops[1..], o + 1, n, m);
    }
  }

  lemma {:induction false} ReachedMonotone(ops: seq<Op>, o: int, n: int, m: int, k: int)
    requires m <= k
    ensures Reached(ops, o, n, m) <= Reached(ops, o, n, k)
    decreases |ops|
  {
    ReachedFrom(ops, o, n, k);
    if ops != [] && m >= n {
      match ops[0]
      case Keep => ReachedMonotone(ops[1..], o + 1, n + 1, m, k);
      case Ins => ReachedMonotone(ops[1..], o, n + 1, m, k);
      case Cut => ReachedMonotone(ops[1..], o + 1, n, m, k);
    }
  }

  /** A kept line lies in the window of its own new line. */
  lemma {:induction false} KeptInWindow(ops: seq<Op>, o: int, n: int, m: int, l: int)
    requires Walk(Flip(ops), n, o, m) == Some(l)
    ensures Reached(ops, o, n, m - 1) <= l < Reached(ops, o, n, m)
    decreases |ops|
  {
    if ops != [] && m >= n {
      assert Flip(ops)[1..] == Flip(ops[1..]);
      match ops[0] {
        case Keep =>
          if m > n {
            KeptInWindow(ops[1..], o + 1, n + 1, m, l);
          }
        case Ins => KeptInWindow(ops[1..], o, n + 1, m, l);
        case Cut =>
          KeptInWindow(ops[1..], o + 1, n, m, l);
      }
    }
  }

  /** The old counter at new line `m`, read from after a gap. */
  lemma {:induction false} ReachedKeeps(count: nat, rest: seq<Op>, o: int, n: int, m: int)
    requires m >= n + count - 1
    ensures Reached(Keeps(count) + rest, o, n, m) == Reached(rest, o + count, n + count, m)
    decreases count
  {
    if count == 0 {
      assert Keeps(0) + rest == rest;
    } else {
      assert (Keeps(count) + rest)[1..] == Keeps(count - 1) + rest;
      ReachedKeeps(count - 1, rest, o + 1, n + 1, m);
    }
  }

  function OldStep(op: Op): nat { if op == Ins then 0 else 1 }
  function NewStep(op: Op): nat { if op == Cut then 0 else 1 }

  /** The same, read from after one step; a removed line has not been passed yet when the new
      line before it is written. */
  lemma ReachedCons(op: Op, tail: seq<Op>, o: int, n: int, m: int)
    requires m >= n + NewStep(op) - 1
    ensures Reached([op] + tail, o, n, m) <= Reached(tail, o + OldStep(op), n + NewStep(op), m)
    ensures m >= n + NewStep(op) ==>
              Reached([op] + tail, o, n, m) == Reached(tail, o + OldStep(op), n + NewStep(op), m)
  {
    assert ([op] + tail)[1..] == tail;
  }

  function OpOf(r: Row): Op
    requires r.kind != Meta
  {
    if r.kind == Context then Keep else if r.kind == Add then Ins else Cut
  }

  lemma OpsOfCons(rows: seq<Row>, rest: seq<Op>)
    requires rows != []
    ensures OpsOfRows(rows) + rest ==
            if rows[0].kind == Meta then OpsOfRows(rows[1..]) + rest
            else [OpOf(rows[0])] + (OpsOfRows(rows[1..]) + rest)
  {
  }

  /** The same, read from after a hunk. */
  lemma {:induction false} ReachedRows(rows: seq<Row>, rest: seq<Op>, o: int, n: int, m: int)
    requires m >= n + NewRows(rows) - 1
    ensures Reached(OpsOfRows(rows) + rest, o, n, m) <= Reached(rest, o + OldRows(rows), n + NewRows(rows), m)
    ensures m >= n + NewRows(rows) ==>
              Reached(OpsOfRows(rows) + rest, o, n, m) == Reached(rest, o + OldRows(rows), n + NewRows(rows), m)
    decreases |rows|
  {
    if rows == [] {
      assert OpsOfRows(rows) + rest == rest;
    } else {
      OpsOfCons(rows, rest);
      if rows[0].kind == Meta {
        ReachedRows(rows[1..], rest, o, n, m);
      } else {
        var op := OpOf(rows[0]);
        ReachedCons(op, OpsOfRows(rows[1..]) + rest, o, n, m);
        ReachedRows(rows[1..], rest, o + OldStep(op), n + NewStep(op), m);
      }
    }
  }

  /** The next new line after removed rows is the one the counter stands at. */
  lemma {:induction false} NextNewNumber(rows: seq<Row>, o: int, n: int)
    requires Numbered(rows, o, n) && NextNew(rows, 0) < |rows|
    ensures rows[NextNew(rows, 0)].newLine == Some(n)
    decreases |rows|
  {
    if rows[0].newLine == None {
      NextNewTail(rows, 1);
      if rows[0].kind == Del {
        NextNewNumber(rows[1..], o + 1, n);
      } else {
        NextNewNumber(rows[1..], o, n);
      }
    }
  }

  lemma {:induction false} NextNewTail(rows: seq<Row>, i: nat)
    requires 0 < i <= |rows|
    ensures NextNew(rows, i) == NextNew(rows[1..], i - 1) + 1
    decreases |rows| - i
  {
    if i < |rows| && rows[i].newLine == None {
      NextNewTail(rows, i + 1);
    }
  }

  ghost predicate InWindow(ops: seq<Op>, o: int, n: int, l: int, m: int) {
    m >= n && Reached(ops, o, n, m - 1) <= l < Reached(ops, o, n, m)
  }

  lemma WindowBeforeStep(op: Op, tail: seq<Op>, o: int, n: int, l: int, m: int)
    requires InWindow(tail, o + OldStep(op), n + NewStep(op), l, m)
    ensures InWindow([op] + tail, o, n, l, m)
  {
    ReachedCons(op, tail, o, n, m);
    ReachedCons(op, tail, o, n, m - 1);
  }

  lemma FirstCutInWindow(tail: seq<Op>, o: int, n: int)
    ensures InWindow([Cut] + tail, o, n, o, n)
  {
    ReachedCons(Cut, tail, o, n, n);
    ReachedFrom(tail, o + 1, n, n);
  }

  /** Numbering goes on after the first row. */
  lemma NumberedTail(rows: seq<Row>, o: int, n: int)
    requires rows != [] && Numbered(rows, o, n)
    ensures if rows[0].kind == Meta then Numbered(rows[1..], o, n)
            else Numbered(rows[1..], o + OldStep(OpOf(rows[0])), n + NewStep(OpOf(rows[0])))
    ensures rows[0].kind == Del ==> rows[0].oldLine == Some(o)
  {
  }

  /** Row `i` removes old line `l`, and the next row with a new line is that of `m`. */
  predicate RunBefore(rows: seq<Row>, i: nat, l: int, m: int) {
    && i < |rows| && rows[i].kind == Del && rows[i].oldLine == Some(l)
    && NextNew(rows, i) < |rows| && rows[NextNew(rows, i)].newLine == Some(m)
  }

  lemma RunBeforeFirst(rows: seq<Row>, o: int, n: int, l: int, m: int)
    requires Numbered(rows, o, n) && RunBefore(rows, 0, l, m)
    ensures rows != [] && rows[0].kind == Del && l == o && m == n
  {
    NextNewNumber(rows, o, n);
  }

  lemma RunBeforeTail(rows: seq<Row>, i: nat, l: int, m: int)
    requires i > 0 && RunBefore(rows, i, l, m)
    ensures RunBefore(rows[1..], i - 1, l, m)
  {
    NextNewTail(rows, i);
  }

  /** A removed line charged to new line `m` lies in the window of `m`. */
  lemma {:induction false} ChargedRowInWindow(rows: seq<Row>, rest: seq<Op>, o: int, n: int, i: nat, l: int, m: int)
    requires Numbered(rows, o, n) && RunBefore(rows, i, l, m)
    ensures InWindow(OpsOfRows(rows) + rest, o, n, l, m)
    decreases |rows|
  {
    OpsOfCons(rows, rest);
    NumberedTail(rows, o, n);
    if i == 0 {
      RunBeforeFirst(rows, o, n, l, m);
      FirstCutInWindow(OpsOfRows(rows[1..]) + rest, o, n);
    } else {
      RunBeforeTail(rows, i, l, m);
      if rows[0].kind == Meta {
        ChargedRowInWindow(rows[1..], rest, o, n, i - 1, l, m);
      } else {
        var op := OpOf(rows[0]);
        ChargedRowInWindow(rows[1..], rest, o + OldStep(op), n + NewStep(op), i - 1, l, m);
        WindowBeforeStep(op, OpsOfRows(rows[1..]) + rest, o, n, l, m);
      }
    }
  }

  /** A window seen after a gap and a hunk is a window seen before them. */
  lemma WindowBefore(h: Hunk, rest: seq<Op>, o: int, n: int, l: int, m: int)
    requires HunkFormed(h) && o <= OldFirst(h) && OldFirst(h) - o == NewFirst(h) - n
    requires InWindow(rest, OldFirst(h) + h.oldCount, NewFirst(h) + h.newCount, l, m)
    ensures InWindow(OpsOfRows(h.rows) + rest, OldFirst(h), NewFirst(h), l, m)
  {
    ReachedRows(h.rows, rest, OldFirst(h), NewFirst(h), m);
    ReachedRows(h.rows, rest, OldFirst(h), NewFirst(h), m - 1);
  }

  lemma WindowBeforeGap(gap: nat, body: seq<Op>, o: int, n: int, l: int, m: int)
    requires InWindow(body, o + gap, n + gap, l, m)
    ensures InWindow(Keeps(gap) + body, o, n, l, m)
  {
    ReachedKeeps(gap, body, o, n, m);
    ReachedKeeps(gap, body, o, n, m - 1);
  }

  lemma {:induction false} ChargedInWindow(hunks: seq<Hunk>, o: int, n: int, i: nat, j: nat, l: int, m: int)
    requires FormedFrom(hunks, o, n) && i < |hunks| && RunBefore(hunks[i].rows, j, l, m)
    ensures InWindow(Ops(hunks, o), o, n, l, m)
    decreases |hunks|
  {
    var h, rest := hunks[0], Ops(hunks[1..], OldFirst(hunks[0]) + hunks[0].oldCount);
    if i == 0 {
      ChargedRowInWindow(h.rows, rest, OldFirst(h), NewFirst(h), j, l, m);
    } else {
      ChargedInWindow(hunks[1..], OldFirst(h) + h.oldCount, NewFirst(h) + h.newCount, i - 1, j, l, m);
      WindowBefore(h, rest, o, n, l, m);
    }
    WindowBeforeGap(OldFirst(h) - o, OpsOfRows(h.rows) + rest, o, n, l, m);
    OpsSplit(hunks, o);
  }

  /** Everything that belongs to start..end lies between what the alignment has passed before
      `start` and after `end`. */
  lemma BelongsInWindow(hunks: seq<Hunk>, start: int, end: int, l: int)
    requires Formed(hunks) && Belongs(hunks, start, end, l)
    ensures start <= end && ReachedBy(hunks, start - 1) <= l < ReachedBy(hunks, end)
  {
    var ops := Ops(hunks, 1);
    var m: int;
    if KeptIn(hunks, start, end + 1, l) {
      m :| start <= m < end + 1 && Backward(hunks, m) == Some(l);
      KeptInWindow(ops, 1, 1, m, l);
    } else {
      var i :| 0 <= i < |hunks| && Charged(hunks[i].rows, l, start, end);
      var j :| 0 <= j < |hunks[i].rows| && ChargedRow(hunks[i].rows, j, start, end)
               && hunks[i].rows[j].oldLine == Some(l);
      m := hunks[i].rows[NextNew(hunks[i].rows, j)].newLine.value;
      ChargedInWindow(hunks, 1, 1, i, j, l, m);
    }
    ReachedMonotone(ops, 1, 1, start - 1, m - 1);
    ReachedMonotone(ops, 1, 1, m, end);
  }

  /** The old span covers every old line whose image is a line of the new span. */
  lemma SpanCoversImages(hunks: seq<Hunk>, start: int, end: int, r: Option<(int, int)>, l: int)
    requires Formed(hunks) && IsSpan(hunks, start, end, r)
    requires Forward(hunks, l).Some? && start <= Forward(hunks, l).value <= end
    ensures r.Some? && r.value.0 <= l <= r.value.1
  {
    ForwardBackwardInverse(hunks, l, Forward(hunks, l).value);
    assert KeptIn(hunks, start, end + 1, l);
    assert Belongs(hunks, start, end, l);
  }

  /** Disjoint new spans in order have disjoint old spans in order, and a removed line is
      charged to at most one of them. */
  lemma SpansKeepOrder(hunks: seq<Hunk>, a: int, b: int, c: int, d: int, r: Option<(int, int)>, q: Option<(int, int)>)
    requires Formed(hunks) && b < c && IsSpan(hunks, a, b, r) && IsSpan(hunks, c, d, q)
    ensures r.Some? && q.Some? ==> r.value.1 < q.value.0
    ensures forall l :: !(Belongs(hunks, a, b, l) && Belongs(hunks, c, d, l))
  {
    forall l, k | Belongs(hunks, a, b, l) && Belongs(hunks, c, d, k) ensures l < k {
      BelongsInWindow(hunks, a, b, l);
      BelongsInWindow(hunks, c, d, k);
      ReachedMonotone(Ops(hunks, 1), 1, 1, b, c - 1);
    }
  }

  // ----- through both patches -----

  /** A touched function: its path, its lines in the working tree, and whether it is new. */
  datatype Touched = Touched(path: string, line: int, endLine: int, added: bool)

  /** What `baseSpan` answers: `mid` is the span at HEAD on the way. */
  ghost predicate IsBaseSpan(s: SinceBase, fn: Touched, mid: Option<(int, int)>, r: Option<(int, int)>) {
    if fn.added || fn.endLine == 0 then r == None
    else
      && IsSpan(Working(s, fn.path), fn.line, fn.endLine, mid)
      && (match mid
          case None => r == None
          case Some((lo, hi)) => IsSpan(Committed(s, fn.path), lo, hi, r))
  }

  /** Through the working hunks at the path first, then through the committed hunks at the name at HEAD. */
  method BaseSpan(s: SinceBase, fn: Touched) returns (r: Option<(int, int)>, ghost mid: Option<(int, int)>)
    ensures FormedSince(s, fn.path) ==> IsBaseSpan(s, fn, mid, r)
    ensures fn.added || fn.endLine == 0 ==> r == None
    ensures !fn.added && fn.endLine != 0 ==>
              forall c, w :: Patches(s, fn.path, c, w) && Formed(c) && Formed(w) ==>
                && IsSpan(w, fn.line, fn.endLine, mid)
                && (match mid case None => r == None case Some((lo, hi)) => IsSpan(c, lo, hi, r))
  {
    forall c, w | Patches(s, fn.path, c, w) ensures c == Committed(s, fn.path) && w == Working(s, fn.path) {
      PatchesAre(s, fn.path, c, w);
    }
    mid := None;
    if fn.added || fn.endLine == 0 {
      return None, None;
    }
    var at := OldSpan(fn.line, fn.endLine, Working(s, fn.path));
    mid := at;
    if at == None {
      return None, at;
    }
    r := OldSpan(at.value.0, at.value.1, Committed(s, fn.path));
  }

  /** Every base line that reaches the function's lines is in its base span. */
  lemma BaseSpanCovers(s: SinceBase, fn: Touched, mid: Option<(int, int)>, r: Option<(int, int)>, l: int)
    requires FormedSince(s, fn.path) && IsBaseSpan(s, fn, mid, r) && !fn.added && fn.endLine != 0
    requires HeadOf(s, fn.path, l).Some? && fn.line <= HeadOf(s, fn.path, l).value <= fn.endLine
    ensures r.Some? && r.value.0 <= l <= r.value.1
  {
    var at := Forward(Committed(s, fn.path), l).value;
    SpanCoversImages(Working(s, fn.path), fn.line, fn.endLine, mid, at);
    SpanCoversImages(Committed(s, fn.path), mid.value.0, mid.value.1, r, l);
  }

  /** Functions one after the other in the working tree have base spans one after the other. */
  lemma BaseSpansKeepOrder(s: SinceBase, f: Touched, g: Touched,
                           fm: Option<(int, int)>, fr: Option<(int, int)>,
                           gm: Option<(int, int)>, gr: Option<(int, int)>)
    requires f.path == g.path && FormedSince(s, f.path) && f.endLine < g.line
    requires IsBaseSpan(s, f, fm, fr) && IsBaseSpan(s, g, gm, gr) && fr.Some? && gr.Some?
    ensures fr.value.1 < gr.value.0
  {
    SpansKeepOrder(Working(s, f.path), f.line, f.endLine, g.line, g.endLine, fm, gm);
    SpansKeepOrder(Committed(s, f.path), fm.value.0, fm.value.1, gm.value.0, gm.value.1, fr, gr);
  }
}
