/** What a unified diff means: the row-by-row alignment of an old text with a new one.

    A hunk list is well formed when each header agrees with its body, its rows are numbered as
    the parser numbers them, and the unchanged lines between hunks are as many on one side as
    on the other.  An empty range names the line before it (POSIX.1-2017, `diff`, "Diff -u or
    -U Output Format").
 */
module Patch {
  import opened Options

  datatype Kind = Context | Add | Del | Meta

  /** `Meta` is the "no newline at end of file" marker, a line of neither file. */
  datatype Row = Row(kind: Kind, text: string, oldLine: Option<int>, newLine: Option<int>)

  datatype Hunk = Hunk(oldStart: int, oldCount: int, newStart: int, newCount: int, rows: seq<Row>)

  /** The first line of a side that a hunk moves. */
  function FirstShifted(start: int, count: int): int {
    if count == 0 then start + 1 else start
  }

  function OldFirst(h: Hunk): int { FirstShifted(h.oldStart, h.oldCount) }
  function NewFirst(h: Hunk): int { FirstShifted(h.newStart, h.newCount) }

  // ----- well-formed hunks -----

  function OldRows(rows: seq<Row>): nat {
    if rows == [] then 0
    else OldRows(rows[1..]) + if rows[0].kind == Context || rows[0].kind == Del then 1 else 0
  }

  function NewRows(rows: seq<Row>): nat {
    if rows == [] then 0
    else NewRows(rows[1..]) + if rows[0].kind == Context || rows[0].kind == Add then 1 else 0
  }

  /** The rows carry the line numbers that counting from `o` and `n` gives them. */
  predicate Numbered(rows: seq<Row>, o: int, n: int) {
    if rows == [] then true else
    match rows[0].kind
    case Context => rows[0].oldLine == Some(o) && rows[0].newLine == Some(n) && Numbered(rows[1..], o + 1, n + 1)
    case Del => rows[0].oldLine == Some(o) && rows[0].newLine == None && Numbered(rows[1..], o + 1, n)
    case Add => rows[0].oldLine == None && rows[0].newLine == Some(n) && Numbered(rows[1..], o, n + 1)
    case Meta => rows[0].oldLine == None && rows[0].newLine == None && Numbered(rows[1..], o, n)
  }

  predicate HunkFormed(h: Hunk) {
    && h.oldCount == OldRows(h.rows) && h.newCount == NewRows(h.rows)
    && Numbered(h.rows, OldFirst(h), NewFirst(h))
  }

  /** The hunks, in order, from old line `o` and new line `n` on. */
  predicate FormedFrom(hunks: seq<Hunk>, o: int, n: int) {
    if hunks == [] then true else
    var h := hunks[0];
    && HunkFormed(h)
    && o <= OldFirst(h) && OldFirst(h) - o == NewFirst(h) - n
    && FormedFrom(hunks[1..], OldFirst(h) + h.oldCount, NewFirst(h) + h.newCount)
  }

  predicate Formed(hunks: seq<Hunk>) {
    FormedFrom(hunks, 1, 1)
  }

  // ----- the reference: one row at a time -----

  /** One step of the alignment: a line both texts have, a new one, an old one. */
  datatype Op = Keep | Ins | Cut

  function Keeps(count: nat): seq<Op> {
    if count == 0 then [] else [Keep] + Keeps(count - 1)
  }

  function OpsOfRows(rows: seq<Row>): seq<Op> {
    if rows == [] then [] else
    (match rows[0].kind
     case Context => [Keep]
     case Add => [Ins]
     case Del => [Cut]
     case Meta => []) + OpsOfRows(rows[1..])
  }

  /** The alignment from old line `o` on; after it every line is kept. */
  function Ops(hunks: seq<Hunk>, o: int): seq<Op> {
    if hunks == [] then [] else
    var h := hunks[0];
    Keeps(if OldFirst(h) >= o then OldFirst(h) - o else 0) + OpsOfRows(h.rows)
    + Ops(hunks[1..], OldFirst(h) + h.oldCount)
  }

  /** Where old line `l` ends up, by walking the alignment with both counters. */
  function Walk(ops: seq<Op>, o: int, n: int, l: int): Option<int> {
    if ops == [] || l < o then Some(l - o + n) else
    match ops[0]
    case Keep => if l == o then Some(n) else Walk(ops[1..], o + 1, n + 1, l)
    case Cut => if l == o then None else Walk(ops[1..], o + 1, n, l)
    case Ins => Walk(ops[1..], o, n + 1, l)
  }

  /** The same alignment read from the new side. */
  function Flip(ops: seq<Op>): (r: seq<Op>)
    ensures |r| == |ops|
  {
    if ops == [] then [] else
    [match ops[0] case Keep => Keep case Ins => Cut case Cut => Ins] + Flip(ops[1..])
  }

  function Forward(hunks: seq<Hunk>, l: int): Option<int> {
    Walk(Ops(hunks, 1), 1, 1, l)
  }

  function Backward(hunks: seq<Hunk>, m: int): Option<int> {
    Walk(Flip(Ops(hunks, 1)), 1, 1, m)
  }

  /** A row of the patch removes old line `l`; one adds new line `m`. */
  predicate Removes(hunks: seq<Hunk>, l: int) {
    exists i, j :: 0 <= i < |hunks| && 0 <= j < |hunks[i].rows| && IsDelOf(hunks[i].rows[j], l)
  }

  predicate Adds(hunks: seq<Hunk>, m: int) {
    exists i, j :: 0 <= i < |hunks| && 0 <= j < |hunks[i].rows| && IsAddOf(hunks[i].rows[j], m)
  }

  predicate IsDelOf(r: Row, l: int) { r.kind == Del && r.oldLine == Some(l) }
  predicate IsAddOf(r: Row, m: int) { r.kind == Add && r.newLine == Some(m) }

  // ----- the alignment is a strictly monotone bijection between the surviving lines -----

  lemma {:induction false} WalkRange(ops: seq<Op>, o: int, n: int, l: int)
    ensures l >= o && Walk(ops, o, n, l).Some? ==> Walk(ops, o, n, l).value >= n
    ensures l < o ==> Walk(ops, o, n, l) == Some(l - o + n)
    decreases |ops|
  {
    if ops != [] && l >= o {
      match ops[0]
      case Keep => WalkRange(ops[1..], o + 1, n + 1, l);
      case Cut => WalkRange(ops[1..], o + 1, n, l);
      case Ins => WalkRange(ops[1..], o, n + 1, l);
    }
  }

  lemma {:induction false} WalkMonotone(ops: seq<Op>, o: int, n: int, l: int, k: int)
    requires l < k && Walk(ops, o, n, l).Some? && Walk(ops, o, n, k).Some?
    ensures Walk(ops, o, n, l).value < Walk(ops, o, n, k).value
    decreases |ops|
  {
    WalkRange(ops, o, n, k);
    if ops != [] && l >= o {
      match ops[0] {
        case Keep =>
          WalkRange(ops[1..], o + 1, n + 1, k);
          if l > o {
            WalkMonotone(ops[1..], o + 1, n + 1, l, k);
          }
        case Cut => WalkMonotone(ops[1..], o + 1, n, l, k);
        case Ins => WalkMonotone(ops[1..], o, n + 1, l, k);
      }
    }
  }

  lemma {:induction false} WalkInverse(ops: seq<Op>, o: int, n: int, l: int, m: int)
    ensures Walk(ops, o, n, l) == Some(m) <==> Walk(Flip(ops), n, o, m) == Some(l)
    decreases |ops|
  {
    WalkRange(ops, o, n, l);
    WalkRange(Flip(ops), n, o, m);
    if ops != [] {
      assert Flip(ops)[1..] == Flip(ops[1..]);
      match ops[0] {
        case Keep =>
          WalkRange(ops[1..], o + 1, n + 1, l);
          WalkRange(Flip(ops[1..]), n + 1, o + 1, m);
          WalkInverse(ops[1..], o + 1, n + 1, l, m);
        case Cut =>
          WalkRange(Flip(ops[1..]), n, o + 1, m);
          WalkInverse(ops[1..], o + 1, n, l, m);
        case Ins =>
          WalkRange(ops[1..], o, n + 1, l);
          WalkInverse(ops[1..], o, n + 1, l, m);
      }
    }
  }

  /** Forward and backward undo each other on every line, whatever the patch. */
  lemma ForwardBackwardInverse(hunks: seq<Hunk>, l: int, m: int)
    ensures Forward(hunks, l) == Some(m) <==> Backward(hunks, m) == Some(l)
  {
    WalkInverse(Ops(hunks, 1), 1, 1, l, m);
  }

  /** Both are strictly monotone where they are defined. */
  lemma ForwardBackwardMonotone(hunks: seq<Hunk>, l: int, k: int)
    requires l < k
    ensures Forward(hunks, l).Some? && Forward(hunks, k).Some? ==> Forward(hunks, l).value < Forward(hunks, k).value
    ensures Backward(hunks, l).Some? && Backward(hunks, k).Some? ==> Backward(hunks, l).value < Backward(hunks, k).value
  {
    if Forward(hunks, l).Some? && Forward(hunks, k).Some? {
      WalkMonotone(Ops(hunks, 1), 1, 1, l, k);
    }
    if Backward(hunks, l).Some? && Backward(hunks, k).Some? {
      WalkMonotone(Flip(Ops(hunks, 1)), 1, 1, l, k);
    }
  }

  // ----- walking over a gap and over a hunk's rows -----

  /** The context row of old line `l`, read as the source reads it: the first that matches. */
  function ContextOf(rows: seq<Row>, l: int, fromNew: bool): Option<int> {
    if rows == [] then None
    else if rows[0].kind == Context && rows[0].oldLine.Some? && rows[0].newLine.Some?
            && (if fromNew then rows[0].newLine else rows[0].oldLine) == Some(l) then
      if fromNew then rows[0].oldLine else rows[0].newLine
    else ContextOf(rows[1..], l, fromNew)
  }

  lemma {:induction false} WalkKeeps(count: nat, rest: seq<Op>, o: int, n: int, l: int)
    ensures Walk(Keeps(count) + rest, o, n, l) ==
            if l < o + count then Some(l - o + n) else Walk(rest, o + count, n + count, l)
    decreases count
  {
    if count == 0 {
      assert Keeps(0) + rest == rest;
    } else {
      assert (Keeps(count) + rest)[1..] == Keeps(count - 1) + rest;
      if l > o {
        WalkKeeps(count - 1, rest, o + 1, n + 1, l);
      }
    }
  }

  lemma {:induction false} ContextAbove(rows: seq<Row>, o: int, n: int, l: int)
    requires Numbered(rows, o, n) && l < o
    ensures ContextOf(rows, l, false) == None
    decreases |rows|
  {
    if rows != [] {
      match rows[0].kind
      case Context => ContextAbove(rows[1..], o + 1, n + 1, l);
      case Del => ContextAbove(rows[1..], o + 1, n, l);
      case Add => ContextAbove(rows[1..], o, n + 1, l);
      case Meta => ContextAbove(rows[1..], o, n, l);
    }
  }

  /** The alignment of numbered rows is what looking for a context row finds. */
  lemma {:induction false} WalkRows(rows: seq<Row>, rest: seq<Op>, o: int, n: int, l: int)
    requires Numbered(rows, o, n) && l >= o
    ensures Walk(OpsOfRows(rows) + rest, o, n, l) ==
            if l < o + OldRows(rows) then ContextOf(rows, l, false)
            else Walk(rest, o + OldRows(rows), n + NewRows(rows), l)
    decreases |rows|
  {
    if rows == [] {
      assert OpsOfRows(rows) + rest == rest;
    } else {
      var tail := OpsOfRows(rows[1..]) + rest;
      match rows[0].kind {
        case Context =>
          assert OpsOfRows(rows) + rest == [Keep] + tail;
          if l > o {
            WalkRows(rows[1..], rest, o + 1, n + 1, l);
          }
        case Del =>
          assert OpsOfRows(rows) + rest == [Cut] + tail;
          if l > o {
            WalkRows(rows[1..], rest, o + 1, n, l);
          } else {
            ContextAbove(rows[1..], o + 1, n, l);
          }
        case Add =>
          assert OpsOfRows(rows) + rest == [Ins] + tail;
          WalkRows(rows[1..], rest, o, n + 1, l);
        case Meta =>
          assert OpsOfRows(rows) + rest == tail;
          WalkRows(rows[1..], rest, o, n, l);
      }
    }
  }

  /** The same image one hunk at a time, as the source's loops see it. */
  function Jump(hunks: seq<Hunk>, o: int, n: int, l: int): Option<int> {
    if hunks == [] || l < OldFirst(hunks[0]) then Some(l - o + n)
    else if l < OldFirst(hunks[0]) + hunks[0].oldCount then ContextOf(hunks[0].rows, l, false)
    else Jump(hunks[1..], OldFirst(hunks[0]) + hunks[0].oldCount, NewFirst(hunks[0]) + hunks[0].newCount, l)
  }

  lemma WalkFirstHunk(h: Hunk, rest: seq<Op>, o: int, n: int, l: int)
    requires HunkFormed(h) && o <= OldFirst(h) && OldFirst(h) - o == NewFirst(h) - n
    ensures Walk(Keeps(OldFirst(h) - o) + (OpsOfRows(h.rows) + rest), o, n, l) ==
            if l < OldFirst(h) then Some(l - o + n)
            else if l < OldFirst(h) + h.oldCount then ContextOf(h.rows, l, false)
            else Walk(rest, OldFirst(h) + h.oldCount, NewFirst(h) + h.newCount, l)
  {
    WalkKeeps(OldFirst(h) - o, OpsOfRows(h.rows) + rest, o, n, l);
    if l >= OldFirst(h) {
      WalkRows(h.rows, rest, OldFirst(h), NewFirst(h), l);
    }
  }

  lemma OpsSplit(hunks: seq<Hunk>, o: int)
    requires hunks != [] && o <= OldFirst(hunks[0])
    ensures Ops(hunks, o) ==
            Keeps(OldFirst(hunks[0]) - o)
            + (OpsOfRows(hunks[0].rows) + Ops(hunks[1..], OldFirst(hunks[0]) + hunks[0].oldCount))
  {
  }

  /** Jumping over hunks and walking over rows agree. */
  lemma {:induction false} JumpIsWalk(hunks: seq<Hunk>, o: int, n: int, l: int)
    requires FormedFrom(hunks, o, n)
    ensures Jump(hunks, o, n, l) == Walk(Ops(hunks, o), o, n, l)
    decreases |hunks|
  {
    if hunks != [] {
      var h := hunks[0];
      var rest := Ops(hunks[1..], OldFirst(h) + h.oldCount);
      OpsSplit(hunks, o);
      WalkFirstHunk(h, rest, o, n, l);
      if l >= OldFirst(h) + h.oldCount {
        JumpIsWalk(hunks[1..], OldFirst(h) + h.oldCount, NewFirst(h) + h.newCount, l);
      }
    }
  }
}
