/** `forwardLine`, `backLine` and `headLine`: the loops of change_risk.go against the row
    alignment of `Patch`. */
module LineMap {
  import opened Options
  import opened Patch

  // ----- reading a patch from the other side -----

  function MirrorKind(k: Kind): Kind {
    match k
    case Add => Del
    case Del => Add
    case _ => k
  }

  function MirrorRows(rows: seq<Row>): (r: seq<Row>)
    ensures |r| == |rows|
    ensures forall i :: 0 <= i < |rows| ==>
              r[i] == Row(MirrorKind(rows[i].kind), rows[i].text, rows[i].newLine, rows[i].oldLine)
  {
    if rows == [] then [] else
    [Row(MirrorKind(rows[0].kind), rows[0].text, rows[0].newLine, rows[0].oldLine)] + MirrorRows(rows[1..])
  }

  function MirrorHunk(h: Hunk): Hunk {
    Hunk(h.newStart, h.newCount, h.oldStart, h.oldCount, MirrorRows(h.rows))
  }

  function Mirror(hunks: seq<Hunk>): (r: seq<Hunk>)
    ensures |r| == |hunks|
    ensures forall i :: 0 <= i < |hunks| ==> r[i] == MirrorHunk(hunks[i])
  {
    if hunks == [] then [] else [MirrorHunk(hunks[0])] + Mirror(hunks[1..])
  }

  lemma {:induction false} FlipConcat(a: seq<Op>, b: seq<Op>)
    ensures Flip(a + b) == Flip(a) + Flip(b)
  {
    if a == [] {
      assert a + b == b;
    } else {
      assert (a + b)[1..] == a[1..] + b;
      FlipConcat(a[1..], b);
    }
  }

  lemma {:induction false} FlipKeeps(count: nat)
    ensures Flip(Keeps(count)) == Keeps(count)
  {
    if count > 0 {
      assert Keeps(count)[1..] == Keeps(count - 1);
      FlipKeeps(count - 1);
    }
  }

  lemma {:induction false} MirrorRowsFacts(rows: seq<Row>, o: int, n: int, l: int)
    requires Numbered(rows, o, n)
    ensures Numbered(MirrorRows(rows), n, o)
    ensures OldRows(MirrorRows(rows)) == NewRows(rows) && NewRows(MirrorRows(rows)) == OldRows(rows)
    ensures OpsOfRows(MirrorRows(rows)) == Flip(OpsOfRows(rows))
    ensures ContextOf(MirrorRows(rows), l, false) == ContextOf(rows, l, true)
    decreases |rows|
  {
    if rows != [] {
      var r := rows[0];
      assert MirrorRows(rows)[1..] == MirrorRows(rows[1..]);
      match r.kind
      case Context => MirrorRowsFacts(rows[1..], o + 1, n + 1, l); FlipConcat([Keep], OpsOfRows(rows[1..]));
      case Del => MirrorRowsFacts(rows[1..], o + 1, n, l); FlipConcat([Cut], OpsOfRows(rows[1..]));
      case Add => MirrorRowsFacts(rows[1..], o, n + 1, l); FlipConcat([Ins], OpsOfRows(rows[1..]));
      case Meta => MirrorRowsFacts(rows[1..], o, n, l); FlipConcat([], OpsOfRows(rows[1..]));
    }
  }

  lemma {:induction false} MirrorFormed(hunks: seq<Hunk>, o: int, n: int)
    requires FormedFrom(hunks, o, n)
    ensures FormedFrom(Mirror(hunks), n, o)
    decreases |hunks|
  {
    if hunks != [] {
      var h := hunks[0];
      assert Mirror(hunks)[1..] == Mirror(hunks[1..]);
      MirrorRowsFacts(h.rows, OldFirst(h), NewFirst(h), 0);
      MirrorFormed(hunks[1..], OldFirst(h) + h.oldCount, NewFirst(h) + h.newCount);
    }
  }

  lemma {:induction false} MirrorOps(hunks: seq<Hunk>, o: int, n: int)
    requires FormedFrom(hunks, o, n)
    ensures Ops(Mirror(hunks), n) == Flip(Ops(hunks, o))
    decreases |hunks|
  {
    if hunks != [] {
      var h := hunks[0];
      assert Mirror(hunks)[1..] == Mirror(hunks[1..]);
      MirrorRowsFacts(h.rows, OldFirst(h), NewFirst(h), 0);
      MirrorOps(hunks[1..], OldFirst(h) + h.oldCount, NewFirst(h) + h.newCount);
      var gap, rest := Keeps(OldFirst(h) - o), Ops(hunks[1..], OldFirst(h) + h.oldCount);
      FlipKeeps(OldFirst(h) - o);
      FlipConcat(gap + OpsOfRows(h.rows), rest);
      FlipConcat(gap, OpsOfRows(h.rows));
    }
  }

  /** One hunk's turn in `Jump`, read from the new side. */
  lemma MirrorJump(hunks: seq<Hunk>, o: int, n: int, m: int)
    requires hunks != [] && FormedFrom(hunks, o, n)
    ensures var h := hunks[0];
            Jump(Mirror(hunks), n, o, m) ==
            if m < NewFirst(h) then Some(m - n + o)
            else if m < NewFirst(h) + h.newCount then ContextOf(h.rows, m, true)
            else Jump(Mirror(hunks[1..]), NewFirst(h) + h.newCount, OldFirst(h) + h.oldCount, m)
  {
    var h := hunks[0];
    assert Mirror(hunks)[1..] == Mirror(hunks[1..]);
    MirrorRowsFacts(h.rows, OldFirst(h), NewFirst(h), m);
  }

  /** Going back through a patch is going forward through its mirror. */
  lemma BackwardIsMirroredForward(hunks: seq<Hunk>, m: int)
    requires Formed(hunks)
    ensures Formed(Mirror(hunks)) && Backward(hunks, m) == Forward(Mirror(hunks), m)
  {
    MirrorFormed(hunks, 1, 1);
    MirrorOps(hunks, 1, 1);
  }

  // ----- the loops -----

  method ContextPair(rows: seq<Row>, line: int, fromNew: bool) returns (r: Option<int>)
    ensures r == ContextOf(rows, line, fromNew)
  {
    for i := 0 to |rows|
      invariant ContextOf(rows, line, fromNew) == ContextOf(rows[i..], line, fromNew)
    {
      var row := rows[i];
      if row.kind != Context || row.oldLine == None || row.newLine == None {
        continue;
      }
      if fromNew && row.newLine.value == line {
        return row.oldLine;
      }
      if !fromNew && row.oldLine.value == line {
        return row.newLine;
      }
    }
    return None;
  }

  /** On a well-formed patch the running `shift` computes the alignment. */
  method ForwardLine(line: int, hunks: seq<Hunk>) returns (r: Option<int>)
    ensures Formed(hunks) ==> r == Forward(hunks, line)
  {
    var shift := 0;
    ghost var o, n := 1, 1;
    if Formed(hunks) {
      JumpIsWalk(hunks, 1, 1, line);
    }
    for i := 0 to |hunks|
      invariant shift == n - o
      invariant Formed(hunks) ==>
          FormedFrom(hunks[i..], o, n) && Jump(hunks[i..], o, n, line) == Forward(hunks, line)
    {
      var h := hunks[i];
      assert hunks[i..][1..] == hunks[i + 1..];
      if line < FirstShifted(h.oldStart, h.oldCount) {
        return Some(line + shift);
      }
      if line < h.oldStart + h.oldCount {
        r := ContextPair(h.rows, line, false);
        return;
      }
      shift := shift + h.newCount - h.oldCount;
      if Formed(hunks) {
        o, n := OldFirst(h) + h.oldCount, NewFirst(h) + h.newCount;
      } else {
        n := n + h.newCount - h.oldCount;
      }
    }
    return Some(line + shift);
  }

  method BackLine(line: int, hunks: seq<Hunk>) returns (r: Option<int>)
    ensures Formed(hunks) ==> r == Backward(hunks, line)
  {
    var shift := 0;
    ghost var o, n := 1, 1;
    if Formed(hunks) {
      BackwardIsMirroredForward(hunks, line);
      JumpIsWalk(Mirror(hunks), 1, 1, line);
    }
    for i := 0 to |hunks|
      invariant shift == n - o
      invariant Formed(hunks) ==>
          && FormedFrom(hunks[i..], o, n)
          && Jump(Mirror(hunks[i..]), n, o, line) == Backward(hunks, line)
    {
      var h := hunks[i];
      assert hunks[i..][1..] == hunks[i + 1..];
      if Formed(hunks) {
        MirrorJump(hunks[i..], o, n, line);
      }
      if line < FirstShifted(h.newStart, h.newCount) {
        return Some(line - shift);
      }
      if line < h.newStart + h.newCount {
        r := ContextPair(h.rows, line, true);
        return;
      }
      shift := shift + h.newCount - h.oldCount;
      if Formed(hunks) {
        o, n := OldFirst(h) + h.oldCount, NewFirst(h) + h.newCount;
      } else {
        n := n + h.newCount - h.oldCount;
      }
    }
    return Some(line - shift);
  }

  // ----- exactly the removed lines have no image -----

  lemma {:induction false} ContextOrDel(rows: seq<Row>, o: int, n: int, l: int)
    requires Numbered(rows, o, n)
    ensures ContextOf(rows, l, false) == None && o <= l < o + OldRows(rows) <==>
              exists j :: 0 <= j < |rows| && IsDelOf(rows[j], l)
    decreases |rows|
  {
    if rows != [] {
      var r, t := rows[0], rows[1..];
      match r.kind {
        case Context => ContextOrDel(t, o + 1, n + 1, l);
        case Del => ContextOrDel(t, o + 1, n, l);
        case Add => ContextOrDel(t, o, n + 1, l);
        case Meta => ContextOrDel(t, o, n, l);
      }
      if r.kind == Del && l == o {
        ContextAbove(t, o + 1, n, l);
        assert IsDelOf(rows[0], l);
      }
      assert forall j :: 0 <= j < |t| ==> t[j] == rows[j + 1];
      if j :| 0 <= j < |rows| && IsDelOf(rows[j], l) && j > 0 {
        assert IsDelOf(t[j - 1], l);
      }
    }
  }

  lemma {:induction false} JumpNoneIffRemoved(hunks: seq<Hunk>, o: int, n: int, l: int)
    requires FormedFrom(hunks, o, n)
    ensures Jump(hunks, o, n, l) == None <==> Removes(hunks, l)
    ensures Removes(hunks, l) ==> l >= o
    decreases |hunks|
  {
    if hunks != [] {
      var h, t := hunks[0], hunks[1..];
      ContextOrDel(h.rows, OldFirst(h), NewFirst(h), l);
      JumpNoneIffRemoved(t, OldFirst(h) + h.oldCount, NewFirst(h) + h.newCount, l);
      RemovesSplit(hunks, l);
    }
  }

  lemma RemovesSplit(hunks: seq<Hunk>, l: int)
    requires hunks != []
    ensures Removes(hunks, l) <==>
              (exists j :: 0 <= j < |hunks[0].rows| && IsDelOf(hunks[0].rows[j], l)) || Removes(hunks[1..], l)
  {
    var t := hunks[1..];
    assert forall i :: 0 <= i < |t| ==> t[i] == hunks[i + 1];
    if i, j :| 0 <= i < |hunks| && 0 <= j < |hunks[i].rows| && IsDelOf(hunks[i].rows[j], l) {
      if i > 0 {
        assert IsDelOf(t[i - 1].rows[j], l);
      }
    }
    if i, j :| 0 <= i < |t| && 0 <= j < |t[i].rows| && IsDelOf(t[i].rows[j], l) {
      assert IsDelOf(hunks[i + 1].rows[j], l);
    }
  }

  /** An old line has no new line exactly when a row of the patch removes it, and a new line no
      old one exactly when a row adds it. */
  lemma DefinedExactlyOnSurvivors(hunks: seq<Hunk>, l: int)
    requires Formed(hunks)
    ensures Forward(hunks, l) == None <==> Removes(hunks, l)
    ensures Backward(hunks, l) == None <==> Adds(hunks, l)
  {
    JumpIsWalk(hunks, 1, 1, l);
    JumpNoneIffRemoved(hunks, 1, 1, l);
    BackwardIsMirroredForward(hunks, l);
    JumpIsWalk(Mirror(hunks), 1, 1, l);
    JumpNoneIffRemoved(Mirror(hunks), 1, 1, l);
    AddsIsMirroredRemoves(hunks, l);
  }

  lemma AddsIsMirroredRemoves(hunks: seq<Hunk>, l: int)
    ensures Adds(hunks, l) <==> Removes(Mirror(hunks), l)
  {
    if i, j :| 0 <= i < |hunks| && 0 <= j < |hunks[i].rows| && IsAddOf(hunks[i].rows[j], l) {
      assert IsDelOf(Mirror(hunks)[i].rows[j], l);
    }
    if i, j :| 0 <= i < |Mirror(hunks)| && 0 <= j < |Mirror(hunks)[i].rows| && IsDelOf(Mirror(hunks)[i].rows[j], l) {
      assert IsAddOf(hunks[i].rows[j], l);
    }
  }

  // ----- the text a line carries -----

  function NewTexts(rows: seq<Row>): (r: seq<string>)
    ensures |r| == NewRows(rows)
  {
    if rows == [] then []
    else (if rows[0].kind == Context || rows[0].kind == Add then [rows[0].text] else []) + NewTexts(rows[1..])
  }

  /** The text `a` has the line `x` at position `i`, counted from 0. */
  predicate Carries(a: seq<string>, i: int, x: string) {
    0 <= i < |a| && a[i] == x
  }

  lemma ConcatCarries(a: seq<string>, b: seq<string>, i: int, x: string)
    ensures Carries(a, i, x) ==> Carries(a + b, i, x)
    ensures Carries(b, i, x) ==> Carries(a + b, |a| + i, x)
  {
  }

  /** Lines `a` up to but not including `b`, counted from 1. */
  function Lines(text: seq<string>, a: int, b: int): seq<string> {
    if 1 <= a <= b <= |text| + 1 then text[a - 1..b - 1] else []
  }

  /** The context and removed rows say what the old text has there. */
  predicate RowsMatch(rows: seq<Row>, text: seq<string>) {
    rows != [] ==>
      && (rows[0].kind == Context || rows[0].kind == Del ==>
            rows[0].oldLine.Some? && Carries(text, rows[0].oldLine.value - 1, rows[0].text))
      && RowsMatch(rows[1..], text)
  }

  predicate Applies(hunks: seq<Hunk>, text: seq<string>) {
    hunks != [] ==>
      && RowsMatch(hunks[0].rows, text) && OldFirst(hunks[0]) - 1 <= |text|
      && Applies(hunks[1..], text)
  }

  /** Applying the patch to `text` from line `o` on: copy the gap, write the hunk's new rows. */
  function Patched(hunks: seq<Hunk>, text: seq<string>, o: int): seq<string> {
    if hunks == [] then Lines(text, o, |text| + 1)
    else
      Lines(text, o, OldFirst(hunks[0])) + NewTexts(hunks[0].rows)
      + Patched(hunks[1..], text, OldFirst(hunks[0]) + hunks[0].oldCount)
  }

  function Result(hunks: seq<Hunk>, text: seq<string>): seq<string> {
    Patched(hunks, text, 1)
  }

  /** The new text a row's kept line lands on. */
  lemma {:induction false} ContextText(rows: seq<Row>, o: int, n: int, l: int, m: int, text: seq<string>, x: string)
    requires Numbered(rows, o, n) && RowsMatch(rows, text) && ContextOf(rows, l, false) == Some(m)
    requires Carries(text, l - 1, x)
    ensures Carries(NewTexts(rows), m - n, x)
    decreases |rows|
  {
    var t := rows[1..];
    match rows[0].kind {
      case Context =>
        if l != o {
          ContextText(t, o + 1, n + 1, l, m, text, x);
          ConcatCarries([rows[0].text], NewTexts(t), m - n - 1, x);
        }
      case Del =>
        ContextText(t, o + 1, n, l, m, text, x);
        assert NewTexts(rows) == NewTexts(t);
      case Add =>
        ContextText(t, o, n + 1, l, m, text, x);
        ConcatCarries([rows[0].text], NewTexts(t), m - n - 1, x);
      case Meta =>
        ContextText(t, o, n, l, m, text, x);
        assert NewTexts(rows) == NewTexts(t);
    }
  }

  /** The three pieces of a patched text: the gap, the hunk, the rest. */
  lemma ThreePieces(gap: seq<string>, news: seq<string>, rest: seq<string>, i: int, x: string)
    ensures Carries(gap, i, x) ==> Carries(gap + news + rest, i, x)
    ensures Carries(news, i, x) ==> Carries(gap + news + rest, |gap| + i, x)
    ensures Carries(rest, i, x) ==> Carries(gap + news + rest, |gap| + |news| + i, x)
  {
    ConcatCarries(gap, news, i, x);
    ConcatCarries(gap + news, rest, i, x);
    ConcatCarries(gap + news, rest, |gap| + i, x);
  }

  lemma PatchedPieces(hunks: seq<Hunk>, text: seq<string>, o: int, i: int, x: string)
    requires hunks != [] && 1 <= o <= OldFirst(hunks[0]) <= |text| + 1
    ensures var h, r := hunks[0], Patched(hunks, text, o);
            && (Carries(Lines(text, o, OldFirst(h)), i, x) ==> Carries(r, i, x))
            && (Carries(NewTexts(h.rows), i, x) ==> Carries(r, OldFirst(h) - o + i, x))
            && (Carries(Patched(hunks[1..], text, OldFirst(h) + h.oldCount), i, x) ==>
                  Carries(r, OldFirst(h) - o + NewRows(h.rows) + i, x))
  {
    var h := hunks[0];
    ThreePieces(Lines(text, o, OldFirst(h)), NewTexts(h.rows),
                Patched(hunks[1..], text, OldFirst(h) + h.oldCount), i, x);
  }

  lemma LandsInGap(hunks: seq<Hunk>, text: seq<string>, o: int, l: int, x: string)
    requires hunks != [] && 1 <= o <= l < OldFirst(hunks[0]) <= |text| + 1 && Carries(text, l - 1, x)
    ensures Carries(Patched(hunks, text, o), l - o, x)
  {
    PatchedPieces(hunks, text, o, l - o, x);
  }

  lemma LandsInHunk(hunks: seq<Hunk>, text: seq<string>, o: int, n: int, l: int, m: int, x: string)
    requires hunks != [] && 1 <= o <= OldFirst(hunks[0]) <= |text| + 1 && Carries(text, l - 1, x)
    requires HunkFormed(hunks[0]) && OldFirst(hunks[0]) - o == NewFirst(hunks[0]) - n
    requires RowsMatch(hunks[0].rows, text) && ContextOf(hunks[0].rows, l, false) == Some(m)
    ensures Carries(Patched(hunks, text, o), m - n, x)
  {
    var h := hunks[0];
    ContextText(h.rows, OldFirst(h), NewFirst(h), l, m, text, x);
    PatchedPieces(hunks, text, o, m - NewFirst(h), x);
  }

  lemma LandsInRest(hunks: seq<Hunk>, text: seq<string>, o: int, n: int, m: int, x: string)
    requires hunks != [] && 1 <= o <= OldFirst(hunks[0]) <= |text| + 1
    requires HunkFormed(hunks[0]) && OldFirst(hunks[0]) - o == NewFirst(hunks[0]) - n
    requires Carries(Patched(hunks[1..], text, OldFirst(hunks[0]) + hunks[0].oldCount),
                     m - NewFirst(hunks[0]) - hunks[0].newCount, x)
    ensures Carries(Patched(hunks, text, o), m - n, x)
  {
    PatchedPieces(hunks, text, o, m - NewFirst(hunks[0]) - hunks[0].newCount, x);
  }

  lemma {:induction false} JumpKeepsText(hunks: seq<Hunk>, text: seq<string>, o: int, n: int, l: int, m: int, x: string)
    requires FormedFrom(hunks, o, n) && Applies(hunks, text) && 1 <= o <= l && Carries(text, l - 1, x)
    requires Jump(hunks, o, n, l) == Some(m)
    ensures Carries(Patched(hunks, text, o), m - n, x)
    decreases |hunks|
  {
    if hunks == [] {
    } else if l < OldFirst(hunks[0]) {
      LandsInGap(hunks, text, o, l, x);
    } else if l < OldFirst(hunks[0]) + hunks[0].oldCount {
      LandsInHunk(hunks, text, o, n, l, m, x);
    } else {
      JumpKeepsText(hunks[1..], text, OldFirst(hunks[0]) + hunks[0].oldCount,
                    NewFirst(hunks[0]) + hunks[0].newCount, l, m, x);
      LandsInRest(hunks, text, o, n, m, x);
    }
  }

  /** A line that survives keeps its text: the new text at forward(l) is the old text at l. */
  lemma ForwardKeepsText(hunks: seq<Hunk>, text: seq<string>, l: int, m: int, x: string)
    requires Formed(hunks) && Applies(hunks, text) && l >= 1
    requires Forward(hunks, l) == Some(m) && Carries(text, l - 1, x)
    ensures Carries(Result(hunks, text), m - 1, x)
  {
    JumpIsWalk(hunks, 1, 1, l);
    JumpKeepsText(hunks, text, 1, 1, l, m, x);
  }

  // ----- the maps by the numbers in the headers and rows -----

  /** The range `start,count` of a header ends above `l`; an empty range lies just after the line it names. */
  predicate RangeAbove(start: int, count: int, l: int) {
    if count == 0 then start < l else start + count <= l
  }

  predicate RangeBelow(start: int, count: int, l: int) {
    if count == 0 then l <= start else l < start
  }

  /** How many lines longer the first `i` hunks make the text. */
  function Growth(hunks: seq<Hunk>, i: nat): int
    requires i <= |hunks|
  {
    if i == 0 then 0 else Growth(hunks, i - 1) + hunks[i - 1].newCount - hunks[i - 1].oldCount
  }

  lemma {:induction false} GrowthTail(hunks: seq<Hunk>, i: nat)
    requires 0 < i <= |hunks|
    ensures Growth(hunks, i) == hunks[0].newCount - hunks[0].oldCount + Growth(hunks[1..], i - 1)
  {
    if i > 1 {
      GrowthTail(hunks, i - 1);
    }
  }

  /** Line `l` is after the old ranges of the first `i` hunks and before the next. */
  ghost predicate BetweenOld(hunks: seq<Hunk>, i: nat, l: int) {
    && i <= |hunks| && (forall j :: 0 <= j < i ==> RangeAbove(hunks[j].oldStart, hunks[j].oldCount, l))
    && (i < |hunks| ==> RangeBelow(hunks[i].oldStart, hunks[i].oldCount, l))
  }

  lemma {:induction false} JumpBetween(hunks: seq<Hunk>, o: int, n: int, i: nat, l: int)
    requires FormedFrom(hunks, o, n) && BetweenOld(hunks, i, l)
    ensures Jump(hunks, o, n, l) == Some(l - o + n + Growth(hunks, i))
    decreases |hunks|
  {
    if i > 0 {
      var h, t := hunks[0], hunks[1..];
      assert forall j :: 0 <= j < |t| ==> t[j] == hunks[j + 1];
      GrowthTail(hunks, i);
      assert RangeAbove(h.oldStart, h.oldCount, l);
      JumpBetween(t, OldFirst(h) + h.oldCount, NewFirst(h) + h.newCount, i - 1, l);
    }
  }

  /** A line outside the hunks moves by what the hunks before it add and remove. */
  lemma LinesBetweenHunksShift(hunks: seq<Hunk>, i: nat, l: int)
    requires Formed(hunks) && BetweenOld(hunks, i, l)
    ensures Forward(hunks, l) == Some(l + Growth(hunks, i))
  {
    JumpIsWalk(hunks, 1, 1, l);
    JumpBetween(hunks, 1, 1, i, l);
  }

  ghost predicate BetweenNew(hunks: seq<Hunk>, i: nat, m: int) {
    && i <= |hunks| && (forall j :: 0 <= j < i ==> RangeAbove(hunks[j].newStart, hunks[j].newCount, m))
    && (i < |hunks| ==> RangeBelow(hunks[i].newStart, hunks[i].newCount, m))
  }

  lemma {:induction false} MirrorGrowth(hunks: seq<Hunk>, i: nat)
    requires i <= |hunks|
    ensures |Mirror(hunks)| == |hunks| && Growth(Mirror(hunks), i) == -Growth(hunks, i)
  {
    if i > 0 {
      MirrorGrowth(hunks, i - 1);
    }
  }

  /** And the same backward. */
  lemma NewLinesBetweenHunksShift(hunks: seq<Hunk>, i: nat, m: int)
    requires Formed(hunks) && BetweenNew(hunks, i, m)
    ensures Backward(hunks, m) == Some(m - Growth(hunks, i))
  {
    var back := Mirrored(hunks, i, m);
    ShiftOf(hunks, back, i, m);
  }

  lemma Mirrored(hunks: seq<Hunk>, i: nat, m: int) returns (back: seq<Hunk>)
    requires BetweenNew(hunks, i, m)
    ensures back == Mirror(hunks) && BetweenOld(back, i, m) && Growth(back, i) == -Growth(hunks, i)
  {
    back := Mirror(hunks);
    MirrorGrowth(hunks, i);
    MirrorBetween(hunks, i, m);
  }

  lemma ShiftOf(hunks: seq<Hunk>, back: seq<Hunk>, i: nat, m: int)
    requires Formed(hunks) && back == Mirror(hunks) && BetweenOld(back, i, m)
    ensures Backward(hunks, m) == Some(m + Growth(back, i))
  {
    BackwardIsMirroredForward(hunks, m);
    LinesBetweenHunksShift(back, i, m);
  }

  lemma {:induction false} MirrorAt(hunks: seq<Hunk>, j: nat)
    requires j < |hunks|
    ensures |Mirror(hunks)| == |hunks| && Mirror(hunks)[j] == MirrorHunk(hunks[j])
  {
    if j > 0 {
      MirrorAt(hunks[1..], j - 1);
    }
  }

  lemma MirrorBetween(hunks: seq<Hunk>, i: nat, m: int)
    requires BetweenNew(hunks, i, m) && |Mirror(hunks)| == |hunks|
    ensures BetweenOld(Mirror(hunks), i, m)
  {
    var back := Mirror(hunks);
    forall j | 0 <= j < |hunks|
      ensures back[j].oldStart == hunks[j].newStart && back[j].oldCount == hunks[j].newCount
    {
      MirrorAt(hunks, j);
    }
  }

  predicate IsContextOf(r: Row, l: int, m: int) {
    r.kind == Context && r.oldLine == Some(l) && r.newLine == Some(m)
  }

  lemma {:induction false} ContextFound(rows: seq<Row>, o: int, n: int, j: nat, l: int, m: int)
    requires Numbered(rows, o, n) && j < |rows| && IsContextOf(rows[j], l, m)
    ensures ContextOf(rows, l, false) == Some(m) && o <= l < o + OldRows(rows)
    decreases |rows|
  {
    if j > 0 {
      match rows[0].kind
      case Context => ContextFound(rows[1..], o + 1, n + 1, j - 1, l, m);
      case Del => ContextFound(rows[1..], o + 1, n, j - 1, l, m);
      case Add => ContextFound(rows[1..], o, n + 1, j - 1, l, m);
      case Meta => ContextFound(rows[1..], o, n, j - 1, l, m);
    }
  }

  lemma {:induction false} JumpToContext(hunks: seq<Hunk>, o: int, n: int, i: nat, j: nat, l: int, m: int)
    requires FormedFrom(hunks, o, n) && i < |hunks| && j < |hunks[i].rows| && IsContextOf(hunks[i].rows[j], l, m)
    ensures Jump(hunks, o, n, l) == Some(m) && o <= l
    decreases |hunks|
  {
    var h := hunks[0];
    if i == 0 {
      ContextFound(h.rows, OldFirst(h), NewFirst(h), j, l, m);
    } else {
      JumpToContext(hunks[1..], OldFirst(h) + h.oldCount, NewFirst(h) + h.newCount, i - 1, j, l, m);
    }
  }

  /** A context row pairs the two lines it names. */
  lemma ContextRowsAlign(hunks: seq<Hunk>, i: nat, j: nat, l: int, m: int)
    requires Formed(hunks) && i < |hunks| && j < |hunks[i].rows| && IsContextOf(hunks[i].rows[j], l, m)
    ensures Forward(hunks, l) == Some(m) && Backward(hunks, m) == Some(l)
  {
    JumpIsWalk(hunks, 1, 1, l);
    JumpToContext(hunks, 1, 1, i, j, l, m);
    ForwardBackwardInverse(hunks, l, m);
  }

  // ----- two patches in a row: base to HEAD, HEAD to the working tree -----

  /** The hunks and renames of the two patches; an absent path has no hunks. */
  datatype SinceBase = SinceBase(
    committed: map<string, seq<Hunk>>, working: map<string, seq<Hunk>>, workingOld: map<string, string>)

  function HunksOf(m: map<string, seq<Hunk>>, path: string): seq<Hunk> {
    if path in m then m[path] else []
  }

  /** Where `path` was at HEAD, before the working tree renamed it. */
  function HeadPath(s: SinceBase, path: string): string {
    if path in s.workingOld && s.workingOld[path] != "" then s.workingOld[path] else path
  }

  function Committed(s: SinceBase, path: string): seq<Hunk> {
    HunksOf(s.committed, HeadPath(s, path))
  }

  function Working(s: SinceBase, path: string): seq<Hunk> {
    HunksOf(s.working, path)
  }

  predicate FormedSince(s: SinceBase, path: string) {
    Formed(Committed(s, path)) && Formed(Working(s, path))
  }

  function HeadOf(s: SinceBase, path: string, line: int): Option<int> {
    match Forward(Committed(s, path), line)
    case None => None
    case Some(at) => Forward(Working(s, path), at)
  }

  function BaseOf(s: SinceBase, path: string, line: int): Option<int> {
    match Backward(Working(s, path), line)
    case None => None
    case Some(at) => Backward(Committed(s, path), at)
  }

  /** `name` is what the file at `path` was called at HEAD. */
  ghost predicate HeadName(s: SinceBase, path: string, name: string) {
    var renamed := path in s.workingOld && s.workingOld[path] != "";
    (renamed ==> name == s.workingOld[path]) && (!renamed ==> name == path)
  }

  /** `hunks` are those `patch` has for `path`, none where it does not name it. */
  ghost predicate HunksAt(patch: map<string, seq<Hunk>>, path: string, hunks: seq<Hunk>) {
    (path in patch ==> hunks == patch[path]) && (path !in patch ==> hunks == [])
  }

  /** `c` are the committed hunks at the file's name at HEAD, `w` the working hunks at its path now. */
  ghost predicate Patches(s: SinceBase, path: string, c: seq<Hunk>, w: seq<Hunk>) {
    (exists name :: HeadName(s, path, name) && HunksAt(s.committed, name, c)) && HunksAt(s.working, path, w)
  }

  lemma PatchesAre(s: SinceBase, path: string, c: seq<Hunk>, w: seq<Hunk>)
    ensures Patches(s, path, c, w) <==> c == Committed(s, path) && w == Working(s, path)
  {
    assert HeadName(s, path, HeadPath(s, path));
  }

  /** Through the committed hunks at the name at HEAD first, then through the working hunks at the path. */
  method HeadLine(s: SinceBase, path: string, line: int) returns (r: Option<int>)
    ensures FormedSince(s, path) ==> r == HeadOf(s, path, line)
    ensures forall c, w :: Patches(s, path, c, w) && Formed(c) && Formed(w) ==>
              match Forward(c, line)
              case None => r == None
              case Some(at) => r == Forward(w, at)
  {
    forall c, w | Patches(s, path, c, w) ensures c == Committed(s, path) && w == Working(s, path) {
      PatchesAre(s, path, c, w);
    }
    var at := ForwardLine(line, Committed(s, path));
    if at == None {
      return None;
    }
    r := ForwardLine(at.value, Working(s, path));
  }

  /** The composition is again a strictly monotone bijection between surviving lines. */
  lemma HeadLineIsABijection(s: SinceBase, path: string, l: int, m: int, k: int)
    ensures HeadOf(s, path, l) == Some(m) <==> BaseOf(s, path, m) == Some(l)
    ensures l < k && HeadOf(s, path, l).Some? && HeadOf(s, path, k).Some? ==>
              HeadOf(s, path, l).value < HeadOf(s, path, k).value
  {
    var c, w := Committed(s, path), Working(s, path);
    if Forward(c, l).Some? {
      ForwardBackwardInverse(c, l, Forward(c, l).value);
      ForwardBackwardInverse(w, Forward(c, l).value, m);
    }
    if Backward(w, m).Some? {
      ForwardBackwardInverse(w, Backward(w, m).value, m);
      ForwardBackwardInverse(c, l, Backward(w, m).value);
    }
    if l < k && Forward(c, l).Some? && Forward(c, k).Some? {
      ForwardBackwardMonotone(c, l, k);
      ForwardBackwardMonotone(w, Forward(c, l).value, Forward(c, k).value);
    }
  }

  /** A base line that reaches the working tree carries its text through both patches. */
  lemma HeadLineKeepsText(s: SinceBase, path: string, base: seq<string>, l: int, m: int, x: string)
    requires FormedSince(s, path) && Applies(Committed(s, path), base)
    requires Applies(Working(s, path), Result(Committed(s, path), base))
    requires l >= 1 && HeadOf(s, path, l) == Some(m) && Carries(base, l - 1, x)
    ensures Carries(Result(Working(s, path), Result(Committed(s, path), base)), m - 1, x)
  {
    var c, w := Committed(s, path), Working(s, path);
    var at := Forward(c, l).value;
    ForwardKeepsText(c, base, l, at, x);
    ForwardKeepsText(w, Result(c, base), at, m, x);
  }
}
