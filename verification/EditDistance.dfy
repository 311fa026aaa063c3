/** `editDistance`: the two-row Levenshtein loop, the recursive distance it computes, and what
    that distance is: the least number of single-byte insertions, deletions and substitutions
    that turn one string into the other, which makes it a metric. */
module EditDistance {

  type Byte = x: int | 0 <= x < 256

  type Str = seq<Byte>

  function Min(x: nat, y: nat): nat {
    if x <= y then x else y
  }

  function Cost(x: Byte, y: Byte): nat {
    if x == y then 0 else 1
  }

  function Init(s: Str): Str
    requires s != []
  {
    s[..|s| - 1]
  }

  function Last(s: Str): Byte
    requires s != []
  {
    s[|s| - 1]
  }

  /** The recursive definition, from the ends of the strings. */
  function Lev(a: Str, b: Str): nat
    decreases |a| + |b|
  {
    if a == [] then |b|
    else if b == [] then |a|
    else Min(Min(Lev(a, Init(b)) + 1, Lev(Init(a), b) + 1), Lev(Init(a), Init(b)) + Cost(Last(a), Last(b)))
  }

  /** The same distance of two prefixes, by their lengths. */
  function Table(a: Str, b: Str, i: nat, j: nat): nat
    requires i <= |a| && j <= |b|
  {
    if i == 0 then j
    else if j == 0 then i
    else Min(Min(Table(a, b, i, j - 1) + 1, Table(a, b, i - 1, j) + 1),
             Table(a, b, i - 1, j - 1) + Cost(a[i - 1], b[j - 1]))
  }

  lemma PrefixEnds(a: Str, i: nat)
    requires 0 < i <= |a|
    ensures a[..i] != [] && Init(a[..i]) == a[..i - 1] && Last(a[..i]) == a[i - 1]
  {
  }

  lemma {:induction false} TableIsLev(a: Str, b: Str, i: nat, j: nat)
    requires i <= |a| && j <= |b|
    ensures Table(a, b, i, j) == Lev(a[..i], b[..j])
  {
    if i > 0 && j > 0 {
      PrefixEnds(a, i);
      PrefixEnds(b, j);
      TableIsLev(a, b, i, j - 1);
      TableIsLev(a, b, i - 1, j);
      TableIsLev(a, b, i - 1, j - 1);
    }
  }

  lemma LastCell(a: Str, b: Str)
    ensures Table(a, b, |a|, |b|) == Lev(a, b)
  {
    TableIsLev(a, b, |a|, |b|);
    assert a[..|a|] == a && b[..|b|] == b;
  }

  // ----- the loop -----

  /** `row` is row `i` of the table, up to column `j`. */
  ghost predicate RowOf(row: array<int>, a: Str, b: Str, i: nat, j: nat)
    requires i <= |a|
    reads row
  {
    row.Length == |b| + 1 && j <= |b| + 1 && forall k :: 0 <= k < j ==> row[k] == Table(a, b, i, k)
  }

  method Distance(a: Str, b: Str) returns (d: nat)
    ensures d == Lev(a, b)
  {
    var prev := new int[|b| + 1];
    var cur := new int[|b| + 1];
    for j := 0 to prev.Length
      invariant RowOf(prev, a, b, 0, j)
    {
      prev[j] := j;
    }
    for i := 1 to |a| + 1
      invariant fresh(prev) && fresh(cur) && prev != cur && cur.Length == |b| + 1
      invariant RowOf(prev, a, b, i - 1, |b| + 1)
    {
      cur[0] := i;
      for j := 1 to |b| + 1
        invariant RowOf(prev, a, b, i - 1, |b| + 1) && RowOf(cur, a, b, i, j)
      {
        var cost := 1;
        if a[i - 1] == b[j - 1] {
          cost := 0;
        }
        cur[j] := IntMin(IntMin(cur[j - 1] + 1, prev[j] + 1), prev[j - 1] + cost);
      }
      prev, cur := cur, prev;
    }
    LastCell(a, b);
    d := prev[|b|];
  }

  function IntMin(x: int, y: int): int {
    if x <= y then x else y
  }

  // ----- a metric -----

  lemma {:induction false} ZeroIffEqual(a: Str, b: Str)
    ensures Lev(a, b) == 0 <==> a == b
    decreases |a| + |b|
  {
    if a != [] && b != [] {
      ZeroIffEqual(Init(a), Init(b));
      assert a == Init(a) + [Last(a)] && b == Init(b) + [Last(b)];
    }
  }

  lemma {:induction false} Symmetric(a: Str, b: Str)
    ensures Lev(a, b) == Lev(b, a)
    decreases |a| + |b|
  {
    if a != [] && b != [] {
      Symmetric(a, Init(b));
      Symmetric(Init(a), b);
      Symmetric(Init(a), Init(b));
    }
  }

  lemma {:induction false} LengthBound(a: Str, b: Str)
    ensures |a| - |b| <= Lev(a, b) && |b| - |a| <= Lev(a, b)
    decreases |a| + |b|
  {
    if a != [] && b != [] {
      LengthBound(a, Init(b));
      LengthBound(Init(a), b);
      LengthBound(Init(a), Init(b));
    }
  }

  lemma {:induction false} Triangle(a: Str, b: Str, c: Str)
    ensures Lev(a, c) <= Lev(a, b) + Lev(b, c)
    decreases |a| + |b| + |c|
  {
    if a == [] {
      LengthBound(b, c);
    } else if c == [] {
      LengthBound(a, b);
    } else if b == [] {
      TriangleThroughEmpty(a, c);
    } else {
      Triangle(Init(a), b, c);
      Triangle(a, b, Init(c));
      Triangle(a, Init(b), c);
      Triangle(Init(a), Init(b), c);
      Triangle(a, Init(b), Init(c));
      Triangle(Init(a), Init(b), Init(c));
    }
  }

  lemma {:induction false} TriangleThroughEmpty(a: Str, c: Str)
    ensures Lev(a, c) <= |a| + |c|
    decreases |a| + |c|
  {
    if a != [] && c != [] {
      TriangleThroughEmpty(Init(a), c);
    }
  }

  // ----- the least number of edits -----

  /** `t` is `s` with one byte inserted, deleted or replaced. */
  ghost predicate OneEdit(s: Str, t: Str) {
    exists p: Str, q: Str :: InsertsAt(p, q, s, t) || InsertsAt(p, q, t, s) || ReplacesAt(p, q, s, t)
  }

  ghost predicate InsertsAt(p: Str, q: Str, s: Str, t: Str) {
    exists x: Byte :: s == p + q && t == p + [x] + q
  }

  ghost predicate ReplacesAt(p: Str, q: Str, s: Str, t: Str) {
    exists x: Byte, y: Byte :: s == p + [x] + q && t == p + [y] + q
  }

  /** A chain of `n` single edits from `a` to `b`. */
  ghost predicate Edits(a: Str, b: Str, n: nat)
    decreases n
  {
    if n == 0 then a == b else exists m :: Edits(a, m, n - 1) && OneEdit(m, b)
  }

  /** Appending the same bytes to both sides cannot increase the distance. */
  lemma {:induction false} CommonTail(a: Str, b: Str, q: Str)
    ensures Lev(a + q, b + q) <= Lev(a, b)
    decreases |q|
  {
    if q == [] {
      assert a + q == a && b + q == b;
    } else {
      var a', b' := a + q, b + q;
      assert Init(a') == a + Init(q) && Init(b') == b + Init(q) && Last(a') == Last(b');
      CommonTail(a, b, Init(q));
    }
  }

  lemma OneEditIsOne(s: Str, t: Str)
    requires OneEdit(s, t)
    ensures Lev(s, t) <= 1
  {
    var p: Str, q: Str :| InsertsAt(p, q, s, t) || InsertsAt(p, q, t, s) || ReplacesAt(p, q, s, t);
    ZeroIffEqual(p, p);
    if InsertsAt(p, q, s, t) {
      var x: Byte :| s == p + q && t == p + [x] + q;
      AppendOne(p, x);
      CommonTail(p, p + [x], q);
    } else if InsertsAt(p, q, t, s) {
      var x: Byte :| t == p + q && s == p + [x] + q;
      AppendOne(p, x);
      Symmetric(p, p + [x]);
      CommonTail(p + [x], p, q);
    } else {
      var x: Byte, y: Byte :| s == p + [x] + q && t == p + [y] + q;
      ReplaceLast(p, x, y);
      CommonTail(p + [x], p + [y], q);
    }
  }

  lemma AppendOne(p: Str, x: Byte)
    ensures Lev(p, p + [x]) <= 1
  {
    ZeroIffEqual(p, p);
    assert Init(p + [x]) == p;
  }

  lemma ReplaceLast(p: Str, x: Byte, y: Byte)
    ensures Lev(p + [x], p + [y]) <= 1
  {
    ZeroIffEqual(p, p);
    assert Init(p + [x]) == p && Init(p + [y]) == p;
  }

  /** No chain of edits is shorter than the distance. */
  lemma {:induction false} NoShorterChain(a: Str, b: Str, n: nat)
    requires Edits(a, b, n)
    ensures Lev(a, b) <= n
    decreases n
  {
    if n == 0 {
      ZeroIffEqual(a, b);
    } else {
      var m :| Edits(a, m, n - 1) && OneEdit(m, b);
      NoShorterChain(a, m, n - 1);
      OneEditIsOne(m, b);
      Triangle(a, m, b);
    }
  }

  lemma InsertsAppend(p: Str, q: Str, s: Str, t: Str, z: Byte)
    requires InsertsAt(p, q, s, t)
    ensures InsertsAt(p, q + [z], s + [z], t + [z])
  {
    var x: Byte :| s == p + q && t == p + [x] + q;
    assert s + [z] == p + (q + [z]) && t + [z] == p + [x] + (q + [z]);
  }

  lemma ReplacesAppend(p: Str, q: Str, s: Str, t: Str, z: Byte)
    requires ReplacesAt(p, q, s, t)
    ensures ReplacesAt(p, q + [z], s + [z], t + [z])
  {
    var x: Byte, y: Byte :| s == p + [x] + q && t == p + [y] + q;
    assert s + [z] == p + [x] + (q + [z]) && t + [z] == p + [y] + (q + [z]);
  }

  /** Edits keep being edits when a byte is appended to both ends of the chain. */
  lemma OneEditAppend(s: Str, t: Str, z: Byte)
    requires OneEdit(s, t)
    ensures OneEdit(s + [z], t + [z])
  {
    var p: Str, q: Str :| InsertsAt(p, q, s, t) || InsertsAt(p, q, t, s) || ReplacesAt(p, q, s, t);
    if InsertsAt(p, q, s, t) {
      InsertsAppend(p, q, s, t, z);
    } else if InsertsAt(p, q, t, s) {
      InsertsAppend(p, q, t, s, z);
    } else {
      ReplacesAppend(p, q, s, t, z);
    }
  }

  lemma {:induction false} EditsAppend(a: Str, b: Str, n: nat, z: Byte)
    requires Edits(a, b, n)
    ensures Edits(a + [z], b + [z], n)
    decreases n
  {
    if n > 0 {
      var m :| Edits(a, m, n - 1) && OneEdit(m, b);
      EditsAppend(a, m, n - 1, z);
      OneEditAppend(m, b, z);
    }
  }

  lemma InsertLast(s: Str, z: Byte)
    ensures OneEdit(s, s + [z]) && OneEdit(s + [z], s)
  {
    assert s == s + [] && s + [z] == s + [z] + [];
    assert InsertsAt(s, [], s, s + [z]);
  }

  lemma ReplaceEdit(s: Str, x: Byte, y: Byte)
    ensures OneEdit(s + [x], s + [y])
  {
    assert s + [x] == s + [x] + [] && s + [y] == s + [y] + [];
    assert ReplacesAt(s, [], s + [x], s + [y]);
  }

  /** A chain may also begin with an edit. */
  lemma {:induction false} EditsCons(a: Str, m: Str, b: Str, n: nat)
    requires OneEdit(a, m) && Edits(m, b, n)
    ensures Edits(a, b, n + 1)
    decreases n
  {
    if n == 0 {
      assert Edits(a, a, 0) && OneEdit(a, b);
    } else {
      var k :| Edits(m, k, n - 1) && OneEdit(k, b);
      EditsCons(a, m, k, n - 1);
    }
  }

  lemma EditsSnoc(a: Str, m: Str, b: Str, n: nat)
    requires Edits(a, m, n) && OneEdit(m, b)
    ensures Edits(a, b, n + 1)
  {
  }

  /** Chains for the three ways a last byte can be dealt with. */
  lemma ChainByInsert(a: Str, b: Str, y: Byte, n: nat)
    requires Edits(a, b, n)
    ensures Edits(a, b + [y], n + 1)
  {
    InsertLast(b, y);
    EditsSnoc(a, b, b + [y], n);
  }

  lemma ChainByDelete(a: Str, x: Byte, b: Str, n: nat)
    requires Edits(a, b, n)
    ensures Edits(a + [x], b, n + 1)
  {
    InsertLast(a, x);
    EditsCons(a + [x], a, b, n);
  }

  lemma ChainByReplace(a: Str, x: Byte, b: Str, y: Byte, n: nat)
    requires Edits(a, b, n)
    ensures Edits(a + [x], b + [y], n + Cost(x, y))
  {
    EditsAppend(a, b, n, x);
    if x != y {
      ReplaceEdit(b, x, y);
      EditsSnoc(a + [x], b + [x], b + [y], n);
    }
  }

  lemma EndsRejoin(s: Str)
    ensures s != [] ==> s == Init(s) + [Last(s)]
  {
  }

  /** The distance is attained by a chain of that many edits. */
  lemma {:induction false} ChainOfThatLength(a: Str, b: Str)
    ensures Edits(a, b, Lev(a, b))
    decreases |a| + |b|
  {
    EndsRejoin(a);
    EndsRejoin(b);
    if a == [] && b == [] {
    } else if a == [] || (b != [] && Lev(a, b) == Lev(a, Init(b)) + 1) {
      ChainOfThatLength(a, Init(b));
      ChainByInsert(a, Init(b), Last(b), Lev(a, Init(b)));
    } else if b == [] || Lev(a, b) == Lev(Init(a), b) + 1 {
      ChainOfThatLength(Init(a), b);
      ChainByDelete(Init(a), Last(a), b, Lev(Init(a), b));
    } else {
      ChainOfThatLength(Init(a), Init(b));
      ChainByReplace(Init(a), Last(a), Init(b), Last(b), Lev(Init(a), Init(b)));
    }
  }

  /** The distance is the length of a shortest chain of single-byte edits. */
  lemma LeastNumberOfEdits(a: Str, b: Str)
    ensures Edits(a, b, Lev(a, b)) && forall n :: Edits(a, b, n) ==> Lev(a, b) <= n
  {
    ChainOfThatLength(a, b);
    forall n | Edits(a, b, n) ensures Lev(a, b) <= n {
      NoShorterChain(a, b, n);
    }
  }
}
