/** Names compared as strings are, and lists of them sorted without repetition. */
module Names {

  type Name = string

  /** Character by character, a proper prefix first. */
  predicate Less(a: Name, b: Name) {
    if b == "" then false
    else if a == "" then true
    else if a[0] != b[0] then a[0] < b[0]
    else Less(a[1..], b[1..])
  }

  /** The names agree up to `i`, where `a` ends or has the lesser character. */
  ghost predicate DifferAt(a: Name, b: Name, i: nat) {
    && i <= |a| && i < |b| && (forall j :: 0 <= j < i ==> a[j] == b[j]) && (i < |a| ==> a[i] < b[i])
  }

  /** Which name is less is decided where the two first differ. */
  lemma {:induction false} LessByFirstDifference(a: Name, b: Name)
    ensures Less(a, b) <==> exists i: nat :: DifferAt(a, b, i)
  {
    if b != "" && a == "" {
      assert DifferAt(a, b, 0);
    } else if b != "" && a[0] != b[0] {
      assert a[0] < b[0] ==> DifferAt(a, b, 0);
    } else if b != "" {
      LessByFirstDifference(a[1..], b[1..]);
      if i: nat :| DifferAt(a[1..], b[1..], i) {
        assert DifferAt(a, b, i + 1);
      }
      if i: nat :| DifferAt(a, b, i) {
        assert i > 0 && DifferAt(a[1..], b[1..], i - 1);
      }
    }
  }

  lemma {:induction false} LessIsAsymmetric(a: Name, b: Name)
    ensures !(Less(a, b) && Less(b, a))
  {
    if a != "" && b != "" {
      LessIsAsymmetric(a[1..], b[1..]);
    }
  }

  lemma {:induction false} LessIsTotal(a: Name, b: Name)
    ensures a == b || Less(a, b) || Less(b, a)
  {
    if a != "" && b != "" {
      assert a == a[..1] + a[1..] && b == b[..1] + b[1..];
      LessIsTotal(a[1..], b[1..]);
    }
  }

  lemma {:induction false} LessIsTransitive(a: Name, b: Name, c: Name)
    ensures Less(a, b) && Less(b, c) ==> Less(a, c)
  {
    if a != "" && b != "" && c != "" {
      LessIsTransitive(a[1..], b[1..], c[1..]);
    }
  }

  // ----- sorted, without repetition -----

  function Members(s: seq<Name>): set<Name> {
    set x | x in s
  }

  /** `x` comes before everything in `s`. */
  ghost predicate Before(x: Name, s: set<Name>) {
    forall y :: y in s ==> Less(x, y)
  }

  ghost predicate Rising(s: seq<Name>) {
    s != [] ==> Before(s[0], Members(s[1..])) && Rising(s[1..])
  }

  function Insert(s: seq<Name>, x: Name): seq<Name> {
    if s == [] then [x]
    else if s[0] == x then s
    else if Less(x, s[0]) then [x] + s
    else [s[0]] + Insert(s[1..], x)
  }

  /** `slices.Sort` then `slices.Compact`. */
  function SortCompact(s: seq<Name>): seq<Name> {
    if s == [] then [] else Insert(SortCompact(s[1..]), s[0])
  }

  lemma MembersCons(x: Name, s: seq<Name>)
    ensures Members([x] + s) == {x} + Members(s) && ([x] + s)[1..] == s
  {
  }

  lemma MembersSnoc(s: seq<Name>, x: Name)
    ensures Members(s + [x]) == Members(s) + {x}
  {
  }

  lemma MembersFirst(s: seq<Name>)
    ensures s == [] <==> Members(s) == {}
    ensures s != [] ==> Members(s) == {s[0]} + Members(s[1..]) && s == [s[0]] + s[1..]
  {
    if s != [] {
      assert s == [s[0]] + s[1..];
      MembersCons(s[0], s[1..]);
    }
  }

  lemma BeforeMore(x: Name, y: Name, s: set<Name>)
    requires Less(x, y) && Before(y, s)
    ensures Before(x, s + {y})
  {
    forall z | z in s + {y} ensures Less(x, z) {
      LessIsTransitive(x, y, z);
    }
  }

  lemma {:induction false} InsertRises(s: seq<Name>, x: Name)
    requires Rising(s)
    ensures Rising(Insert(s, x)) && Members(Insert(s, x)) == Members(s) + {x}
  {
    MembersFirst(s);
    if s == [] {
      MembersCons(x, []);
    } else if s[0] != x {
      LessIsTotal(s[0], x);
      if Less(x, s[0]) {
        BeforeMore(x, s[0], Members(s[1..]));
        MembersCons(x, s);
      } else {
        InsertRises(s[1..], x);
        MembersCons(s[0], Insert(s[1..], x));
      }
    }
  }

  lemma {:induction false} SortCompactRises(s: seq<Name>)
    ensures Rising(SortCompact(s)) && Members(SortCompact(s)) == Members(s)
  {
    MembersFirst(s);
    if s != [] {
      SortCompactRises(s[1..]);
      InsertRises(SortCompact(s[1..]), s[0]);
    }
  }

  /** A rising list is determined by its members. */
  lemma {:induction false} RisingIsDetermined(s: seq<Name>, t: seq<Name>)
    requires Rising(s) && Rising(t) && Members(s) == Members(t)
    ensures s == t
  {
    MembersFirst(s);
    MembersFirst(t);
    if s != [] {
      LessIsAsymmetric(s[0], t[0]);
      LessIsAsymmetric(s[0], s[0]);
      LessIsAsymmetric(t[0], t[0]);
      assert s[0] == t[0];
      assert s[0] !in Members(s[1..]) && t[0] !in Members(t[1..]);
      RisingIsDetermined(s[1..], t[1..]);
    }
  }

  /** Later in a rising list is greater. */
  lemma {:induction false} RisingAt(s: seq<Name>, i: nat, j: nat)
    requires Rising(s) && i < j < |s|
    ensures Less(s[i], s[j])
  {
    if i == 0 {
      assert s[j] == s[1..][j - 1] && s[j] in Members(s[1..]);
    } else {
      RisingAt(s[1..], i - 1, j - 1);
    }
  }
}
