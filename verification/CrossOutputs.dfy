/** The cross-output phase of `applyTargetDepsAndFootprint`: declarations that one project writes
    into another's tree are applied one at a time, each adding a dependency and a filed pattern. */
module CrossOutputs {
  import opened Options
  import opened Names

  type Pattern = string

  datatype OutputRef = OutputRef(project: Name, glob: Pattern)

  /** What the phase reads of a project, and the two parts it adds to. */
  datatype Project = Project(dependsOn: set<Name>, inbound: map<Name, seq<Pattern>>,
                             outputs: seq<Pattern>, targetOutputs: seq<seq<OutputRef>>)

  type Workspace = map<Name, Project>

  /** `writer` declares `pattern` in the tree of `owner`. */
  datatype Decl = Decl(owner: Name, writer: Name, pattern: Pattern)

  datatype Error = OwnerUnknown | Cycle | Overlap

  // ----- who declares a pattern -----

  predicate OwnDeclares(p: Project, path: Name, pattern: Pattern) {
    pattern in p.outputs ||
    exists i, j :: 0 <= i < |p.targetOutputs| && 0 <= j < |p.targetOutputs[i]|
      && (p.targetOutputs[i][j].project == "" || p.targetOutputs[i][j].project == path)
      && p.targetOutputs[i][j].glob == pattern
  }

  function Filed(p: Project, writer: Name): seq<Pattern> {
    if writer in p.inbound then p.inbound[writer] else []
  }

  /** `who` declares `pattern` as an output in the tree of the project `p` at `path`. */
  predicate Declares(p: Project, path: Name, who: Name, pattern: Pattern) {
    pattern in Filed(p, who) || (who == path && OwnDeclares(p, path, pattern))
  }

  /** Somebody other than the writer already declares the pattern; the owner itself counts as another. */
  ghost predicate Taken(p: Project, d: Decl) {
    (exists w :: w != d.writer && d.pattern in Filed(p, w)) || OwnDeclares(p, d.owner, d.pattern)
  }

  /** `w` is another writer that has filed the pattern. */
  predicate OtherFiles(p: Project, d: Decl, w: Name) {
    w != d.writer && d.pattern in Filed(p, w)
  }

  method SortedWriters(p: Project) returns (ws: seq<Name>)
    ensures Rising(ws) && Members(ws) == p.inbound.Keys
  {
    var keys: seq<Name> := [];
    var left := p.inbound.Keys;
    while left != {}
      invariant left <= p.inbound.Keys && Members(keys) == p.inbound.Keys - left
    {
      var w :| w in left;
      MembersSnoc(keys, w);
      keys, left := keys + [w], left - {w};
    }
    SortCompactRises(keys);
    ws := SortCompact(keys);
  }

  /** The owner itself declares the pattern, for the project or for one of its targets. */
  method OwnerDeclares(p: Project, d: Decl) returns (yes: bool)
    ensures yes <==> OwnDeclares(p, d.owner, d.pattern)
  {
    if d.pattern in p.outputs {
      return true;
    }
    for i := 0 to |p.targetOutputs|
      invariant forall k, j :: 0 <= k < i && 0 <= j < |p.targetOutputs[k]| ==>
        !((p.targetOutputs[k][j].project == "" || p.targetOutputs[k][j].project == d.owner)
          && p.targetOutputs[k][j].glob == d.pattern)
    {
      for j := 0 to |p.targetOutputs[i]|
        invariant forall m :: 0 <= m < j ==>
          !((p.targetOutputs[i][m].project == "" || p.targetOutputs[i][m].project == d.owner)
            && p.targetOutputs[i][m].glob == d.pattern)
      {
        var ref := p.targetOutputs[i][j];
        if (ref.project == "" || ref.project == d.owner) && ref.glob == d.pattern {
          return true;
        }
      }
    }
    yes := false;
  }

  /** The first other writer in name order that has filed the pattern, else the owner if it declares it. */
  method ExistingWriter(p: Project, d: Decl) returns (prior: Option<Name>)
    ensures prior == None <==> !Taken(p, d)
    ensures (exists w :: OtherFiles(p, d, w)) ==>
              && prior != None && OtherFiles(p, d, prior.value)
              && forall w :: OtherFiles(p, d, w) ==> w == prior.value || Less(prior.value, w)
    ensures prior != None && (forall w :: !OtherFiles(p, d, w)) ==>
              prior.value == d.owner && OwnDeclares(p, d.owner, d.pattern)
  {
    var ws := SortedWriters(p);
    for i := 0 to |ws|
      invariant forall j :: 0 <= j < i ==> !OtherFiles(p, d, ws[j])
    {
      assert ws[i] in Members(ws);
      if ws[i] != d.writer && d.pattern in p.inbound[ws[i]] {
        FirstOfAll(p, d, ws, i);
        assert d.pattern in Filed(p, ws[i]) && OtherFiles(p, d, ws[i]);
        return Some(ws[i]);
      }
    }
    forall w ensures !OtherFiles(p, d, w) && (w == d.writer || d.pattern !in Filed(p, w)) {
      assert w in p.inbound ==> w in Members(ws);
    }
    var own := OwnerDeclares(p, d);
    prior := if own then Some(d.owner) else None;
  }

  lemma FirstOfAll(p: Project, d: Decl, ws: seq<Name>, i: nat)
    requires Rising(ws) && Members(ws) == p.inbound.Keys && i < |ws|
    requires forall j :: 0 <= j < i ==> !OtherFiles(p, d, ws[j])
    ensures forall w :: OtherFiles(p, d, w) ==> w == ws[i] || Less(ws[i], w)
  {
    forall w | OtherFiles(p, d, w) && w != ws[i] ensures Less(ws[i], w) {
      assert w in Members(ws);
      var j :| 0 <= j < |ws| && ws[j] == w;
      RisingAt(ws, i, j);
    }
  }

  // ----- one declaration -----

  function Register(ws: Workspace, d: Decl): Workspace {
    if d.owner !in ws then ws
    else
      var p := ws[d.owner];
      ws[d.owner := p.(dependsOn := p.dependsOn + {d.writer},
                       inbound := p.inbound[d.writer := Filed(p, d.writer) + [d.pattern]])]
  }

  /** The first check that refuses `d` in `ws`. */
  ghost function Refusal(ws: Workspace, d: Decl): Option<Error> {
    if d.owner !in ws then Some(OwnerUnknown)
    else if d.writer in ws && d.owner in ws[d.writer].dependsOn then Some(Cycle)
    else if Taken(ws[d.owner], d) then Some(Overlap)
    else None
  }

  function After(ws: Workspace, ds: seq<Decl>, k: nat): Workspace
    requires k <= |ds|
  {
    if k == 0 then ws else Register(After(ws, ds, k - 1), ds[k - 1])
  }

  datatype Verdict = Accepted | Refused(error: Error)

  /** What the declarations from `k` on come to, the earlier ones having been accepted. */
  ghost function Outcome(ws: Workspace, ds: seq<Decl>, k: nat): Verdict
    requires k <= |ds|
    decreases |ds| - k
  {
    if k == |ds| then Accepted
    else
      var r := Refusal(After(ws, ds, k), ds[k]);
      if r != None then Refused(r.value) else Outcome(ws, ds, k + 1)
  }

  /** One declaration as the phase applies it; a refusal may leave the dependency behind. */
  method ApplyOne(before: Workspace, d: Decl) returns (ws: Workspace, refused: Option<Error>)
    ensures refused == Refusal(before, d)
    ensures refused == None ==> ws == Register(before, d)
  {
    ws := before;
    if d.owner !in ws {
      return ws, Some(OwnerUnknown);
    }
    if d.writer in ws && d.owner in ws[d.writer].dependsOn {
      return ws, Some(Cycle);
    }
    var p := ws[d.owner];
    if d.writer !in p.dependsOn {
      p := p.(dependsOn := p.dependsOn + {d.writer});
    }
    assert p.dependsOn == ws[d.owner].dependsOn + {d.writer};
    var prior := ExistingWriter(p, d);
    SameClaims(ws[d.owner], p, d);
    if prior != None {
      return ws[d.owner := p], Some(Overlap);
    }
    ws := ws[d.owner := p.(inbound := p.inbound[d.writer := Filed(p, d.writer) + [d.pattern]])];
    refused := None;
  }

  /** Dependencies have no part in who declares what. */
  lemma SameClaims(p: Project, q: Project, d: Decl)
    requires p.inbound == q.inbound && p.outputs == q.outputs && p.targetOutputs == q.targetOutputs
    ensures Taken(p, d) <==> Taken(q, d)
  {
    assert forall w :: Filed(p, w) == Filed(q, w);
  }

  /** The phase as written: the workspace is updated declaration by declaration, up to the first refusal. */
  method ApplyCrossOutputs(before: Workspace, ds: seq<Decl>) returns (ws: Workspace, v: Verdict)
    ensures v == Outcome(before, ds, 0)
    ensures v == Accepted ==> ws == After(before, ds, |ds|)
  {
    ws := before;
    for k := 0 to |ds|
      invariant ws == After(before, ds, k) && Outcome(before, ds, k) == Outcome(before, ds, 0)
    {
      var refused;
      ws, refused := ApplyOne(ws, ds[k]);
      if refused != None {
        return ws, Refused(refused.value);
      }
    }
    v := Accepted;
  }

  // ----- the closed form -----

  function Writers(ds: seq<Decl>, k: nat, owner: Name): set<Name>
    requires k <= |ds|
  {
    set i | 0 <= i < k && ds[i].owner == owner :: ds[i].writer
  }

  /** The patterns `writer` declares in the tree of `owner`, in declaration order. */
  function PatternsOf(ds: seq<Decl>, k: nat, owner: Name, writer: Name): seq<Pattern>
    requires k <= |ds|
  {
    if k == 0 then []
    else PatternsOf(ds, k - 1, owner, writer)
         + if ds[k - 1].owner == owner && ds[k - 1].writer == writer then [ds[k - 1].pattern] else []
  }

  /** What the phase leaves of one project: nothing but its dependencies and its filed patterns has changed. */
  lemma {:induction false} ClosedForm(ws: Workspace, ds: seq<Decl>, k: nat, o: Name, w: Name)
    requires k <= |ds|
    ensures After(ws, ds, k).Keys == ws.Keys
    ensures o in ws ==>
              var p := After(ws, ds, k)[o];
              && p.outputs == ws[o].outputs && p.targetOutputs == ws[o].targetOutputs
              && p.dependsOn == ws[o].dependsOn + Writers(ds, k, o)
              && Filed(p, w) == Filed(ws[o], w) + PatternsOf(ds, k, o, w)
  {
    if k == 0 {
      assert Writers(ds, k, o) == {};
    } else {
      ClosedForm(ws, ds, k - 1, o, w);
      assert Writers(ds, k, o) == Writers(ds, k - 1, o) + if ds[k - 1].owner == o then {ds[k - 1].writer} else {};
    }
  }

  lemma {:induction false} PatternsAre(ds: seq<Decl>, k: nat, o: Name, w: Name, pattern: Pattern)
    requires k <= |ds|
    ensures pattern in PatternsOf(ds, k, o, w) <==> exists i :: 0 <= i < k && ds[i] == Decl(o, w, pattern)
  {
    if k > 0 {
      PatternsAre(ds, k - 1, o, w, pattern);
    }
  }

  // ----- the verdict, without an order -----

  /** The collector records a declaration only where the owner is not the writer. */
  ghost predicate Crossing(ds: seq<Decl>) {
    forall i :: 0 <= i < |ds| ==> ds[i].owner != ds[i].writer
  }

  /** `d` is fine beside the workspace as it was before the phase. */
  ghost predicate FineAlone(ws: Workspace, d: Decl) {
    d.owner in ws && !(d.writer in ws && d.owner in ws[d.writer].dependsOn) && !Taken(ws[d.owner], d)
  }

  /** Two declarations write into each other's projects, or two writers declare one pattern. */
  predicate Clash(d: Decl, e: Decl) {
    (d.owner == e.writer && d.writer == e.owner) ||
    (d.owner == e.owner && d.pattern == e.pattern && d.writer != e.writer)
  }

  ghost predicate Consistent(ws: Workspace, ds: seq<Decl>) {
    (forall d :: d in ds ==> FineAlone(ws, d)) && forall d, e :: d in ds && e in ds ==> !Clash(d, e)
  }

  ghost predicate FineAt(ws: Workspace, ds: seq<Decl>, k: nat)
    requires k < |ds|
  {
    FineAlone(ws, ds[k]) && forall i :: 0 <= i < k ==> !Clash(ds[i], ds[k])
  }

  lemma CycleAt(ws: Workspace, ds: seq<Decl>, k: nat)
    requires k < |ds| && ds[k].owner in ws
    ensures var d, now := ds[k], After(ws, ds, k);
            (d.writer in now && d.owner in now[d.writer].dependsOn) <==>
            (d.writer in ws && (d.owner in ws[d.writer].dependsOn
                                || exists i :: 0 <= i < k && ds[i].owner == d.writer && ds[i].writer == d.owner))
  {
    ClosedForm(ws, ds, k, ds[k].writer, "");
  }

  lemma TakenAt(ws: Workspace, ds: seq<Decl>, k: nat)
    requires k < |ds| && ds[k].owner in ws
    ensures var d := ds[k];
            d.owner in After(ws, ds, k) &&
            (Taken(After(ws, ds, k)[d.owner], d) <==>
             Taken(ws[d.owner], d) ||
             exists i :: 0 <= i < k && ds[i].owner == d.owner && ds[i].pattern == d.pattern && ds[i].writer != d.writer)
  {
    var d := ds[k];
    var was, now := ws[d.owner], After(ws, ds, k);
    forall w: Name ensures d.owner in now
      && (d.pattern in Filed(now[d.owner], w) <==>
          d.pattern in Filed(was, w) || exists i :: 0 <= i < k && ds[i] == Decl(d.owner, w, d.pattern))
      && (OwnDeclares(now[d.owner], d.owner, d.pattern) <==> OwnDeclares(was, d.owner, d.pattern))
    {
      ClosedForm(ws, ds, k, d.owner, w);
      PatternsAre(ds, k, d.owner, w, d.pattern);
    }
  }

  lemma RefusalAt(ws: Workspace, ds: seq<Decl>, k: nat)
    requires k < |ds| && forall i :: 0 <= i < k ==> FineAt(ws, ds, i)
    ensures Refusal(After(ws, ds, k), ds[k]) == None <==> FineAt(ws, ds, k)
  {
    ClosedForm(ws, ds, k, ds[k].owner, "");
    if ds[k].owner in ws {
      CycleAt(ws, ds, k);
      TakenAt(ws, ds, k);
      forall i | 0 <= i < k ensures FineAlone(ws, ds[i]) {
        assert FineAt(ws, ds, i);
      }
    }
  }

  /** The first refusal is at `k`, for `error`: everything before is fine, and `error` is the first check that
      the declaration fails beside the workspace and the earlier declarations. */
  ghost predicate FailsAt(ws: Workspace, ds: seq<Decl>, k: nat, error: Error) {
    && k < |ds| && (forall i :: 0 <= i < k ==> FineAt(ws, ds, i))
    && match error
       case OwnerUnknown => ds[k].owner !in ws
       case Cycle => ds[k].owner in ws && Closes(ws, ds, k)
       case Overlap => ds[k].owner in ws && !Closes(ws, ds, k) && Doubles(ws, ds, k)
  }

  /** The writer depends on the owner, in the workspace or by an earlier declaration. */
  ghost predicate Closes(ws: Workspace, ds: seq<Decl>, k: nat)
    requires k < |ds|
  {
    var d := ds[k];
    d.writer in ws &&
    (d.owner in ws[d.writer].dependsOn || exists i :: 0 <= i < k && ds[i].owner == d.writer && ds[i].writer == d.owner)
  }

  /** Another declares the pattern, in the workspace or by an earlier declaration. */
  ghost predicate Doubles(ws: Workspace, ds: seq<Decl>, k: nat)
    requires k < |ds| && ds[k].owner in ws
  {
    var d := ds[k];
    Taken(ws[d.owner], d) ||
    exists i :: 0 <= i < k && ds[i].owner == d.owner && ds[i].pattern == d.pattern && ds[i].writer != d.writer
  }

  lemma RefusalKind(ws: Workspace, ds: seq<Decl>, k: nat, error: Error)
    requires k < |ds| && forall i :: 0 <= i < k ==> FineAt(ws, ds, i)
    ensures Refusal(After(ws, ds, k), ds[k]) == Some(error) <==> FailsAt(ws, ds, k, error)
  {
    ClosedForm(ws, ds, k, ds[k].owner, "");
    if ds[k].owner in ws {
      CycleAt(ws, ds, k);
      TakenAt(ws, ds, k);
    }
  }

  lemma {:induction false} RefusedFrom(ws: Workspace, ds: seq<Decl>, k: nat, error: Error)
    requires k <= |ds| && forall i :: 0 <= i < k ==> FineAt(ws, ds, i)
    ensures Outcome(ws, ds, k) == Refused(error) <==> exists m: nat :: k <= m && FailsAt(ws, ds, m, error)
    decreases |ds| - k
  {
    if k < |ds| {
      RefusalAt(ws, ds, k);
      RefusalKind(ws, ds, k, error);
      if FineAt(ws, ds, k) {
        RefusedFrom(ws, ds, k + 1, error);
        NotFailedIfFine(ws, ds, k, error);
      }
    }
  }

  lemma NotFailedIfFine(ws: Workspace, ds: seq<Decl>, k: nat, error: Error)
    requires k < |ds| && FineAt(ws, ds, k)
    ensures !FailsAt(ws, ds, k, error)
  {
    if forall i :: 0 <= i < k ==> FineAt(ws, ds, i) {
      RefusalAt(ws, ds, k);
      RefusalKind(ws, ds, k, error);
    }
  }

  /** Which error is reported: that of the first declaration that fails, by the first check it fails. */
  lemma RefusedExactly(ws: Workspace, ds: seq<Decl>, error: Error)
    ensures Outcome(ws, ds, 0) == Refused(error) <==> exists k: nat :: FailsAt(ws, ds, k, error)
  {
    RefusedFrom(ws, ds, 0, error);
  }

  lemma {:induction false} AcceptedFrom(ws: Workspace, ds: seq<Decl>, k: nat)
    requires k <= |ds| && forall i :: 0 <= i < k ==> FineAt(ws, ds, i)
    ensures Outcome(ws, ds, k) == Accepted <==> forall i :: 0 <= i < |ds| ==> FineAt(ws, ds, i)
    decreases |ds| - k
  {
    if k < |ds| {
      RefusalAt(ws, ds, k);
      if FineAt(ws, ds, k) {
        AcceptedFrom(ws, ds, k + 1);
      }
    }
  }

  lemma FineIsConsistent(ws: Workspace, ds: seq<Decl>)
    requires Crossing(ds)
    ensures (forall k :: 0 <= k < |ds| ==> FineAt(ws, ds, k)) <==> Consistent(ws, ds)
  {
    if forall k :: 0 <= k < |ds| ==> FineAt(ws, ds, k) {
      forall d, e | d in ds && e in ds ensures !Clash(d, e) {
        var i: nat :| i < |ds| && ds[i] == d;
        var j: nat :| j < |ds| && ds[j] == e;
        assert FineAt(ws, ds, i) && FineAt(ws, ds, j);
      }
      forall d | d in ds ensures FineAlone(ws, d) {
        var i: nat :| i < |ds| && ds[i] == d;
        assert FineAt(ws, ds, i);
      }
    }
  }

  /** The verdict is accept exactly when no declaration is at odds with the workspace or with another. */
  lemma AcceptedIffConsistent(ws: Workspace, ds: seq<Decl>)
    requires Crossing(ds)
    ensures Outcome(ws, ds, 0) == Accepted <==> Consistent(ws, ds)
  {
    AcceptedFrom(ws, ds, 0);
    FineIsConsistent(ws, ds);
  }

  lemma WritersAre(ds: seq<Decl>, o: Name, w: Name)
    ensures w in Writers(ds, |ds|, o) <==> exists d :: d in ds && d.owner == o && d.writer == w
  {
    if w in Writers(ds, |ds|, o) {
      var i :| 0 <= i < |ds| && ds[i].owner == o && ds[i].writer == w;
      assert ds[i] in ds;
    }
    if d :| d in ds && d.owner == o && d.writer == w {
      var i :| 0 <= i < |ds| && ds[i] == d;
    }
  }

  lemma SameWriters(ds: seq<Decl>, es: seq<Decl>, o: Name)
    requires forall d :: d in ds <==> d in es
    ensures Writers(ds, |ds|, o) == Writers(es, |es|, o)
  {
    forall w: Name ensures w in Writers(ds, |ds|, o) <==> w in Writers(es, |es|, o) {
      WritersAre(ds, o, w);
      WritersAre(es, o, w);
    }
  }

  /** Neither the verdict nor the dependencies depend on the order, or on repetition, of the declarations. */
  lemma OrderDoesNotMatter(ws: Workspace, ds: seq<Decl>, es: seq<Decl>)
    requires Crossing(ds) && forall d :: d in ds <==> d in es
    ensures Outcome(ws, ds, 0) == Accepted <==> Outcome(ws, es, 0) == Accepted
    ensures After(ws, ds, |ds|).Keys == After(ws, es, |es|).Keys == ws.Keys
    ensures forall o :: o in ws ==> After(ws, ds, |ds|)[o].dependsOn == After(ws, es, |es|)[o].dependsOn
  {
    assert forall i :: 0 <= i < |es| ==> es[i] in ds;
    AcceptedIffConsistent(ws, ds);
    AcceptedIffConsistent(ws, es);
    ClosedForm(ws, ds, |ds|, "", "");
    ClosedForm(ws, es, |es|, "", "");
    forall o | o in ws ensures After(ws, ds, |ds|)[o].dependsOn == After(ws, es, |es|)[o].dependsOn {
      ClosedForm(ws, ds, |ds|, o, "");
      ClosedForm(ws, es, |es|, o, "");
      SameWriters(ds, es, o);
    }
  }

  /** How often a declaration was made. */
  function Times(ds: seq<Decl>, k: nat, d: Decl): nat
    requires k <= |ds|
  {
    if k == 0 then 0 else Times(ds, k - 1, d) + if ds[k - 1] == d then 1 else 0
  }

  lemma {:induction false} FiledAsOften(ds: seq<Decl>, k: nat, o: Name, w: Name, pattern: Pattern)
    requires k <= |ds|
    ensures multiset(PatternsOf(ds, k, o, w))[pattern] == Times(ds, k, Decl(o, w, pattern))
  {
    if k > 0 {
      FiledAsOften(ds, k - 1, o, w, pattern);
      var d, was := ds[k - 1], PatternsOf(ds, k - 1, o, w);
      if d.owner == o && d.writer == w {
        CountSnoc(was, d.pattern, pattern);
      } else {
        assert PatternsOf(ds, k, o, w) == was;
      }
    }
  }

  lemma CountSnoc(s: seq<Pattern>, x: Pattern, y: Pattern)
    ensures multiset(s + [x])[y] == multiset(s)[y] + if x == y then 1 else 0
  {
  }

  lemma {:induction false} TimesIsMultiplicity(ds: seq<Decl>, k: nat, d: Decl)
    requires k <= |ds|
    ensures Times(ds, k, d) == multiset(ds[..k])[d]
  {
    if k > 0 {
      TimesIsMultiplicity(ds, k - 1, d);
      assert ds[..k] == ds[..k - 1] + [ds[k - 1]];
    }
  }

  /** Declarations in another order file the same patterns for the same writers, in another order. */
  lemma FiledPatternsAreReordered(ws: Workspace, ds: seq<Decl>, es: seq<Decl>, o: Name, w: Name)
    requires multiset(ds) == multiset(es) && o in ws
    ensures o in After(ws, ds, |ds|) && o in After(ws, es, |es|)
    ensures multiset(Filed(After(ws, ds, |ds|)[o], w)) == multiset(Filed(After(ws, es, |es|)[o], w))
  {
    ClosedForm(ws, ds, |ds|, o, w);
    ClosedForm(ws, es, |es|, o, w);
    var a, b := PatternsOf(ds, |ds|, o, w), PatternsOf(es, |es|, o, w);
    forall pattern: Pattern ensures multiset(a)[pattern] == multiset(b)[pattern] {
      var d := Decl(o, w, pattern);
      FiledAsOften(ds, |ds|, o, w, pattern);
      FiledAsOften(es, |es|, o, w, pattern);
      TimesIsMultiplicity(ds, |ds|, d);
      TimesIsMultiplicity(es, |es|, d);
      assert ds[..|ds|] == ds && es[..|es|] == es;
    }
    assert multiset(a) == multiset(b);
  }

  /** On acceptance the owner runs after the writer and never the other way round. */
  lemma NoMutualDependence(ws: Workspace, ds: seq<Decl>, d: Decl)
    requires Crossing(ds) && Outcome(ws, ds, 0) == Accepted && d in ds
    ensures var now := After(ws, ds, |ds|);
            d.owner in now && d.writer in now[d.owner].dependsOn &&
            (d.writer in now ==> d.owner !in now[d.writer].dependsOn)
  {
    AcceptedIffConsistent(ws, ds);
    assert FineAlone(ws, d);
    ClosedForm(ws, ds, |ds|, d.owner, "");
    ClosedForm(ws, ds, |ds|, d.writer, "");
    WritersAre(ds, d.owner, d.writer);
    WritersAre(ds, d.writer, d.owner);
    assert forall e :: e in ds ==> !Clash(d, e);
  }

  /** On acceptance a declared pattern has one declaring project in the owner's tree: the writer. */
  lemma OneDeclarer(ws: Workspace, ds: seq<Decl>, d: Decl, who: Name)
    requires Crossing(ds) && Outcome(ws, ds, 0) == Accepted && d in ds
    ensures d.owner in After(ws, ds, |ds|)
    ensures Declares(After(ws, ds, |ds|)[d.owner], d.owner, who, d.pattern) <==> who == d.writer
  {
    AcceptedIffConsistent(ws, ds);
    assert FineAlone(ws, d);
    ClosedForm(ws, ds, |ds|, d.owner, who);
    PatternsAre(ds, |ds|, d.owner, who, d.pattern);
    var i :| 0 <= i < |ds| && ds[i] == d;
    assert forall e :: e in ds ==> !Clash(d, e);
    assert forall j :: 0 <= j < |ds| ==> !Clash(d, ds[j]);
  }

  /** Which error is reported does depend on the order. */
  lemma ErrorDependsOnOrder()
    ensures var ws := map["a" := Project({"b"}, map[], [], []), "b" := Project({}, map[], [], [])];
            var d, e := Decl("b", "a", "x"), Decl("c", "a", "x");
            Outcome(ws, [d, e], 0) == Refused(Cycle) && Outcome(ws, [e, d], 0) == Refused(OwnerUnknown)
  {
  }
}
