/** Progress of `acquireAll`: steps forward run out, and when they do every invocation has returned. */
module LockProgress {
  import opened LockSlots
  import opened LockProtocol
  import opened LockOrder
  import opened Sums

  // ----- what is left to do -----

  /** The steps a release of one path still takes. */
  function ReleaseCost(pc: Pc): nat {
    match pc
    case Held(_) => 4
    case Disowned(_) => 3
    case Unlocked(_) => 2
    case _ => 1
  }

  /** The steps a probe still takes, at most. */
  function ProbeCost(pc: Pc): nat {
    match pc
    case Joined(_) => 5
    case Slotted(_) => 4
    case Contending(_) => 4
    case Held(_) => 4
    case Flocked(_) => 3
    case Disowned(_) => 3
    case Unlocked(_) => 2
    case Leaving(_) => 1
  }

  /** The steps forward an invocation still takes, at most, with `i` paths to give back. */
  function BackCost(sess: map<Key, Pc>, a: Agent, i: nat): nat
    requires a.kind.Invocation?
  {
    if 0 < i <= |a.kind.plan| && Key(a, a.kind.plan[i - 1]) in sess
    then 1 + 4 * (i - 1) + ReleaseCost(sess[Key(a, a.kind.plan[i - 1])]) else 1
  }

  /** The same while it acquires the `i`th path of its plan. */
  function AheadCost(sess: map<Key, Pc>, a: Agent, i: nat): nat
    requires a.kind.Invocation?
  {
    var n := |a.kind.plan|;
    var all := 3 + 4 * n + 5 * (if i < n then n - i else 0);
    if i >= n || Key(a, a.kind.plan[i]) !in sess then all
    else
      match sess[Key(a, a.kind.plan[i])]
      case Joined(_) => all - 1
      case Slotted(_) => all - 2
      case Contending(_) => all - 3
      case Flocked(_) => all - 4
      case Unlocked(_) => 3 + 4 * i
      case _ => 2 + 4 * i
  }

  function InvocationCost(sess: map<Key, Pc>, a: Agent, ph: Phase): nat {
    if !a.kind.Invocation? then 0
    else
      match ph
      case Acquire(i) => AheadCost(sess, a, i)
      case Work => 2 + 4 * |a.kind.plan|
      case Release(i, _) => BackCost(sess, a, i)
      case Returned(_) => 0
  }

  function Probers(y: Sys): set<Key> {
    set k | k in y.lock.sess && k.agent.kind.Prober?
  }

  function CostOf(y: Sys): Agent -> nat {
    a => if a in y.phase then InvocationCost(y.lock.sess, a, y.phase[a]) else 0
  }

  function ProbeCostOf(y: Sys): Key -> nat {
    k => if k in y.lock.sess then ProbeCost(y.lock.sess[k]) else 0
  }

  ghost function Cost(y: Sys): nat {
    Sum(y.phase.Keys, CostOf(y)) + Sum(Probers(y), ProbeCostOf(y))
  }

  // ----- it falls -----

  /** Of the steps a waiting or releasing session of an invocation takes, each lowers the cost. */
  lemma AcquireStepCosts(y: Sys, act: Action)
    requires Forward(y, Mine(act)) && y.phase[act.k.agent].Acquire?
    requires InPhase(y.lock.sess, act.k.agent, y.phase[act.k.agent])
    ensures CostOf(Next(y, Mine(act)))(act.k.agent) < CostOf(y)(act.k.agent)
  {
    var a, i := act.k.agent, y.phase[act.k.agent].i;
    SessChange(y.lock, act);
    PlanIndex(a, act.k.path, i);
    if act.ARecord? && i + 1 < |a.kind.plan| {
      assert a.kind.plan[i + 1] !in a.kind.plan[..i + 1];
    }
  }

  lemma ReleaseStepCosts(y: Sys, act: Action)
    requires Forward(y, Mine(act)) && y.phase[act.k.agent].Release?
    requires InPhase(y.lock.sess, act.k.agent, y.phase[act.k.agent])
    ensures CostOf(Next(y, Mine(act)))(act.k.agent) < CostOf(y)(act.k.agent)
  {
    SessChange(y.lock, act);
  }

  /** What another invocation has left to do is as before. */
  lemma OthersCost(sess: map<Key, Pc>, sess': map<Key, Pc>, k: Key, a: Agent, ph: Phase)
    requires a != k.agent && sess' == (if k in sess' then sess[k := sess'[k]] else sess - {k})
    ensures InvocationCost(sess', a, ph) == InvocationCost(sess, a, ph)
  {
    assert forall p :: Key(a, p) in sess' <==> Key(a, p) in sess;
    assert forall p :: Key(a, p) in sess ==> sess'[Key(a, p)] == sess[Key(a, p)];
  }

  /** A lock step of an invocation moves that one session, and that one phase at most. */
  lemma MineShape(y: Sys, act: Action)
    requires Can(y, Mine(act))
    ensures var y', a := Next(y, Mine(act)), act.k.agent;
            && y'.phase.Keys == y.phase.Keys && (forall b :: b in y.phase && b != a ==> y'.phase[b] == y.phase[b])
            && y'.lock.sess == (if act.k in y'.lock.sess then y.lock.sess[act.k := y'.lock.sess[act.k]]
                                else y.lock.sess - {act.k})
  {
    SessChange(y.lock, act);
  }

  lemma MineCosts(y: Sys, act: Action)
    requires Disciplined(y) && Forward(y, Mine(act))
    ensures CostOf(Next(y, Mine(act)))(act.k.agent) < CostOf(y)(act.k.agent)
  {
    assert InPhase(y.lock.sess, act.k.agent, y.phase[act.k.agent]);
    if y.phase[act.k.agent].Acquire? {
      AcquireStepCosts(y, act);
    } else {
      ReleaseStepCosts(y, act);
    }
  }

  lemma MineSpares(y: Sys, act: Action, b: Agent)
    requires Can(y, Mine(act)) && b in y.phase && b != act.k.agent
    ensures CostOf(y)(b) == CostOf(Next(y, Mine(act)))(b)
  {
    MineShape(y, act);
    OthersCost(y.lock.sess, Next(y, Mine(act)).lock.sess, act.k, b, y.phase[b]);
  }

  lemma MineSparesProbers(y: Sys, act: Action)
    requires Can(y, Mine(act))
    ensures Sum(Probers(y), ProbeCostOf(y)) == Sum(Probers(Next(y, Mine(act))), ProbeCostOf(Next(y, Mine(act))))
  {
    MineShape(y, act);
    assert Probers(Next(y, Mine(act))) == Probers(y);
    SumSame(Probers(y), ProbeCostOf(y), ProbeCostOf(Next(y, Mine(act))));
  }

  lemma MineLowersCost(y: Sys, act: Action)
    requires Disciplined(y) && Forward(y, Mine(act))
    ensures Cost(Next(y, Mine(act))) < Cost(y)
  {
    var y' := Next(y, Mine(act));
    MineShape(y, act);
    MineCosts(y, act);
    forall b | b in y.phase.Keys && b != act.k.agent ensures CostOf(y)(b) == CostOf(y')(b) {
      MineSpares(y, act, b);
    }
    SumFalls(y.phase.Keys, CostOf(y), CostOf(y'), act.k.agent);
    MineSparesProbers(y, act);
  }

  /** A prober's step moves its session and no phase. */
  lemma ProbeShape(y: Sys, act: Action)
    requires Forward(y, Lock(act))
    ensures var y' := Next(y, Lock(act));
            && y'.phase == y.phase && act.k in y.lock.sess && act.k.agent.kind.Prober?
            && y'.lock.sess == (if act.k in y'.lock.sess then y.lock.sess[act.k := y'.lock.sess[act.k]]
                                else y.lock.sess - {act.k})
            && (act.k in y'.lock.sess ==> ProbeCost(y'.lock.sess[act.k]) < ProbeCost(y.lock.sess[act.k]))
  {
    SessChange(y.lock, act);
  }

  lemma ProbeSparesInvocations(y: Sys, act: Action)
    requires Forward(y, Lock(act)) && forall a :: a in y.phase ==> a.kind.Invocation?
    ensures Sum(y.phase.Keys, CostOf(Next(y, Lock(act)))) == Sum(y.phase.Keys, CostOf(y))
  {
    var y' := Next(y, Lock(act));
    ProbeShape(y, act);
    forall a | a in y.phase.Keys ensures CostOf(y')(a) == CostOf(y)(a) {
      OthersCost(y.lock.sess, y'.lock.sess, act.k, a, y.phase[a]);
    }
    SumSame(y.phase.Keys, CostOf(y'), CostOf(y));
  }

  lemma ProbeLowersCost(y: Sys, act: Action)
    requires Forward(y, Lock(act)) && forall a :: a in y.phase ==> a.kind.Invocation?
    ensures Cost(Next(y, Lock(act))) < Cost(y)
  {
    var y', k := Next(y, Lock(act)), act.k;
    ProbeShape(y, act);
    ProbeSparesInvocations(y, act);
    if k in y'.lock.sess {
      assert Probers(y') == Probers(y);
      SumFalls(Probers(y), ProbeCostOf(y), ProbeCostOf(y'), k);
    } else {
      assert Probers(y') == Probers(y) - {k};
      SumPick(Probers(y), ProbeCostOf(y), k);
      SumSame(Probers(y'), ProbeCostOf(y), ProbeCostOf(y'));
    }
  }

  lemma PhaseStepCosts(y: Sys, ev: Event)
    requires Disciplined(y) && Forward(y, ev) && !ev.Lock? && !ev.Mine?
    ensures CostOf(Next(y, ev))(StepAgent(ev)) < CostOf(y)(StepAgent(ev))
  {
    assert InPhase(y.lock.sess, StepAgent(ev), y.phase[StepAgent(ev)]);
  }

  lemma PhaseLowersCost(y: Sys, ev: Event)
    requires Disciplined(y) && Forward(y, ev) && !ev.Lock? && !ev.Mine?
    ensures Cost(Next(y, ev)) < Cost(y)
  {
    var y', a := Next(y, ev), StepAgent(ev);
    PhaseStepCosts(y, ev);
    assert y'.phase == y.phase[a := y'.phase[a]] && y'.phase.Keys == y.phase.Keys && y'.lock == y.lock;
    SumFalls(y.phase.Keys, CostOf(y), CostOf(y'), a);
    assert Probers(y') == Probers(y);
    SumSame(Probers(y), ProbeCostOf(y), ProbeCostOf(y'));
  }

  /** Every step forward lowers what is left to do. */
  lemma StepLowersCost(y: Sys, ev: Event)
    requires SysInv(y) && Forward(y, ev)
    ensures Cost(Next(y, ev)) < Cost(y)
  {
    assert forall a :: a in y.phase ==> InPhase(y.lock.sess, a, y.phase[a]);
    match ev
    case Mine(act) => MineLowersCost(y, act);
    case Lock(act) => ProbeLowersCost(y, act);
    case _ => PhaseLowersCost(y, ev);
  }

  // ----- every run forward ends with all returned -----

  /** From some state on, one step forward after another. */
  ghost predicate ForwardRun(states: seq<Sys>, evs: seq<Event>) {
    && |states| == |evs| + 1
    && forall i :: 0 <= i < |evs| ==> Forward(states[i], evs[i]) && states[i + 1] == Next(states[i], evs[i])
  }

  /** No run forward is longer than what was left to do. */
  lemma {:induction false} ForwardRunsEnd(states: seq<Sys>, evs: seq<Event>, n: nat)
    requires ForwardRun(states, evs) && SysInv(states[0]) && n <= |evs|
    ensures SysInv(states[n]) && n + Cost(states[n]) <= Cost(states[0])
  {
    if n > 0 {
      ForwardRunsEnd(states, evs, n - 1);
      StepLowersCost(states[n - 1], evs[n - 1]);
      SysStepKeepsInv(states[n - 1], evs[n - 1]);
    }
  }

  /**
   * From any reachable state, whoever is scheduled and in whatever order, steps forward run out
   * within a bound, and where none is left every invocation has returned.
   */
  lemma EveryForwardRunReturnsAll(states: seq<Sys>, evs: seq<Event>, i: nat, onward: seq<Sys>, steps: seq<Event>)
    requires SysRun(states, evs) && i < |states| && ForwardRun(onward, steps) && onward[0] == states[i]
    ensures |steps| <= Cost(states[i])
    ensures (forall ev :: !Forward(onward[|steps|], ev)) ==>
              forall a :: a in onward[|steps|].phase ==> onward[|steps|].phase[a].Returned?
  {
    SysRunKeepsInv(states, evs, i);
    ForwardRunsEnd(onward, steps, |steps|);
    var y := onward[|steps|];
    if forall ev :: !Forward(y, ev) {
      forall a | a in y.phase ensures y.phase[a].Returned? {
        if !y.phase[a].Returned? {
          var ev := SomebodyMoves(y, a);
        }
      }
    }
  }
}
