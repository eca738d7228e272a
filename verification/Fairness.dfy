/** Both controllers together: turns in whatever order, the first calls with whatever faults.
    Every rule that has had its turns is rendered, and then every proxy that has had its own
    is settled; and exactly when it has its mounts. */
module Fairness {
  import opened Text
  import opened Objects
  import opened Api
  import opened Workloads
  import opened ProxyPasses
  import opened RulesPasses
  import opened Guarantees
  import opened Calmness
  import opened Runs
  import ProxySafety
  import RulesSafety
  import Convergence
  import RulesConvergence
  import LastSum
  import AnnotationLoss

  /** Nobody but the controllers acts, and no call fails any more from call `faulty` on. */
  ghost predicate FaultsEnd(o: Oracle, faulty: nat) {
    Clock(o) && Quiet(o) && forall i: nat | i >= faulty :: o.fate(i).Fine?
  }

  lemma QuietIsLawful(o: Oracle)
    requires Clock(o) && Quiet(o)
    ensures Lawful(o)
  {
    forall n: nat, c: Cluster ensures Behaves(o, n, c) {
      assert o.interfere(n, c) == c && o.now(n) < o.now(n + 1);
    }
  }

  // ---- what a turn cannot change, whatever fails ------------------------

  /** What the record says of an object is then all that has happened to it. */
  lemma {:induction false} QuietReplays(o: Oracle, w: World, x: World, r: Ref)
    requires Quiet(o) && Leads(o, w, x)
    ensures Chain(Absent, x.log[|w.log|..], r, Stored(w.c, r), Stored(x.c, r))
  {
    assert StatusLeftAlone(o, Absent, r) by {
      forall n: nat, c: Cluster ensures StatusKept(Absent, Stored(c, r), Stored(o.interfere(n, c), r)) {
        assert o.interfere(n, c) == c;
      }
    }
  }

  predicate Alive(obj: Option<Object>) { obj.Some? && obj.value.IsResource() && !obj.value.cr.deleting }

  /** A custom resource that is not being deleted stays, with its spec, and none appears. */
  predicate Endures(a: Option<Object>, b: Option<Object>) {
    && (Alive(a) <==> Alive(b))
    && (Alive(a) ==>
          && b.value.Kind() == a.value.Kind()
          && (a.value.ProxyObject? ==> b.value.spec == a.value.spec)
          && (a.value.RuleObject? ==> b.value.rules == a.value.rules))
  }

  lemma {:induction false} ChainEndures(log: seq<Event>, r: Ref, a: Option<Object>, b: Option<Object>)
    requires Chain(Absent, log, r, a, b) && Edits(log, r)
    ensures Endures(a, b)
    decreases |log|
  {
    if log != [] {
      assert forall i | 0 <= i < |log[1..]| :: log[1..][i] == log[i + 1];
      ChainEndures(log[1..], r, if log[0].Wrote? && log[0].ref == r then log[0].after else a, b);
    }
  }

  lemma TurnEndures(o: Oracle, w: World, turn: Turn, r: Ref)
    requires Clock(o) && Quiet(o) && InOrder(o, w) && r.kind in {ProxyKind, RuleKind}
    ensures var x := Take(o, w, turn);
            InOrder(o, x) && x.calls > w.calls && Endures(Stored(w.c, r), Stored(x.c, r))
  {
    var x := Take(o, w, turn);
    QuietIsLawful(o);
    TakeAccounted(o, w, turn);
    match turn {
      case ProxyTurn(k) => ProxySafety.ProxyGuarantee(o, w, k);
      case RulesTurn(k) => RulesSafety.RulesGuarantee(o, w, k);
    }
    AccountedEdits(x.log, |w.log|, r);
    QuietReplays(o, w, x, r);
    ChainEndures(x.log[|w.log|..], r, Stored(w.c, r), Stored(x.c, r));
  }

  predicate Owns(turn: Turn, r: Ref) {
    match turn
    case ProxyTurn(k) => r in {ProxyRef(k), DepRef(k), SvcRef(k)}
    case RulesTurn(k) => r in {RuleRef(k), CmRef(k)} || r.kind == DeploymentKind
  }

  lemma TurnFrame(o: Oracle, w: World, turn: Turn, r: Ref)
    requires Clock(o) && Quiet(o) && InOrder(o, w) && !Owns(turn, r)
    ensures CopyOf(Take(o, w, turn).c, r) == CopyOf(w.c, r)
  {
    QuietIsLawful(o);
    match turn
    case ProxyTurn(k) => LastSum.ProxyPassFrame(o, w, k, r);
    case RulesTurn(k) => RulesPassFrame(o, w, k, r);
  }

  lemma RulesPassFrame(o: Oracle, w: World, k: Key, r: Ref)
    requires Lawful(o) && Quiet(o) && InOrder(o, w) && !Owns(RulesTurn(k), r)
    ensures CopyOf(RulesPass(o, w, k).0.c, r) == CopyOf(w.c, r)
  {
    var x := RulesPass(o, w, k).0;
    RulesSafety.RulesGuarantee(o, w, k);
    assert Untouched(o, r) by {
      forall n: nat, c: Cluster ensures CopyOf(o.interfere(n, c), r) == CopyOf(c, r) { assert o.interfere(n, c) == c; }
    }
    if x.log != w.log {
      forall i | |w.log| <= i < |x.log| ensures x.log[i].Read? || x.log[i].ref != r {
        assert RulesEvent(k, Live(x.log[|w.log|].obj.cr), x.log[|w.log|].obj, x.log[i]);
      }
    }
    assert Unwritten(w, x, r);
  }

  lemma {:induction false} RunSum(o: Oracle, w: World, a: seq<Turn>, b: seq<Turn>)
    ensures Run(o, w, a + b) == Run(o, Run(o, w, a), b)
    decreases |a|
  {
    if a == [] {
      assert a + b == b;
    } else {
      assert (a + b)[1..] == a[1..] + b;
      RunSum(o, Take(o, w, a[0]), a[1..], b);
    }
  }

  lemma TurnsLeft(turns: seq<Turn>, turn: Turn)
    requires turns != []
    ensures multiset(turns)[turn] == One(turns[0] == turn) + multiset(turns[1..])[turn]
  {
    assert turns == [turns[0]] + turns[1..];
  }

  // ---- rules ------------------------------------------------------------

  /** The rule stands, in a cluster in order. */
  ghost predicate RuleAt(o: Oracle, k: Key, rules: RuleSpec, w: World) {
    InOrder(o, w) && RulesConvergence.Stands(w.c, k, rules)
  }

  /** How many turns of its own a rule still needs, at the most. */
  ghost function RuleTodo(o: Oracle, w: World, k: Key, faulty: nat): nat
    requires RuleRef(k) in w.c.objs
  {
    if w.calls < faulty then faulty - w.calls + 3 else RulesConvergence.Distance(o, w.c, k)
  }

  lemma OwnRuleTurn(o: Oracle, w: World, k: Key, rules: RuleSpec, faulty: nat)
    requires FaultsEnd(o, faulty) && Injective(o) && RuleAt(o, k, rules, w)
    ensures var x := RulesPass(o, w, k).0;
            && RuleAt(o, k, rules, x)
            && (RuleTodo(o, x, k, faulty) < RuleTodo(o, w, k, faulty) || RuleTodo(o, x, k, faulty) == 0)
  {
    TurnEndures(o, w, RulesTurn(k), RuleRef(k));
    if w.calls >= faulty { RulesConvergence.PassApproaches(o, w, k, rules); }
  }

  ghost predicate Injective(o: Oracle) { RulesConvergence.Injective(o.hash) }

  lemma OtherTurnForRule(o: Oracle, w: World, turn: Turn, k: Key, rules: RuleSpec, faulty: nat)
    requires FaultsEnd(o, faulty) && RuleAt(o, k, rules, w) && turn != RulesTurn(k)
    ensures var x := Take(o, w, turn);
            RuleAt(o, k, rules, x) && RuleTodo(o, x, k, faulty) <= RuleTodo(o, w, k, faulty)
  {
    TurnEndures(o, w, turn, RuleRef(k));
    TurnFrame(o, w, turn, RuleRef(k));
    TurnFrame(o, w, turn, CmRef(k));
  }

  lemma {:induction false} RunForRule(o: Oracle, w: World, turns: seq<Turn>, k: Key, rules: RuleSpec, faulty: nat,
                                      n: nat)
    requires FaultsEnd(o, faulty) && Injective(o) && RuleAt(o, k, rules, w)
    requires RuleTodo(o, w, k, faulty) <= n + multiset(turns)[RulesTurn(k)]
    ensures var x := Run(o, w, turns); RuleAt(o, k, rules, x) && RuleTodo(o, x, k, faulty) <= n
    decreases |turns|
  {
    if turns != [] {
      TurnsLeft(turns, RulesTurn(k));
      if turns[0] == RulesTurn(k) {
        OwnRuleTurn(o, w, k, rules, faulty);
      } else {
        OtherTurnForRule(o, w, turns[0], k, rules, faulty);
      }
      RunForRule(o, Take(o, w, turns[0]), turns[1..], k, rules, faulty, n);
    }
  }

  /** Nothing is left to do for the rule, and no call fails any more. */
  ghost predicate RuleRests(o: Oracle, k: Key, rules: RuleSpec, faulty: nat, x: World) {
    && RuleAt(o, k, rules, x) && x.calls >= faulty
    && RulesConvergence.Distance(o, x.c, k) == 0 && RulesConvergence.Rendered(o, x.c, k, rules)
  }

  /** Whatever the first `faulty` calls do, and whatever turns either controller takes in
      between, for this rule, for others or for proxies: once the rule has had `faulty` + 3
      turns of its own its ConfigMap holds the rendered spec, and it stays so. */
  lemma {:induction false} RulesSettle(o: Oracle, w: World, turns: seq<Turn>, k: Key, rules: RuleSpec, faulty: nat)
    requires FaultsEnd(o, faulty) && Injective(o) && RuleAt(o, k, rules, w)
    requires multiset(turns)[RulesTurn(k)] >= faulty + 3
    ensures RuleRests(o, k, rules, faulty, Run(o, w, turns))
  {
    RunForRule(o, w, turns, k, rules, faulty, 0);
  }

  // ---- proxies ----------------------------------------------------------

  /** The calls no longer fail, and of the rules that still have turns to come, those that
      stand have nothing left to do. */
  ghost predicate Resting(o: Oracle, w: World, turns: seq<Turn>, faulty: nat) {
    && InOrder(o, w) && w.calls >= faulty
    && forall j: Key, rules: RuleSpec | RulesTurn(j) in turns && RulesConvergence.Stands(w.c, j, rules) ::
         RulesConvergence.Distance(o, w.c, j) == 0
  }

  ghost predicate ChangesOnly(c: Cluster, d: Cluster, q: Ref) {
    forall r: Ref | r != q :: CopyOf(d, r) == CopyOf(c, r)
  }

  predicate StandingRule(c: Cluster, k: Key) { RuleRef(k) in c.objs && !c.objs[RuleRef(k)].obj.cr.deleting }

  lemma {:induction false} DoneRuleTurn(o: Oracle, w: World, k: Key)
    requires Calm(o, w.calls) && Injective(o) && StandingRule(w.c, k) && RulesConvergence.Distance(o, w.c, k) == 0
    ensures RulesPass(o, w, k).0.c == w.c
  {
    RulesConvergence.PassApproaches(o, w, k, w.c.objs[RuleRef(k)].obj.rules);
  }

  lemma {:induction false} GoneRuleTurn(o: Oracle, w: World, k: Key)
    requires Calm(o, w.calls) && !StandingRule(w.c, k)
    ensures ChangesOnly(w.c, RulesPass(o, w, k).0.c, RuleRef(k))
  {
    LastSum.NotStandingFrame(o, w, k);
  }

  /** Then a turn for a rule changes at most a rule that is being deleted. */
  lemma {:induction false} RestingRuleTurn(o: Oracle, w: World, k: Key, turns: seq<Turn>, faulty: nat)
    requires FaultsEnd(o, faulty) && Injective(o) && Resting(o, w, turns, faulty) && RulesTurn(k) in turns
    ensures var x := RulesPass(o, w, k).0.c; ChangesOnly(w.c, x, RuleRef(k)) && (StandingRule(w.c, k) ==> x == w.c)
  {
    if StandingRule(w.c, k) {
      assert RulesConvergence.Stands(w.c, k, w.c.objs[RuleRef(k)].obj.rules);
      DoneRuleTurn(o, w, k);
    } else {
      GoneRuleTurn(o, w, k);
    }
  }

  lemma TurnKeepsResting(o: Oracle, w: World, turn: Turn, turns: seq<Turn>, faulty: nat)
    requires FaultsEnd(o, faulty) && Injective(o) && Resting(o, w, turns, faulty) && turn in turns
    ensures Resting(o, Take(o, w, turn), turns, faulty)
  {
    var x := Take(o, w, turn);
    forall j: Key, rules: RuleSpec | RulesTurn(j) in turns && RulesConvergence.Stands(x.c, j, rules)
      ensures RulesConvergence.Distance(o, x.c, j) == 0
    {
      TurnEndures(o, w, turn, RuleRef(j));
      assert RulesConvergence.Stands(w.c, j, rules);
      if turn == RulesTurn(j) {
        RestingRuleTurn(o, w, j, turns, faulty);
      } else {
        TurnFrame(o, w, turn, RuleRef(j));
        TurnFrame(o, w, turn, CmRef(j));
      }
    }
    QuietIsLawful(o);
    TakeAccounted(o, w, turn);
  }

  ghost predicate ProxyAt(k: Key, spec: ProxySpec, w: World) {
    Convergence.Standing(w.c, k) && Convergence.SpecOf(w.c, k) == spec
  }

  /** How many turns of its own a proxy still needs. */
  ghost function ProxyTodo(c: Cluster, k: Key): nat
    requires Convergence.Standing(c, k)
  {
    if Convergence.Settled(c, k) then 0 else Convergence.Distance(c, k) + 1
  }

  lemma OwnProxyTurn(o: Oracle, w: World, k: Key, spec: ProxySpec, faulty: nat)
    requires FaultsEnd(o, faulty) && w.calls >= faulty && ProxyAt(k, spec, w) && spec.ports != []
    ensures var x := ProxyPass(o, w, k).0;
            ProxyAt(k, spec, x) && (ProxyTodo(x.c, k) < ProxyTodo(w.c, k) || ProxyTodo(x.c, k) == 0)
  {
    Convergence.PassApproaches(o, w, k);
  }

  lemma SamePicture(c: Cluster, d: Cluster, k: Key)
    requires Convergence.Standing(c, k)
    requires forall r: Ref | r in {ProxyRef(k), DepRef(k), SvcRef(k)} || r.kind == ConfigMapKind ::
               CopyOf(d, r) == CopyOf(c, r)
    ensures Convergence.Standing(d, k) && Convergence.PictureOf(d, k) == Convergence.PictureOf(c, k)
    ensures ProxyTodo(d, k) == ProxyTodo(c, k)
  {
    assert CopyOf(d, ProxyRef(k)) == CopyOf(c, ProxyRef(k));
    assert CopyOf(d, DepRef(k)) == CopyOf(c, DepRef(k)) && CopyOf(d, SvcRef(k)) == CopyOf(c, SvcRef(k));
    forall r: Ref | r.kind == ConfigMapKind ensures Stored(c, r) == Stored(d, r) {
      assert CopyOf(d, r) == CopyOf(c, r);
    }
    Convergence.SelectedFrame(c, d, k.ns, Convergence.SpecOf(c, k).rulesets);
  }

  lemma OtherTurnForProxy(o: Oracle, w: World, turn: Turn, k: Key, spec: ProxySpec, turns: seq<Turn>, faulty: nat)
    requires FaultsEnd(o, faulty) && Injective(o) && Resting(o, w, turns, faulty) && turn in turns
    requires ProxyAt(k, spec, w) && turn != ProxyTurn(k)
    ensures var x := Take(o, w, turn); ProxyAt(k, spec, x) && ProxyTodo(x.c, k) == ProxyTodo(w.c, k)
  {
    var x := Take(o, w, turn);
    match turn {
      case RulesTurn(j) => RestingRuleTurn(o, w, j, turns, faulty);
      case ProxyTurn(j) =>
        forall r: Ref | r in {ProxyRef(k), DepRef(k), SvcRef(k)} || r.kind == ConfigMapKind
          ensures CopyOf(x.c, r) == CopyOf(w.c, r)
        {
          TurnFrame(o, w, turn, r);
        }
    }
    SamePicture(w.c, x.c, k);
  }

  lemma {:induction false} RunForProxy(o: Oracle, w: World, turns: seq<Turn>, k: Key, spec: ProxySpec, faulty: nat)
    requires FaultsEnd(o, faulty) && Injective(o) && Resting(o, w, turns, faulty)
    requires ProxyAt(k, spec, w) && spec.ports != [] && ProxyTodo(w.c, k) <= multiset(turns)[ProxyTurn(k)]
    ensures ProxyAt(k, spec, Run(o, w, turns)) && Convergence.Settled(Run(o, w, turns).c, k)
    decreases |turns|
  {
    if turns != [] {
      TurnsLeft(turns, ProxyTurn(k));
      if turns[0] == ProxyTurn(k) {
        OwnProxyTurn(o, w, k, spec, faulty);
      } else {
        OtherTurnForProxy(o, w, turns[0], k, spec, turns, faulty);
      }
      TurnKeepsResting(o, w, turns[0], turns, faulty);
      RunForProxy(o, Take(o, w, turns[0]), turns[1..], k, spec, faulty);
    }
  }

  lemma {:induction false} ProxyEndures(o: Oracle, w: World, turns: seq<Turn>, k: Key, spec: ProxySpec)
    requires Clock(o) && Quiet(o) && InOrder(o, w) && ProxyAt(k, spec, w)
    ensures var x := Run(o, w, turns); InOrder(o, x) && x.calls >= w.calls + |turns| && ProxyAt(k, spec, x)
    decreases |turns|
  {
    if turns != [] {
      TurnEndures(o, w, turns[0], ProxyRef(k));
      ProxyEndures(o, Take(o, w, turns[0]), turns[1..], k, spec);
    }
  }

  lemma {:induction false} RuleStoodBefore(o: Oracle, w: World, turns: seq<Turn>, k: Key, rules: RuleSpec)
    requires Clock(o) && Quiet(o) && InOrder(o, w) && RulesConvergence.Stands(Run(o, w, turns).c, k, rules)
    ensures RuleAt(o, k, rules, w)
    decreases |turns|
  {
    if turns != [] {
      TurnEndures(o, w, turns[0], RuleRef(k));
      RuleStoodBefore(o, Take(o, w, turns[0]), turns[1..], k, rules);
    }
  }

  /** Enough turns for every rule that has more of them to come. */
  ghost predicate RulesServed(c: Cluster, first: seq<Turn>, second: seq<Turn>, faulty: nat) {
    forall j: Key, rules: RuleSpec | RulesTurn(j) in second && RulesConvergence.Stands(c, j, rules) ::
      multiset(first)[RulesTurn(j)] >= faulty + 3
  }

  lemma {:induction false} ServedRest(o: Oracle, w: World, first: seq<Turn>, second: seq<Turn>, faulty: nat, k: Key,
                                      spec: ProxySpec)
    requires FaultsEnd(o, faulty) && Injective(o) && InOrder(o, w) && ProxyAt(k, spec, w)
    requires |first| >= faulty && RulesServed(w.c, first, second, faulty)
    ensures Resting(o, Run(o, w, first), second, faulty) && ProxyAt(k, spec, Run(o, w, first))
  {
    var x := Run(o, w, first);
    ProxyEndures(o, w, first, k, spec);
    forall j: Key, rules: RuleSpec | RulesTurn(j) in second && RulesConvergence.Stands(x.c, j, rules)
      ensures RulesConvergence.Distance(o, x.c, j) == 0
    {
      RuleStoodBefore(o, w, first, j, rules);
      RulesSettle(o, w, first, j, rules, faulty);
    }
  }

  /** Joint convergence. The turns of both controllers come in any order, the first `faulty`
      calls of all may do anything. Once the rules have had `faulty` + 3 turns each, or get no
      more turns, and after that a standing proxy with a port has had seven, it is settled,
      for what the rules then select; and it stays so, as every longer run is one of these. */
  lemma {:induction false} BothSettle(o: Oracle, w: World, first: seq<Turn>, second: seq<Turn>, k: Key, spec: ProxySpec,
                                      faulty: nat)
    requires FaultsEnd(o, faulty) && Injective(o) && InOrder(o, w)
    requires |first| >= faulty && RulesServed(w.c, first, second, faulty)
    requires ProxyAt(k, spec, w) && spec.ports != [] && multiset(second)[ProxyTurn(k)] >= 7
    ensures var x := Run(o, w, first + second); ProxyAt(k, spec, x) && Convergence.Settled(x.c, k)
    ensures forall j: Key, rules: RuleSpec | multiset(first)[RulesTurn(j)] >= faulty + 3
            && RulesConvergence.Stands(w.c, j, rules) ::
              RuleRests(o, j, rules, faulty, Run(o, w, first + second))
  {
    RunSum(o, w, first, second);
    ServedRest(o, w, first, second, faulty, k, spec);
    var _ := Convergence.SixAtMost(k);
    RunForProxy(o, Run(o, w, first), second, k, spec, faulty);
    forall j: Key, rules: RuleSpec | multiset(first)[RulesTurn(j)] >= faulty + 3
      && RulesConvergence.Stands(w.c, j, rules)
      ensures RuleRests(o, j, rules, faulty, Run(o, w, first + second))
    {
      assert multiset(first + second) == multiset(first) + multiset(second);
      RulesSettle(o, w, first + second, j, rules, faulty);
    }
  }

  // ---- any schedule -----------------------------------------------------

  ghost function Turns(s: nat -> Turn, from: nat, to: nat): (turns: seq<Turn>)
    requires from <= to
    ensures |turns| == to - from && forall i | 0 <= i < to - from :: turns[i] == s(from + i)
  {
    seq(to - from, i requires 0 <= i < to - from => s(from + i))
  }

  ghost predicate ComesAfter(s: nat -> Turn, turn: Turn, n: nat) { exists m: nat :: m >= n && s(m) == turn }

  ghost predicate AgainAndAgain(s: nat -> Turn, turn: Turn) { forall n: nat :: ComesAfter(s, turn, n) }

  lemma {:induction false} TurnsJoin(s: nat -> Turn, a: nat, b: nat, c: nat, turn: Turn)
    requires a <= b <= c
    ensures Turns(s, a, c) == Turns(s, a, b) + Turns(s, b, c)
    ensures multiset(Turns(s, a, c))[turn] == multiset(Turns(s, a, b))[turn] + multiset(Turns(s, b, c))[turn]
  {
    assert Turns(s, a, c) == Turns(s, a, b) + Turns(s, b, c);
  }

  lemma {:induction false} Often(s: nat -> Turn, turn: Turn, from: nat, want: nat) returns (to: nat)
    requires AgainAndAgain(s, turn)
    ensures to >= from && multiset(Turns(s, from, to))[turn] >= want
  {
    to := from;
    if want > 0 {
      var mid := Often(s, turn, from, want - 1);
      assert ComesAfter(s, turn, mid);
      var m: nat :| m >= mid && s(m) == turn;
      to := m + 1;
      assert Turns(s, m, to) == [turn];
      TurnsJoin(s, from, mid, m, turn);
      TurnsJoin(s, from, m, to, turn);
    }
  }

  /** By turn `n` the rule has had its turns, or it gets no more. */
  ghost predicate ServedBy(s: nat -> Turn, k: Key, faulty: nat, n: nat) {
    multiset(Turns(s, 0, n))[RulesTurn(k)] >= faulty + 3 || !ComesAfter(s, RulesTurn(k), n)
  }

  lemma {:induction false} ServedLater(s: nat -> Turn, k: Key, faulty: nat, n: nat, m: nat)
    requires ServedBy(s, k, faulty, n) && n <= m
    ensures ServedBy(s, k, faulty, m)
  {
    TurnsJoin(s, 0, n, m, RulesTurn(k));
  }

  /** One of the two comes about, for any rule and any schedule. */
  lemma {:induction false} ServedSometime(s: nat -> Turn, k: Key, faulty: nat) returns (n: nat)
    ensures ServedBy(s, k, faulty, n)
  {
    if AgainAndAgain(s, RulesTurn(k)) {
      n := Often(s, RulesTurn(k), 0, faulty + 3);
    } else {
      n :| !ComesAfter(s, RulesTurn(k), n);
    }
  }

  lemma {:induction false} AllServedSometime(s: nat -> Turn, keys: set<Key>, faulty: nat) returns (n: nat)
    ensures forall k | k in keys :: ServedBy(s, k, faulty, n)
    decreases keys
  {
    n := 0;
    if keys != {} {
      var k :| k in keys;
      var a := ServedSometime(s, k, faulty);
      var b := AllServedSometime(s, keys - {k}, faulty);
      n := if a < b then b else a;
      ServedLater(s, k, faulty, a, n);
      forall j | j in keys - {k} ensures ServedBy(s, j, faulty, n) { ServedLater(s, j, faulty, b, n); }
    }
  }

  lemma {:induction false} ServedByServes(c: Cluster, s: nat -> Turn, n: nat, m: nat, faulty: nat)
    requires n <= m && forall j | RuleRef(j) in c.objs :: ServedBy(s, j, faulty, n)
    ensures RulesServed(c, Turns(s, 0, n), Turns(s, n, m), faulty)
  {
    forall j: Key, rules: RuleSpec | RulesTurn(j) in Turns(s, n, m) && RulesConvergence.Stands(c, j, rules)
      ensures multiset(Turns(s, 0, n))[RulesTurn(j)] >= faulty + 3
    {
      var i :| 0 <= i < m - n && Turns(s, n, m)[i] == RulesTurn(j);
      assert s(n + i) == RulesTurn(j) && ServedBy(s, j, faulty, n);
    }
  }

  function RuleKeys(c: Cluster): (keys: set<Key>)
    ensures forall k | RuleRef(k) in c.objs :: k in keys
  {
    var keys := set r | r in c.objs && r.kind == RuleKind :: r.key;
    assert forall k | RuleRef(k) in c.objs :: RuleRef(k).key in keys;
    keys
  }

  /** For every endless schedule of turns, with any faults in the first `faulty` calls: a standing
      proxy with a port that gets turns again and again is settled from some turn on, and every
      standing rule that gets turns again and again is rendered from then on. No order, no
      rate and no turn of anything else is asked for. */
  lemma {:induction false} EverySchedule(o: Oracle, w: World, s: nat -> Turn, k: Key, spec: ProxySpec, faulty: nat)
    returns (n: nat)
    requires FaultsEnd(o, faulty) && Injective(o) && InOrder(o, w)
    requires ProxyAt(k, spec, w) && spec.ports != [] && AgainAndAgain(s, ProxyTurn(k))
    ensures forall m: nat | m >= n :: Convergence.Settled(Run(o, w, Turns(s, 0, m)).c, k)
    ensures forall j: Key, rules: RuleSpec, m: nat
              | m >= n && AgainAndAgain(s, RulesTurn(j)) && RulesConvergence.Stands(w.c, j, rules) ::
              RuleRests(o, j, rules, faulty, Run(o, w, Turns(s, 0, m)))
  {
    var a := AllServedSometime(s, RuleKeys(w.c), faulty);
    var b := if a < faulty then faulty else a;
    forall j | RuleRef(j) in w.c.objs ensures ServedBy(s, j, faulty, b) { ServedLater(s, j, faulty, a, b); }
    n := Often(s, ProxyTurn(k), b, 7);
    forall m: nat | m >= n
      ensures Convergence.Settled(Run(o, w, Turns(s, 0, m)).c, k)
      ensures forall j: Key, rules: RuleSpec
                | AgainAndAgain(s, RulesTurn(j)) && RulesConvergence.Stands(w.c, j, rules) ::
                RuleRests(o, j, rules, faulty, Run(o, w, Turns(s, 0, m)))
    {
      ScheduledTo(o, w, s, k, spec, faulty, b, n, m);
    }
  }

  /** What `BothSettle` says of the first `m` turns. */
  lemma {:induction false} ScheduledTo(o: Oracle, w: World, s: nat -> Turn, k: Key, spec: ProxySpec, faulty: nat,
                                       b: nat, n: nat, m: nat)
    requires FaultsEnd(o, faulty) && Injective(o) && InOrder(o, w) && ProxyAt(k, spec, w) && spec.ports != []
    requires faulty <= b <= n <= m && multiset(Turns(s, b, n))[ProxyTurn(k)] >= 7
    requires forall j | RuleRef(j) in w.c.objs :: ServedBy(s, j, faulty, b)
    ensures Convergence.Settled(Run(o, w, Turns(s, 0, m)).c, k)
    ensures forall j: Key, rules: RuleSpec | AgainAndAgain(s, RulesTurn(j)) && RulesConvergence.Stands(w.c, j, rules) ::
              RuleRests(o, j, rules, faulty, Run(o, w, Turns(s, 0, m)))
  {
    TurnsJoin(s, b, n, m, ProxyTurn(k));
    TurnsJoin(s, 0, b, m, ProxyTurn(k));
    ServedByServes(w.c, s, b, m, faulty);
    BothSettle(o, w, Turns(s, 0, b), Turns(s, b, m), k, spec, faulty);
    forall j: Key, rules: RuleSpec | AgainAndAgain(s, RulesTurn(j)) && RulesConvergence.Stands(w.c, j, rules)
      ensures RuleRests(o, j, rules, faulty, Run(o, w, Turns(s, 0, m)))
    {
      assert ServedBy(s, j, faulty, b) && ComesAfter(s, RulesTurn(j), b);
    }
  }

  // ---- with its mounts, or without --------------------------------------

  /** What writes make of a Deployment: what its pods have in their environment stays, and
      without an annotation it gets none. A rollout leaves the annotations as they are. */
  predicate Drifts(rollout: bool, a: Object, b: Object) {
    && a.DeploymentObject? && b.DeploymentObject?
    && b.deployment.template.env == a.deployment.template.env
    && (CONF !in a.deployment.annotations ==> CONF !in b.deployment.annotations)
    && (rollout ==> b.deployment.annotations == a.deployment.annotations)
  }

  ghost predicate Drifting(rollout: bool, log: seq<Event>, r: Ref) {
    forall i | 0 <= i < |log| && log[i].Wrote? && log[i].ref == r && log[i].before.Some? ::
      log[i].after.Some? && Drifts(rollout, log[i].before.value, log[i].after.value)
  }

  lemma {:induction false} ChainDrifts(rollout: bool, log: seq<Event>, r: Ref, a: Object, b: Option<Object>)
    requires Chain(Absent, log, r, Some(a), b) && Drifting(rollout, log, r) && a.DeploymentObject?
    ensures b.Some? && Drifts(rollout, a, b.value)
    decreases |log|
  {
    if log != [] {
      assert forall i | 0 <= i < |log[1..]| :: log[1..][i] == log[i + 1];
      ChainDrifts(rollout, log[1..], r, if log[0].Wrote? && log[0].ref == r then log[0].after.value else a, b);
    }
  }

  lemma LogDrifts(o: Oracle, w: World, x: World, rollout: bool, r: Ref)
    requires Quiet(o) && Leads(o, w, x) && r.kind == DeploymentKind && r in w.c.objs
    requires Drifting(rollout, x.log[|w.log|..], r)
    ensures r in x.c.objs && Drifts(rollout, w.c.objs[r].obj, x.c.objs[r].obj)
  {
    QuietReplays(o, w, x, r);
    ChainDrifts(rollout, x.log[|w.log|..], r, w.c.objs[r].obj, Stored(x.c, r));
  }

  lemma TurnDrifts(o: Oracle, w: World, turn: Turn, r: Ref)
    requires Clock(o) && Quiet(o) && InOrder(o, w) && r.kind == DeploymentKind && r in w.c.objs
    ensures var x := Take(o, w, turn).c;
            r in x.objs && Drifts(turn.RulesTurn?, w.c.objs[r].obj, x.objs[r].obj)
  {
    var x := Take(o, w, turn);
    QuietIsLawful(o);
    TakeAccounted(o, w, turn);
    forall i | |w.log| <= i < |x.log| && x.log[i].Wrote? && x.log[i].ref == r && x.log[i].before.Some?
      ensures x.log[i].after.Some? && Drifts(turn.RulesTurn?, x.log[i].before.value, x.log[i].after.value)
    {
      match turn
      case ProxyTurn(k) =>
        ProxySafety.ProxyGuarantee(o, w, k);
        assert ProxyEvent(k, Live(x.log[|w.log|].obj.cr), x.log[|w.log|].obj, x.log[i]);
      case RulesTurn(k) =>
        RulesSafety.RulesGuarantee(o, w, k);
        assert RulesEvent(k, Live(x.log[|w.log|].obj.cr), x.log[|w.log|].obj, x.log[i]);
    }
    LogDrifts(o, w, x, turn.RulesTurn?, r);
  }

  /** The Deployment, if there is one, was written by the operator and is annotated. */
  ghost predicate NotedIfAny(c: Cluster, k: Key) {
    DepRef(k) in c.objs ==> AnnotationLoss.Noted(c, k) && ByOperator(c.objs[DepRef(k)].obj.deployment)
  }

  lemma CreationNoted(o: Oracle, w: World, k: Key, v: Versioned)
    requires Quiet(o) && DepRef(k) !in w.c.objs && v.obj.ProxyObject?
    ensures NotedIfAny(CreateDeployment(o, w, k, v).0.c, k)
  {
    AnnotationLoss.QuietCollect(o, w, k.ns, v.obj.spec.rulesets, []);
    var (x, names, complete) := Collect(o, w, k.ns, v.obj.spec.rulesets, []);
    if !complete {
      AnnotationLoss.ReportFailureElsewhere(o, x, k, v, DeploymentKind, Unavailable);
    } else {
      assert o.interfere(x.calls, x.c) == x.c;
      var (y, owned) := Local(o, x);
      if !owned {
        AnnotationLoss.ReportFailureElsewhere(o, y, k, v, DeploymentKind, OwnerReference);
      } else {
        assert o.interfere(y.calls, y.c) == y.c;
        var d := DeploymentFor(k, v.obj.cr, v.obj.spec, names);
        var (z, made) := Create(o, y, DepRef(k), DeploymentObject(d));
        assert NotedIfAny(z.c, k);
        if made.Err? { AnnotationLoss.ReportFailureElsewhere(o, z, k, v, DeploymentKind, made.error); }
      }
    }
  }

  /** A proxy pass that finds no Deployment creates an annotated one, or none. */
  lemma {:induction false} PassCreatesNoted(o: Oracle, w: World, k: Key)
    requires Quiet(o) && Convergence.Standing(w.c, k) && DepRef(k) !in w.c.objs
    ensures NotedIfAny(ProxyPass(o, w, k).0.c, k)
  {
    var y := Get(o, w, ProxyRef(k)).0;
    AnnotationLoss.PassFinds(o, w, k);
    if o.fate(w.calls).Fine? {
      if Live(Convergence.CrOf(w.c, k)) {
        assert o.interfere(y.calls, y.c) == y.c;
        CreationNoted(o, Get(o, y, DepRef(k)).0, k, w.c.objs[ProxyRef(k)]);
      } else {
        AnnotationLoss.ClaimElsewhere(o, y, k);
      }
    }
  }

  lemma {:induction false} ChainCreatesNone(log: seq<Event>, r: Ref, b: Option<Object>)
    requires Chain(Absent, log, r, None, b)
    requires forall i | 0 <= i < |log| && log[i].Wrote? && log[i].ref == r :: log[i].before.Some?
    ensures b == None
    decreases |log|
  {
    if log != [] {
      assert forall i | 0 <= i < |log[1..]| :: log[1..][i] == log[i + 1];
      ChainCreatesNone(log[1..], r, b);
    }
  }

  lemma RolloutCreatesNone(o: Oracle, w: World, k: Key, r: Ref)
    requires Clock(o) && Quiet(o) && InOrder(o, w) && r.kind == DeploymentKind && r !in w.c.objs
    ensures r !in RulesPass(o, w, k).0.c.objs
  {
    var x := RulesPass(o, w, k).0;
    QuietIsLawful(o);
    RulesSafety.RulesGuarantee(o, w, k);
    forall i | |w.log| <= i < |x.log| && x.log[i].Wrote? && x.log[i].ref == r ensures x.log[i].before.Some? {
      assert RulesEvent(k, Live(x.log[|w.log|].obj.cr), x.log[|w.log|].obj, x.log[i]);
    }
    QuietReplays(o, w, x, r);
    ChainCreatesNone(x.log[|w.log|..], r, Stored(x.c, r));
  }

  /** A turn that takes the annotation away. */
  ghost predicate LosesAt(o: Oracle, w: World, turn: Turn, k: Key) {
    turn == ProxyTurn(k) && AnnotationLoss.TakesAway(o, w, k)
  }

  ghost predicate LosesOnTheWay(o: Oracle, w: World, turns: seq<Turn>, k: Key)
    decreases |turns|
  {
    turns != [] && (LosesAt(o, w, turns[0], k) || LosesOnTheWay(o, Take(o, w, turns[0]), turns[1..], k))
  }

  /** The Deployment is there without its annotation. */
  ghost predicate Lost(c: Cluster, k: Key) {
    DepRef(k) in c.objs && !AnnotationLoss.Noted(c, k) && ByOperator(c.objs[DepRef(k)].obj.deployment)
  }

  lemma OwnTurnNotes(o: Oracle, w: World, k: Key)
    requires Clock(o) && Quiet(o) && InOrder(o, w) && Convergence.Standing(w.c, k) && NotedIfAny(w.c, k)
    ensures var x := ProxyPass(o, w, k).0.c;
            if AnnotationLoss.TakesAway(o, w, k) then Lost(x, k) else NotedIfAny(x, k)
  {
    if DepRef(k) in w.c.objs {
      AnnotationLoss.LosesAnnotation(o, w, k);
      TurnDrifts(o, w, ProxyTurn(k), DepRef(k));
    } else {
      PassCreatesNoted(o, w, k);
    }
  }

  lemma OtherTurnNotes(o: Oracle, w: World, turn: Turn, k: Key)
    requires Clock(o) && Quiet(o) && InOrder(o, w) && turn != ProxyTurn(k) && NotedIfAny(w.c, k)
    ensures NotedIfAny(Take(o, w, turn).c, k)
  {
    match turn
    case ProxyTurn(j) => TurnFrame(o, w, turn, DepRef(k));
    case RulesTurn(j) =>
      if DepRef(k) in w.c.objs { TurnDrifts(o, w, turn, DepRef(k)); } else { RolloutCreatesNone(o, w, j, DepRef(k)); }
  }

  lemma {:induction false} LostForGood(o: Oracle, w: World, turns: seq<Turn>, k: Key)
    requires Clock(o) && Quiet(o) && InOrder(o, w) && Lost(w.c, k)
    ensures Lost(Run(o, w, turns).c, k)
    decreases |turns|
  {
    if turns != [] {
      TurnDrifts(o, w, turns[0], DepRef(k));
      TurnEndures(o, w, turns[0], ProxyRef(k));
      LostForGood(o, Take(o, w, turns[0]), turns[1..], k);
    }
  }

  /** Over any run of both controllers with any faults, the annotation of a Deployment that had
      it, or is yet to be created, is there in the end if and only if no turn has taken it away. */
  lemma {:induction false} NotedUnlessLost(o: Oracle, w: World, turns: seq<Turn>, k: Key, spec: ProxySpec)
    requires Clock(o) && Quiet(o) && InOrder(o, w) && ProxyAt(k, spec, w) && NotedIfAny(w.c, k)
    ensures var x := Run(o, w, turns).c; if LosesOnTheWay(o, w, turns, k) then Lost(x, k) else NotedIfAny(x, k)
    decreases |turns|
  {
    if turns != [] {
      var x := Take(o, w, turns[0]);
      TurnEndures(o, w, turns[0], ProxyRef(k));
      if turns[0] == ProxyTurn(k) { OwnTurnNotes(o, w, k); } else { OtherTurnNotes(o, w, turns[0], k); }
      if LosesAt(o, w, turns[0], k) {
        LostForGood(o, x, turns[1..], k);
      } else {
        NotedUnlessLost(o, x, turns[1..], k, spec);
      }
    }
  }

  /** So whenever such a run has come to a settled proxy, as `BothSettle` and `EverySchedule` say
      it does: the Deployment has its annotation if and only if no turn on the way has taken it
      away, and with it the mounts that the rules select by then. */
  lemma {:induction false} SettledMountsUnlessLost(o: Oracle, w: World, turns: seq<Turn>, k: Key, spec: ProxySpec)
    requires Clock(o) && Quiet(o) && InOrder(o, w) && ProxyAt(k, spec, w) && NotedIfAny(w.c, k)
    requires Convergence.Settled(Run(o, w, turns).c, k)
    ensures var x := Run(o, w, turns).c;
            && Convergence.HasDeployment(x, k)
            && (Convergence.Annotated(x, k) <==> !LosesOnTheWay(o, w, turns, k))
            && (Convergence.Annotated(x, k) ==> Convergence.MountsMatch(x, k))
  {
    NotedUnlessLost(o, w, turns, k, spec);
    ProxyEndures(o, w, turns, k, spec);
    Convergence.SettledMeans(Run(o, w, turns).c, k);
  }
}
