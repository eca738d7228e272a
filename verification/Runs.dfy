/** Whole runs: any sequence of passes of the two controllers over one cluster, with any
    faults, and with anybody, the other controller included, acting between the calls. */
module Runs {
  import opened Text
  import opened Objects
  import opened Api
  import opened ProxyPasses
  import opened RulesPasses
  import opened Guarantees
  import ProxySafety
  import RulesSafety

  datatype Turn = ProxyTurn(k: Key) | RulesTurn(k: Key)

  ghost function Take(o: Oracle, w: World, turn: Turn): World {
    match turn
    case ProxyTurn(k) => ProxyPass(o, w, k).0
    case RulesTurn(k) => RulesPass(o, w, k).0
  }

  ghost function Run(o: Oracle, w: World, turns: seq<Turn>): World
    decreases |turns|
  {
    if turns == [] then w else Run(o, Take(o, w, turns[0]), turns[1..])
  }

  /** What the record says of its entry `i`: a change of a custom resource's conditions or
      finalizers; or a workload written in a pass that had fetched, at `j`, a resource that
      was initialised, claimed and not being deleted, and allowed to that controller. */
  ghost predicate Accounted(log: seq<Event>, start: nat, i: nat)
    requires start <= i < |log|
  {
    || log[i].Read?
    || (log[i].ref.kind in {ProxyKind, RuleKind} && ResourceEvent(log[i].ref, log[i]))
    || exists j, k :: start <= j < i && Licence(log[j], k, log[i])
  }

  ghost predicate Licence(read: Event, k: Key, e: Event) {
    && read.Read? && read.obj.IsResource() && Live(read.obj.cr)
    && ((read.ref == ProxyRef(k) && ProxyEvent(k, true, read.obj, e))
        || (read.ref == RuleRef(k) && RulesEvent(k, true, read.obj, e)))
  }

  lemma ProxyAccounted(w: World, x: World, k: Key)
    requires |w.log| < |x.log| && w.log <= x.log
    requires var e := x.log[|w.log|];
             e.Read? && e.ref == ProxyRef(k) && e.obj.ProxyObject? && ProxyActs(k, Live(e.obj.cr), e.obj, w, x)
    ensures forall i | |w.log| <= i < |x.log| :: Accounted(x.log, |w.log|, i)
  {
    forall i | |w.log| <= i < |x.log| ensures Accounted(x.log, |w.log|, i) {
      var e := x.log[i];
      assert ProxyEvent(k, Live(x.log[|w.log|].obj.cr), x.log[|w.log|].obj, e);
      if !ResourceEvent(ProxyRef(k), e) { assert i > |w.log| && Licence(x.log[|w.log|], k, e); }
    }
  }

  lemma RulesAccounted(w: World, x: World, k: Key)
    requires |w.log| < |x.log| && w.log <= x.log
    requires var e := x.log[|w.log|];
             e.Read? && e.ref == RuleRef(k) && e.obj.RuleObject? && RulesActs(k, Live(e.obj.cr), e.obj, w, x)
    ensures forall i | |w.log| <= i < |x.log| :: Accounted(x.log, |w.log|, i)
  {
    forall i | |w.log| <= i < |x.log| ensures Accounted(x.log, |w.log|, i) {
      var e := x.log[i];
      assert RulesEvent(k, Live(x.log[|w.log|].obj.cr), x.log[|w.log|].obj, e);
      if !ResourceEvent(RuleRef(k), e) { assert i > |w.log| && Licence(x.log[|w.log|], k, e); }
    }
  }

  lemma TakeAccounted(o: Oracle, w: World, turn: Turn)
    requires Lawful(o) && InOrder(o, w)
    ensures var x := Take(o, w, turn);
            Leads(o, w, x) && forall i | |w.log| <= i < |x.log| :: Accounted(x.log, |w.log|, i)
  {
    var x := Take(o, w, turn);
    match turn
    case ProxyTurn(k) =>
      ProxySafety.ProxyGuarantee(o, w, k);
      if x.log != w.log { ProxyAccounted(w, x, k); }
    case RulesTurn(k) =>
      RulesSafety.RulesGuarantee(o, w, k);
      if x.log != w.log { RulesAccounted(w, x, k); }
  }

  /** Over every run: the invariants of the cluster hold at the end of every pass, and every
      entry of the record is accounted for. So no Deployment, Service or ConfigMap is ever
      written by a pass whose resource was not live, and mounts agree with annotations. */
  lemma {:induction false} RunIsSafe(o: Oracle, w: World, turns: seq<Turn>)
    requires Lawful(o) && InOrder(o, w)
    ensures var x := Run(o, w, turns);
            Leads(o, w, x) && forall i | |w.log| <= i < |x.log| :: Accounted(x.log, |w.log|, i)
    decreases |turns|
  {
    if turns != [] {
      var y, x := Take(o, w, turns[0]), Run(o, w, turns);
      TakeAccounted(o, w, turns[0]);
      RunIsSafe(o, y, turns[1..]);
      LeadsTransitive(o, w, y, x);
      forall i | |w.log| <= i < |x.log| ensures Accounted(x.log, |w.log|, i) {
        if i < |y.log| {
          assert Accounted(y.log, |w.log|, i) && y.log[i] == x.log[i];
          if j, k :| |w.log| <= j < i && Licence(y.log[j], k, y.log[i]) {
            assert Licence(x.log[j], k, x.log[i]);
          }
        } else {
          assert Accounted(x.log, |y.log|, i);
        }
      }
    }
  }

  predicate WritesWorkload(e: Event) { e.Wrote? && e.ref.kind in {DeploymentKind, ServiceKind, ConfigMapKind} }

  /** The read that opens the pass allows it to write this workload. */
  ghost predicate Gates(turn: Turn, read: Event, e: Event)
    requires WritesWorkload(e)
  {
    && read.Read? && read.obj.IsResource() && Live(read.obj.cr)
    && match turn
       case ProxyTurn(k) => read.ref == ProxyRef(k) && e.ref in {DepRef(k), SvcRef(k)}
       case RulesTurn(k) =>
         && read.ref == RuleRef(k)
         && (e.ref == CmRef(k)
             || (e.ref.kind.DeploymentKind? && e.ref.key.ns == k.ns && e.before.Some?
                 && e.before.value.DeploymentObject? && k.name in PartsOf(e.before.value.deployment)))
  }

  lemma TakeGated(o: Oracle, w: World, turn: Turn, i: nat)
    requires Lawful(o) && InOrder(o, w)
    requires |w.log| <= i < |Take(o, w, turn).log| && WritesWorkload(Take(o, w, turn).log[i])
    ensures var x := Take(o, w, turn); |w.log| < i && Gates(turn, x.log[|w.log|], x.log[i])
  {
    var x := Take(o, w, turn);
    match turn
    case ProxyTurn(k) =>
      ProxySafety.ProxyGuarantee(o, w, k);
      assert ProxyEvent(k, Live(x.log[|w.log|].obj.cr), x.log[|w.log|].obj, x.log[i]);
    case RulesTurn(k) =>
      RulesSafety.RulesGuarantee(o, w, k);
      assert RulesEvent(k, Live(x.log[|w.log|].obj.cr), x.log[|w.log|].obj, x.log[i]);
  }

  lemma {:induction false} RunOfMore(o: Oracle, w: World, turns: seq<Turn>, t: nat)
    requires 0 < t <= |turns|
    ensures Run(o, w, turns[..t]) == Run(o, Take(o, w, turns[0]), turns[1..][..t - 1])
  {
    assert turns[..t][1..] == turns[1..][..t - 1];
  }

  /** Gating: whatever fails, a workload is written only in a pass, the t-th, whose first read
      found its resource with a status, with the finalizer and not being deleted; and the
      workload is its own, or a Deployment of its namespace that names it. */
  lemma {:induction false} WorkloadsAreGated(o: Oracle, w: World, turns: seq<Turn>, i: nat) returns (t: nat)
    requires Lawful(o) && InOrder(o, w)
    requires |w.log| <= i < |Run(o, w, turns).log| && WritesWorkload(Run(o, w, turns).log[i])
    ensures t < |turns|
    ensures var log, before, after := Run(o, w, turns).log, Run(o, w, turns[..t]).log, Run(o, w, turns[..t + 1]).log;
            before <= after <= log && |before| < i < |after| && Gates(turns[t], log[|before|], log[i])
    decreases |turns|
  {
    var y := Take(o, w, turns[0]);
    TakeAccounted(o, w, turns[0]);
    RunIsSafe(o, y, turns[1..]);
    if i < |y.log| {
      t := 0;
      TakeGated(o, w, turns[0], i);
      assert turns[..1] == [turns[0]];
      RunOfMore(o, w, turns, 1);
    } else {
      var s := WorkloadsAreGated(o, y, turns[1..], i);
      t := s + 1;
      RunOfMore(o, w, turns, t);
      RunOfMore(o, w, turns, t + 1);
    }
  }

  /** Whatever fails: after every run, the volumes of a Deployment and its mounts go in pairs,
      and its annotation, if it has one, decodes to the same multiset of ConfigMaps. */
  lemma {:induction false} MountsAlwaysAgree(o: Oracle, w: World, turns: seq<Turn>, r: Ref)
    requires Lawful(o) && InOrder(o, w)
    requires var x := Run(o, w, turns);
             r in x.c.objs && x.c.objs[r].obj.DeploymentObject? && ByOperator(x.c.objs[r].obj.deployment)
    ensures WellMounted(Run(o, w, turns).c.objs[r].obj.deployment)
  {
    RunIsSafe(o, w, turns);
    assert Sound(Run(o, w, turns).c.objs[r].obj, Run(o, w, turns).c.next);
  }

  /** Whatever fails: a proxy loses the operator's finalizer only by a write made on a status
      that already says the cleanup is done. */
  lemma {:induction false} CleanedBeforeRelease(o: Oracle, w: World, turns: seq<Turn>, i: nat)
    requires Lawful(o) && InOrder(o, w)
    requires |w.log| <= i < |Run(o, w, turns).log|
    requires var e := Run(o, w, turns).log[i];
             e.Wrote? && e.ref.kind == ProxyKind && e.before.Some? && DropsOwn(e.before.value, e.after)
    ensures CLEANED in Run(o, w, turns).log[i].before.value.cr.conditions
  {
    RunIsSafe(o, w, turns);
    assert Accounted(Run(o, w, turns).log, |w.log|, i);
  }

  /** No update is lost, call by call: a Deployment written over an existing one keeps what
      belongs to nobody or to the other controller. What the proxy controller writes keeps
      the rollout marks; a rollout keeps everything but the marks, and only moves time
      forward; selector, labels, image and environment keep their creation values. */
  lemma {:induction false} NoLostUpdate(o: Oracle, w: World, turns: seq<Turn>, i: nat)
    requires Lawful(o) && InOrder(o, w)
    requires |w.log| <= i < |Run(o, w, turns).log|
    requires var e := Run(o, w, turns).log[i]; e.Wrote? && e.ref.kind == DeploymentKind && e.before.Some?
    ensures var e := Run(o, w, turns).log[i];
            && e.before.value.DeploymentObject? && e.after.Some? && e.after.value.DeploymentObject?
            && var b, d := e.before.value.deployment, e.after.value.deployment;
            && d.labels == b.labels && d.selector == b.selector && d.template.labels == b.template.labels
            && d.template.image == b.template.image && d.template.env == b.template.env
            && (d.template.marks == b.template.marks ||
                (exists t: nat :: StampedBefore(b, t) && d == Stamped(b, t).(rolledAt := d.rolledAt)))
  {
    RunIsSafe(o, w, turns);
    var log := Run(o, w, turns).log;
    assert Accounted(log, |w.log|, i);
  }

  /** Once a status is initialised, no write of either controller empties it, and condition
      types stay unique and known: initialisation happens at most once per object. */
  lemma {:induction false} StatusStaysInitialised(o: Oracle, w: World, turns: seq<Turn>, i: nat)
    requires Lawful(o) && InOrder(o, w)
    requires |w.log| <= i < |Run(o, w, turns).log|
    requires var e := Run(o, w, turns).log[i]; e.Wrote? && e.ref.kind in {ProxyKind, RuleKind}
    ensures var e := Run(o, w, turns).log[i];
            && e.before.Some? && e.before.value.IsResource()
            && (e.after.Some? ==>
                  && e.after.value.IsResource() && TidyConditions(e.after.value.cr.conditions)
                  && (e.after.value.cr.conditions == [] ==> e.before.value.cr.conditions == []))
  {
    RunIsSafe(o, w, turns);
    var log := Run(o, w, turns).log;
    assert Accounted(log, |w.log|, i);
  }

  /** The write that gives a resource its first condition. */
  predicate Initialises(e: Event, r: Ref) {
    && e.Wrote? && e.ref == r && e.before.Some? && e.before.value.IsResource() && e.before.value.cr.conditions == []
    && e.after.Some? && e.after.value.IsResource() && e.after.value.cr.conditions != []
  }

  /** All writes of this object are edits of a resource. */
  ghost predicate Edits(log: seq<Event>, r: Ref) {
    forall i | 0 <= i < |log| && log[i].Wrote? && log[i].ref == r :: ResourceEdit(log[i].before, log[i].after)
  }

  predicate Removes(e: Event, r: Ref) { e.Wrote? && e.ref == r && e.after.None? }

  ghost predicate RemovedBetween(log: seq<Event>, r: Ref, i: nat, j: nat)
    requires j <= |log|
  {
    exists m | i < m < j :: Removes(log[m], r)
  }

  /** It has its status; or it is gone, and others do not create it. */
  predicate Safe(others: Others, obj: Option<Object>) {
    !Uninitialised(obj) && (obj.None? ==> !others.Creating?)
  }

  lemma {:induction false} InitialisedStays(others: Others, log: seq<Event>, r: Ref, a: Option<Object>,
                                            b: Option<Object>, j: nat)
    requires Chain(others, log, r, a, b) && Edits(log, r) && Safe(others, a)
    requires j < |log| && log[j].Wrote? && log[j].ref == r
    requires others.Creating? ==> forall m | 0 <= m < j :: !Removes(log[m], r)
    ensures !Uninitialised(log[j].before)
    decreases |log|
  {
    if j > 0 {
      assert forall i | 0 <= i < |log[1..]| :: log[1..][i] == log[i + 1];
      InitialisedStays(others, log[1..], r, if log[0].Wrote? && log[0].ref == r then log[0].after else a, b, j - 1);
    }
  }

  lemma {:induction false} ChainInitialisedOnce(others: Others, log: seq<Event>, r: Ref, a: Option<Object>,
                                                b: Option<Object>, i: nat, j: nat)
    requires Chain(others, log, r, a, b) && Edits(log, r) && i < j < |log| && Initialises(log[i], r)
             && Initialises(log[j], r)
    ensures others.Creating? && RemovedBetween(log, r, i, j)
    decreases |log|
  {
    var rest := log[1..];
    assert forall n | 0 <= n < |rest| :: rest[n] == log[n + 1];
    if i == 0 {
      if !(others.Creating? && RemovedBetween(log, r, i, j)) {
        InitialisedStays(others, rest, r, log[0].after, b, j - 1);
      }
    } else {
      var next := if log[0].Wrote? && log[0].ref == r then log[0].after else a;
      ChainInitialisedOnce(others, rest, r, next, b, i - 1, j - 1);
      var m :| i - 1 < m < j - 1 && Removes(rest[m], r);
      assert Removes(log[m + 1], r);
    }
  }

  lemma AccountedEdits(log: seq<Event>, start: nat, r: Ref)
    requires start <= |log| && r.kind in {ProxyKind, RuleKind}
    requires forall i | start <= i < |log| :: Accounted(log, start, i)
    ensures Edits(log[start..], r)
  {
    forall i | start <= i < |log| && log[i].Wrote? && log[i].ref == r
      ensures ResourceEdit(log[i].before, log[i].after)
    {
      assert Accounted(log, start, i);
    }
    forall i | 0 <= i < |log[start..]| ensures log[start..][i] == log[start + i] {}
  }

  lemma OnceBetween(o: Oracle, others: Others, w: World, x: World, r: Ref, i: nat, j: nat)
    requires w.log <= x.log && Replays(o, w, x) && StatusLeftAlone(o, others, r) && r.kind in {ProxyKind, RuleKind}
    requires forall i | |w.log| <= i < |x.log| :: Accounted(x.log, |w.log|, i)
    requires |w.log| <= i < j < |x.log| && Initialises(x.log[i], r) && Initialises(x.log[j], r)
    ensures others.Creating? && RemovedBetween(x.log, r, i, j)
  {
    var n := |w.log|;
    var log := x.log[n..];
    AccountedEdits(x.log, n, r);
    assert log[i - n] == x.log[i] && log[j - n] == x.log[j];
    ChainInitialisedOnce(others, log, r, Stored(w.c, r), Stored(x.c, r), i - n, j - n);
    var m :| i - n < m < j - n && Removes(log[m], r);
    assert Removes(x.log[m + n], r);
  }

  /** So, whatever fails, and whatever others do to its spec, its labels, its finalizers or its
      deletion mark, as long as they leave its status: between two initialisations of a custom
      resource the controllers have removed it and others have created another one. If others
      do not create it, it is initialised at most once in a run. */
  lemma {:induction false} InitialisedOnce(o: Oracle, others: Others, w: World, turns: seq<Turn>, r: Ref, i: nat,
                                           j: nat)
    requires Lawful(o) && InOrder(o, w) && StatusLeftAlone(o, others, r) && r.kind in {ProxyKind, RuleKind}
    requires |w.log| <= i < j < |Run(o, w, turns).log| && Initialises(Run(o, w, turns).log[i], r)
    ensures var log := Run(o, w, turns).log;
            Initialises(log[j], r) ==> others.Creating? && RemovedBetween(log, r, i, j)
  {
    RunIsSafe(o, w, turns);
    if Initialises(Run(o, w, turns).log[j], r) { OnceBetween(o, others, w, Run(o, w, turns), r, i, j); }
  }

  /** A turn of one controller, taken between the times `from` and `to` of another. */
  lemma TurnInterferes(o: Oracle, c: Cluster, calls: nat, turn: Turn, from: nat, to: nat)
    requires Lawful(o) && Good(c) && StampsBefore(c, from) && from <= o.now(calls)
    requires o.now(Take(o, World(c, calls, [], []), turn).calls) <= to
    ensures var d := Take(o, World(c, calls, [], []), turn).c; Good(d) && StampsBefore(d, to) && Evolves(c, d)
  {
    var w := World(c, calls, [], []);
    StampsLater(c, from, o.now(calls));
    TakeAccounted(o, w, turn);
    StampsLater(Take(o, w, turn).c, o.now(Take(o, w, turn).calls), to);
  }

  /** Between call `n` of the first and the next, the other controller takes a whole turn
      of its choice, provided that it falls between the two by the clocks of both. */
  ghost function Between(o: Oracle, other: Oracle, turn: Turn, start: nat, n: nat, c: Cluster): Cluster {
    var x := Take(other, World(c, start, [], []), turn);
    if o.now(n) <= other.now(start) && other.now(x.calls) <= o.now(n + 1) then x.c else c
  }

  lemma BetweenIsLawful(o: Oracle, other: Oracle, turn: Turn, start: nat, n: nat, c: Cluster)
    requires Lawful(o) && Lawful(other) && Good(c) && StampsBefore(c, o.now(n))
    ensures var d := Between(o, other, turn, start, n, c);
            Good(d) && StampsBefore(d, o.now(n + 1)) && Evolves(c, d)
  {
    var x := Take(other, World(c, start, [], []), turn);
    if o.now(n) <= other.now(start) && other.now(x.calls) <= o.now(n + 1) {
      TurnInterferes(other, c, start, turn, o.now(n), o.now(n + 1));
    } else {
      assert o.now(n) < o.now(n + 1);
      StampsLater(c, o.now(n), o.now(n + 1));
    }
  }

  ghost function Beside(o: Oracle, other: Oracle, turn: nat -> Turn, start: nat -> nat): Oracle {
    o.(interfere := (n: nat, c: Cluster) => Between(o, other, turn(n), start(n), n, c))
  }

  /** That is an interference that `Lawful` allows: so whole turns of the other controller may
      fall between any two calls. For turns that are interleaved call by call see
      `Interleaving.RunsInterleave`. */
  lemma OtherControllerIsLawful(o: Oracle, other: Oracle, turn: nat -> Turn, start: nat -> nat)
    requires Lawful(o) && Lawful(other)
    ensures Lawful(Beside(o, other, turn, start))
  {
    var p := Beside(o, other, turn, start);
    assert forall m: nat, n: nat | m < n :: p.now(m) < p.now(n);
    forall n: nat, c: Cluster ensures Behaves(p, n, c) {
      if Good(c) && StampsBefore(c, o.now(n)) { BetweenIsLawful(o, other, turn(n), start(n), n, c); }
    }
  }

  lemma StampsLater(c: Cluster, s: nat, t: nat)
    requires s <= t && StampsBefore(c, s)
    ensures StampsBefore(c, t)
  {
  }
}
