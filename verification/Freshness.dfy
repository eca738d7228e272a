/** When a ConfigMap changes, the pods that mount it are replaced: what that needs. */
module Freshness {
  import opened Text
  import opened Objects
  import opened Api
  import opened Workloads
  import opened ProxyPasses
  import opened RulesPasses
  import opened Guarantees
  import opened Calmness
  import opened Runs
  import opened RulesConvergence
  import Convergence
  import LastSum
  import ProxySafety
  import Rollouts

  /** A Deployment that the operator wrote and the rollout looks after: it has kept the label
      and the annotation. */
  predicate Followed(d: Deployment) { ByOperator(d) && Managed(d) && CONF in d.annotations }

  predicate MountsName(d: Deployment, name: Name) {
    exists i | 0 <= i < |d.template.volumes| :: d.template.volumes[i].name == name
  }

  /** If this Deployment mounts this ConfigMap, the ConfigMap is there, and the pods are
      younger than its last change. */
  ghost predicate FreshFor(c: Cluster, ns: string, d: Deployment, name: Name) {
    MountsName(d, name) ==>
      CmRef(Key(ns, name)) in c.objs && c.objs[CmRef(Key(ns, name))].rv < d.rolledAt
  }

  predicate FollowedAt(c: Cluster, r: Ref) {
    r in c.objs && c.objs[r].obj.DeploymentObject? && Followed(c.objs[r].obj.deployment)
  }

  ghost predicate Fresh(c: Cluster, r: Ref) {
    FollowedAt(c, r) ==> forall name :: FreshFor(c, r.key.ns, c.objs[r].obj.deployment, name)
  }

  ghost predicate AllFresh(c: Cluster) {
    forall r :: Fresh(c, r)
  }

  // ---- what keeps a Deployment fresh ------------------------------------

  /** Neither it nor any ConfigMap that was there has changed. */
  lemma FreshUnchanged(c: Cluster, x: Cluster, r: Ref)
    requires Fresh(c, r) && CopyOf(x, r) == CopyOf(c, r)
    requires forall q: Ref | q.kind == ConfigMapKind && q in c.objs :: CopyOf(x, q) == CopyOf(c, q)
    ensures Fresh(x, r)
  {
    if FollowedAt(x, r) {
      forall name ensures FreshFor(x, r.key.ns, x.objs[r].obj.deployment, name) {
        assert FreshFor(c, r.key.ns, c.objs[r].obj.deployment, name);
        var q := CmRef(Key(r.key.ns, name));
        assert q in c.objs ==> CopyOf(x, q) == CopyOf(c, q);
      }
    }
  }

  lemma UnchangedFresh(c: Cluster, x: Cluster)
    requires AllFresh(c) && forall r: Ref | r.kind == DeploymentKind :: CopyOf(x, r) == CopyOf(c, r)
    requires forall q: Ref | q.kind == ConfigMapKind && q in c.objs :: CopyOf(x, q) == CopyOf(c, q)
    ensures AllFresh(x)
  {
    forall r ensures Fresh(x, r) {
      if r.kind == DeploymentKind {
        assert Fresh(c, r);
        FreshUnchanged(c, x, r);
      }
    }
  }

  /** The annotation of a followed Deployment names exactly what it mounts. */
  lemma {:induction false} MountedIsNamed(d: Deployment, name: Name)
    requires WellMounted(d) && CONF in d.annotations
    ensures MountsName(d, name) <==> Rollouts.Count(PartsOf(d), name) > 0
  {
    var named := Named(d.annotations[CONF]);
    Rollouts.CountIsMultiplicity(PartsOf(d), name);
    assert MountsName(d, name) <==> name in VolumeNames(d) by {
      if i :| 0 <= i < |d.template.volumes| && d.template.volumes[i].name == name { assert VolumeNames(d)[i] == name; }
      if name in VolumeNames(d) {
        var i :| 0 <= i < |VolumeNames(d)| && VolumeNames(d)[i] == name;
        assert d.template.volumes[i].name == name;
      }
    }
    assert name in VolumeNames(d) <==> name in multiset(VolumeNames(d));
    assert name in named <==> name in multiset(named);
    if d.annotations[CONF] == "" { assert PartsOf(d) == [""]; }
  }

  // ---- passes of the rules controller -----------------------------------

  /** A rollout after the put, Deployment by Deployment. */
  lemma RolloutFresh(o: Oracle, w: World, k: Key, y: World, r: Ref)
    requires Clock(o) && InOrder(o, w) && Fresh(w.c, r)
    requires BeforeRollout(o, w, k, y)
    ensures Fresh(Rollout(o, y, k.ns, k.name).0.c, r)
  {
    var x := Rollout(o, y, k.ns, k.name).0;
    StampsHold(o, w, k, y);
    Rollouts.RolloutExact(o, y, k.ns, k.name);
    if FollowedAt(x.c, r) {
      var times := Rollouts.Occurrences(y.c, r, k.ns, k.name);
      assert times == 0 ==> Rollouts.Spares(y, x, r);
      assert times > 0 ==> Rollouts.RolledOut(o, y, x, r, times);
      assert CopyOf(y.c, r) == CopyOf(w.c, r);
      var b, d := w.c.objs[r].obj.deployment, x.c.objs[r].obj.deployment;
      forall name ensures FreshFor(x.c, r.key.ns, d, name) {
        var q := CmRef(Key(r.key.ns, name));
        assert Rollouts.Spares(y, x, q);
        assert FreshFor(w.c, r.key.ns, b, name);
        if q == CmRef(k) {
          MountedIsNamed(b, name);
        } else {
          assert CopyOf(y.c, q) == CopyOf(w.c, q);
        }
      }
    }
  }

  lemma StampsHold(o: Oracle, w: World, k: Key, y: World)
    requires Clock(o) && InOrder(o, w) && BeforeRollout(o, w, k, y)
    ensures StampsBefore(y.c, o.now(y.calls))
  {
    assert w.calls < y.calls ==> o.now(w.calls) < o.now(y.calls);
    forall r | r in y.c.objs && y.c.objs[r].obj.DeploymentObject?
      ensures StampedBefore(y.c.objs[r].obj.deployment, o.now(y.calls))
    {
      assert CopyOf(y.c, r) == CopyOf(w.c, r);
    }
  }

  lemma RulesPassFresh(o: Oracle, w: World, k: Key)
    requires Calm(o, w.calls) && Lawful(o) && InOrder(o, w) && AllFresh(w.c)
    ensures AllFresh(RulesPass(o, w, k).0.c)
  {
    var x := RulesPass(o, w, k).0;
    if RuleRef(k) !in w.c.objs || w.c.objs[RuleRef(k)].obj.cr.deleting {
      LastSum.NotStandingFrame(o, w, k);
      UnchangedFresh(w.c, x.c);
    } else if Live(w.c.objs[RuleRef(k)].obj.cr) && CmRef(k) in w.c.objs && !UpToDate(o, w.c, k) {
      var y := CalmPassRolls(o, w, k);
      forall r ensures Fresh(x.c, r) {
        assert Fresh(w.c, r);
        RolloutFresh(o, w, k, y, r);
      }
    } else {
      CalmRulesPass(o, w, k);
      NoPutFresh(o, w.c, k, x.c);
    }
  }

  /** Every other step leaves the Deployments and the ConfigMaps there are alone. */
  lemma NoPutFresh(o: Oracle, c: Cluster, k: Key, x: Cluster)
    requires AllFresh(c) && RuleRef(k) in c.objs && StepTo(o, c, k, x)
    requires Live(c.objs[RuleRef(k)].obj.cr) && CmRef(k) in c.objs ==> UpToDate(o, c, k)
    requires !c.objs[RuleRef(k)].obj.cr.deleting
    ensures AllFresh(x)
  {
    UnchangedFresh(c, x);
  }

  // ---- passes of the proxy controller -----------------------------------

  /** The pods are replaced after the latest change of everything there is. */
  lemma FreshlyPlaced(c: Cluster, k: Key, d: Deployment, names: seq<Name>)
    requires Good(c) && Convergence.Standing(c, k) && multiset(names) == Convergence.Wanted(c, k)
    requires d.rolledAt == c.next && d.template.volumes == VolumesOf(names)
    ensures Fresh(Put(c, DepRef(k), DeploymentObject(d)), DepRef(k))
  {
    var x := Put(c, DepRef(k), DeploymentObject(d));
    assert x.objs[DepRef(k)].obj.deployment == d;
    forall name ensures FreshFor(x, k.ns, d, name) {
      if MountsName(d, name) {
        assert name in names;
        assert name in Convergence.Wanted(c, k);
        SelectedCounts(c, k.ns, Convergence.SpecOf(c, k).rulesets, name);
        assert CopyOf(x, CmRef(Key(k.ns, name))) == CopyOf(c, CmRef(Key(k.ns, name)));
      }
    }
  }

  /** The pod template has changed, or what mattered about it has not. */
  lemma PlacedFresh(c: Cluster, k: Key, d: Deployment)
    requires Good(c) && DepRef(k) in c.objs && Fresh(c, DepRef(k))
    requires var b := c.objs[DepRef(k)].obj.deployment;
             && d.labels == b.labels && d.template.env == b.template.env
             && (CONF in d.annotations ==> CONF in b.annotations)
             && d.template.volumes == b.template.volumes && d.rolledAt >= b.rolledAt
    ensures Fresh(Put(c, DepRef(k), DeploymentObject(d)), DepRef(k))
  {
    var x, b := Put(c, DepRef(k), DeploymentObject(d)), c.objs[DepRef(k)].obj.deployment;
    assert x.objs[DepRef(k)].obj.deployment == d;
    if Followed(d) {
      forall name ensures FreshFor(x, k.ns, d, name) {
        assert FreshFor(c, k.ns, b, name);
        assert CopyOf(x, CmRef(Key(k.ns, name))) == CopyOf(c, CmRef(Key(k.ns, name)));
      }
    }
  }

  lemma PutElsewhere(c: Cluster, q: Ref, obj: Object, r: Ref)
    requires obj.Kind() == q.kind && q.kind != ConfigMapKind && r != q && Fresh(c, r)
    ensures Fresh(Put(c, q, obj), r)
  {
    if r.kind == DeploymentKind { FreshUnchanged(c, Put(c, q, obj), r); }
  }

  lemma PutDeploymentFresh(c: Cluster, k: Key, d: Deployment)
    requires AllFresh(c) && Fresh(Put(c, DepRef(k), DeploymentObject(d)), DepRef(k))
    ensures AllFresh(Put(c, DepRef(k), DeploymentObject(d)))
  {
    forall r | r != DepRef(k) ensures Fresh(Put(c, DepRef(k), DeploymentObject(d)), r) {
      PutElsewhere(c, DepRef(k), DeploymentObject(d), r);
    }
  }

  lemma PutOtherFresh(c: Cluster, q: Ref, obj: Object)
    requires obj.Kind() == q.kind && q.kind !in {ConfigMapKind, DeploymentKind} && AllFresh(c)
    ensures AllFresh(Put(c, q, obj))
  {
    forall r ensures Fresh(Put(c, q, obj), r) { if r != q { PutElsewhere(c, q, obj, r); } }
  }

  lemma CreateFresh(c: Cluster, k: Key, x: Cluster)
    requires Good(c) && AllFresh(c) && Convergence.Standing(c, k) && Convergence.StepTo(c, k, x)
    requires Live(Convergence.CrOf(c, k)) && DepRef(k) !in c.objs
    ensures AllFresh(x)
  {
    var cr, spec := Convergence.CrOf(c, k), Convergence.SpecOf(c, k);
    var names: seq<Name> :| multiset(names) == Convergence.Wanted(c, k)
      && x == Put(c, DepRef(k), DeploymentObject(Placed(None, DeploymentFor(k, cr, spec, names), c.next)));
    FreshlyPlaced(c, k, Placed(None, DeploymentFor(k, cr, spec, names), c.next), names);
    PutDeploymentFresh(c, k, Placed(None, DeploymentFor(k, cr, spec, names), c.next));
  }

  lemma RemountFresh(c: Cluster, k: Key, x: Cluster)
    requires Good(c) && AllFresh(c) && Convergence.Standing(c, k) && Convergence.StepTo(c, k, x)
    requires Live(Convergence.CrOf(c, k)) && DepRef(k) in c.objs
    requires var d := c.objs[DepRef(k)].obj.deployment;
             d.replicas == Convergence.SpecOf(c, k).size && Convergence.Stale(d, Convergence.Wanted(c, k))
    ensures AllFresh(x)
  {
    var d := c.objs[DepRef(k)].obj.deployment;
    var names: seq<Name> :| multiset(names) == Convergence.Wanted(c, k)
      && x == Put(c, DepRef(k), DeploymentObject(Placed(Some(d), Remounted(d, names, true), c.next)));
    var e := Placed(Some(d), Remounted(d, names, true), c.next);
    assert Fresh(c, DepRef(k));
    if e.template == d.template { PlacedFresh(c, k, e); } else { FreshlyPlaced(c, k, e, names); }
    PutDeploymentFresh(c, k, e);
  }

  /** Resizing and new ports leave the mounts alone, and never make the pods older. */
  lemma AdjustFresh(c: Cluster, k: Key, d: Deployment)
    requires Good(c) && AllFresh(c) && DepRef(k) in c.objs
    requires var b := c.objs[DepRef(k)].obj.deployment;
             d == b.(replicas := d.replicas)
             || d == Placed(Some(b), b.(template := b.template.(ports := d.template.ports)), c.next)
    ensures AllFresh(Put(c, DepRef(k), DeploymentObject(d)))
  {
    assert Fresh(c, DepRef(k));
    PlacedFresh(c, k, d);
    PutDeploymentFresh(c, k, d);
  }

  lemma ExposeFresh(c: Cluster, k: Key, x: Cluster)
    requires Good(c) && AllFresh(c) && Convergence.Standing(c, k) && Convergence.StepTo(c, k, x)
    requires Live(Convergence.CrOf(c, k)) && DepRef(k) in c.objs
    requires var d := c.objs[DepRef(k)].obj.deployment;
             d.replicas == Convergence.SpecOf(c, k).size && !Convergence.Stale(d, Convergence.Wanted(c, k))
    ensures AllFresh(x)
  {
    var cr, spec := Convergence.CrOf(c, k), Convergence.SpecOf(c, k);
    var svc, d := SvcRef(k), c.objs[DepRef(k)].obj.deployment;
    if svc !in c.objs {
      PutOtherFresh(c, svc, ServiceObject(ServiceFor(k, cr, spec)));
    } else {
      var s := c.objs[svc].obj.service;
      var depDiffers := DeepDiffers(ContainerPorts(spec.ports), d.template.ports);
      var svcDiffers := DeepDiffers(ServicePorts(spec.ports), s.ports);
      if depDiffers || svcDiffers {
        var e := Placed(Some(d), Ported(d, spec.ports), c.next);
        var y := if depDiffers then Put(c, DepRef(k), DeploymentObject(e)) else c;
        if depDiffers { AdjustFresh(c, k, e); }
        if svcDiffers { PutOtherFresh(y, svc, ServiceObject(s.(ports := ServicePorts(spec.ports)))); }
      } else {
        PutOtherFresh(c, ProxyRef(k), Convergence.Reported(c.objs[ProxyRef(k)], Convergence.ReadyCondition(spec)));
      }
    }
  }

  lemma StepFresh(c: Cluster, k: Key, x: Cluster)
    requires Good(c) && AllFresh(c) && Convergence.Standing(c, k) && Convergence.StepTo(c, k, x)
    ensures AllFresh(x)
  {
    var v, cr := c.objs[ProxyRef(k)], Convergence.CrOf(c, k);
    if cr.conditions == [] {
      PutOtherFresh(c, ProxyRef(k), Convergence.Reported(v, Condition(AVAILABLE, Unknown, "Reconciling", Starting)));
    } else if FINALIZER !in cr.finalizers {
      PutOtherFresh(c, ProxyRef(k), v.obj.With(cr.(finalizers := cr.finalizers + [FINALIZER])));
    } else if DepRef(k) !in c.objs {
      CreateFresh(c, k, x);
    } else {
      var d := c.objs[DepRef(k)].obj.deployment;
      if d.replicas != Convergence.SpecOf(c, k).size {
        AdjustFresh(c, k, d.(replicas := Convergence.SpecOf(c, k).size));
      } else if Convergence.Stale(d, Convergence.Wanted(c, k)) {
        RemountFresh(c, k, x);
      } else {
        ExposeFresh(c, k, x);
      }
    }
  }

  lemma OnlyResource(o: Oracle, w: World, x: World, q: Ref, r: Ref)
    requires Quiet(o) && Leads(o, w, x) && ResourceOnly(q, w, x) && r != q
    ensures CopyOf(x.c, r) == CopyOf(w.c, r)
  {
    assert Untouched(o, r) by {
      forall n: nat, c: Cluster ensures CopyOf(o.interfere(n, c), r) == CopyOf(c, r) { assert o.interfere(n, c) == c; }
    }
    assert Unwritten(w, x, r);
  }

  /** A pass on a proxy that is absent or being deleted writes nothing but that proxy. */
  lemma NotStandingFrame(o: Oracle, w: World, k: Key, r: Ref)
    requires Lawful(o) && Quiet(o) && InOrder(o, w) && !Convergence.Standing(w.c, k) && r != ProxyRef(k)
    ensures CopyOf(ProxyPass(o, w, k).0.c, r) == CopyOf(w.c, r)
  {
    var q, x := ProxyRef(k), ProxyPass(o, w, k).0;
    assert o.interfere(w.calls, w.c) == w.c;
    GetLeads(o, w, q);
    var (y, got) := Get(o, w, q);
    if got.Ok? {
      var v := got.value;
      if v.obj.cr.conditions == [] { InitStatusLeads(o, y, q, v); }
      else if FINALIZER !in v.obj.cr.finalizers { ClaimFinalizerLeads(o, y, q, v); }
      else { ProxySafety.FinalizeLeads(o, y, k, v); }
      OnlyResource(o, y, x, q, r);
    }
  }

  lemma ProxyPassFresh(o: Oracle, w: World, k: Key)
    requires Calm(o, w.calls) && Lawful(o) && Quiet(o) && InOrder(o, w) && AllFresh(w.c)
    ensures AllFresh(ProxyPass(o, w, k).0.c)
  {
    var x := ProxyPass(o, w, k).0;
    if Convergence.Standing(w.c, k) {
      Convergence.CalmPass(o, w, k);
      StepFresh(w.c, k, x.c);
    } else {
      forall q: Ref | q.kind in {DeploymentKind, ConfigMapKind} ensures CopyOf(x.c, q) == CopyOf(w.c, q) {
        NotStandingFrame(o, w, k, q);
      }
      UnchangedFresh(w.c, x.c);
    }
  }

  // ---- runs -------------------------------------------------------------

  /** Users leave the volumes of followed Deployments and the ConfigMaps these mount; they may
      replace the pods, and make a Deployment no longer followed, but not the other way round. */
  ghost predicate PodsKept(c: Cluster, d: Cluster) {
    forall r | FollowedAt(d, r) ::
      && FollowedAt(c, r)
      && d.objs[r].obj.deployment.template.volumes == c.objs[r].obj.deployment.template.volumes
      && d.objs[r].obj.deployment.rolledAt >= c.objs[r].obj.deployment.rolledAt
      && forall name: Name | MountsName(d.objs[r].obj.deployment, name) ::
           CopyOf(d, CmRef(Key(r.key.ns, name))) == CopyOf(c, CmRef(Key(r.key.ns, name)))
  }

  lemma EditKeepsFresh(c: Cluster, d: Cluster)
    requires AllFresh(c) && PodsKept(c, d)
    ensures AllFresh(d)
  {
    forall r ensures Fresh(d, r) {
      assert Fresh(c, r);
      if FollowedAt(d, r) {
        forall name ensures FreshFor(d, r.key.ns, d.objs[r].obj.deployment, name) {
          assert FreshFor(c, r.key.ns, c.objs[r].obj.deployment, name);
        }
      }
    }
  }

  /** A step of a run: a pass of either controller for any object, or an edit by users. */
  ghost predicate Moves(o: Oracle, w: World, x: World) {
    || (exists turn :: x == Take(o, w, turn))
    || (LastSum.UserEdit(o, w, x) && PodsKept(w.c, x.c))
  }

  lemma MoveKeepsFresh(o: Oracle, w: World, x: World)
    requires Lawful(o) && Calm(o, 0) && InOrder(o, w) && AllFresh(w.c) && Moves(o, w, x)
    ensures InOrder(o, x) && AllFresh(x.c)
  {
    CalmLater(o, 0, w.calls);
    if turn :| x == Take(o, w, turn) {
      TakeAccounted(o, w, turn);
      match turn
      case ProxyTurn(k) => ProxyPassFresh(o, w, k);
      case RulesTurn(k) => RulesPassFresh(o, w, k);
    } else {
      EditKeepsFresh(w.c, x.c);
    }
  }

  /** Over every fault-free run, whatever the users do between passes, as long as they leave the
      mounts of followed Deployments and what these mount: after every step, the pods of every
      operator-written Deployment that has kept its label and its annotation are younger than
      every ConfigMap they mount. */
  lemma {:induction false} RunKeepsFresh(o: Oracle, run: seq<World>)
    requires Clock(o) && Calm(o, 0) && run != []
    requires InOrder(o, run[0]) && AllFresh(run[0].c)
    requires forall i | 0 <= i < |run| - 1 :: Moves(o, run[i], run[i + 1])
    ensures forall i | 0 <= i < |run| :: InOrder(o, run[i]) && AllFresh(run[i].c)
    decreases |run|
  {
    if |run| > 1 {
      var rest := run[1..];
      CalmIsLawful(o);
      assert Moves(o, run[0], run[1]);
      MoveKeepsFresh(o, run[0], run[1]);
      forall i | 0 <= i < |rest| - 1 ensures Moves(o, rest[i], rest[i + 1]) { assert Moves(o, run[i + 1], run[i + 2]); }
      RunKeepsFresh(o, rest);
      forall i | 0 <= i < |run| ensures InOrder(o, run[i]) && AllFresh(run[i].c) {
        if i > 0 { assert run[i] == rest[i - 1]; }
      }
    }
  }

  // ---- the limits -------------------------------------------------------

  /** The pass that changes a ConfigMap replaces the pods of an operator-written Deployment that
      mounts it if and only if the Deployment has kept the label and the annotation. */
  lemma ReplacedIffFollowed(o: Oracle, w: World, k: Key, r: Ref)
    requires Calm(o, w.calls) && Lawful(o) && InOrder(o, w)
    requires RuleRef(k) in w.c.objs && Live(w.c.objs[RuleRef(k)].obj.cr)
    requires CmRef(k) in w.c.objs && !UpToDate(o, w.c, k)
    requires r in w.c.objs && r.kind == DeploymentKind && r.key.ns == k.ns && ByOperator(w.c.objs[r].obj.deployment)
    requires MountsName(w.c.objs[r].obj.deployment, k.name)
    ensures var x := RulesPass(o, w, k).0.c;
            && r in x.objs && CmRef(k) in x.objs
            && (x.objs[CmRef(k)].rv < x.objs[r].obj.deployment.rolledAt <==> Followed(w.c.objs[r].obj.deployment))
  {
    var y := CalmPassRolls(o, w, k);
    var x := Rollout(o, y, k.ns, k.name).0;
    StampsHold(o, w, k, y);
    Rollouts.RolloutExact(o, y, k.ns, k.name);
    var d := w.c.objs[r].obj.deployment;
    assert CopyOf(y.c, r) == CopyOf(w.c, r);
    assert Rollouts.Spares(y, x, CmRef(k));
    var times := Rollouts.Occurrences(y.c, r, k.ns, k.name);
    if CONF in d.annotations { MountedIsNamed(d, k.name); } else { assert PartsOf(d) == []; }
    assert times > 0 <==> Followed(d);
    assert times == 0 ==> Rollouts.Spares(y, x, r);
    assert times > 0 ==> Rollouts.RolledOut(o, y, x, r, times);
  }

  /** Fresh as far as the other ConfigMaps go. */
  ghost predicate FreshButFor(c: Cluster, k: Key, r: Ref) {
    FollowedAt(c, r) ==>
      forall name | Key(r.key.ns, name) != k :: FreshFor(c, r.key.ns, c.objs[r].obj.deployment, name)
  }

  predicate Mounts(c: Cluster, k: Key, r: Ref) {
    FollowedAt(c, r) && r.key.ns == k.ns && MountsName(c.objs[r].obj.deployment, k.name)
  }

  lemma RecreatedStale(o: Oracle, c: Cluster, k: Key, x: Cluster, r: Ref)
    requires Good(c) && RuleRef(k) in c.objs && CmRef(k) !in c.objs && Refreshes(o, c, k, x) && FreshButFor(c, k, r)
    ensures Fresh(x, r) <==> !Mounts(c, k, r)
  {
    if r.kind == DeploymentKind {
      assert CopyOf(x, r) == CopyOf(c, r);
      if FollowedAt(c, r) {
        var d := c.objs[r].obj.deployment;
        assert Sound(c.objs[r].obj, c.next);
        if Mounts(c, k, r) { assert !FreshFor(x, r.key.ns, d, k.name); }
        forall name | Key(r.key.ns, name) != k ensures FreshFor(x, r.key.ns, d, name) {
          assert FreshFor(c, r.key.ns, d, name);
          assert CopyOf(x, CmRef(Key(r.key.ns, name))) == CopyOf(c, CmRef(Key(r.key.ns, name)));
        }
      }
    }
  }

  /** The pass that brings back a missing ConfigMap replaces no pods: all is fresh after it
      if and only if no followed Deployment mounts that ConfigMap. */
  lemma RecreatedFreshIffUnmounted(o: Oracle, w: World, k: Key)
    requires Calm(o, w.calls) && Good(w.c)
    requires RuleRef(k) in w.c.objs && Live(w.c.objs[RuleRef(k)].obj.cr) && CmRef(k) !in w.c.objs
    requires forall r :: FreshButFor(w.c, k, r)
    ensures AllFresh(RulesPass(o, w, k).0.c) <==> forall r :: !Mounts(w.c, k, r)
  {
    var x := RulesPass(o, w, k).0.c;
    CalmRulesPass(o, w, k);
    forall r ensures Fresh(x, r) <==> !Mounts(w.c, k, r) { RecreatedStale(o, w.c, k, x, r); }
  }
}
