/** Fault-free passes of the proxy controller: how many of them change something, where
    they lead, and when they do not lead there. */
module Convergence {
  import opened Text
  import opened Objects
  import opened Api
  import opened Workloads
  import opened ProxyPasses
  import opened Guarantees
  import opened Calmness
  import ProxySafety

  /** The proxy exists and is not being deleted. */
  ghost predicate Standing(c: Cluster, k: Key) {
    ProxyRef(k) in c.objs && !c.objs[ProxyRef(k)].obj.cr.deleting
  }

  ghost predicate HasDeployment(c: Cluster, k: Key) { Standing(c, k) && DepRef(k) in c.objs }

  ghost function SpecOf(c: Cluster, k: Key): ProxySpec
    requires Standing(c, k)
  {
    c.objs[ProxyRef(k)].obj.spec
  }

  ghost function CrOf(c: Cluster, k: Key): Resource
    requires Standing(c, k)
  {
    c.objs[ProxyRef(k)].obj.cr
  }

  // ---- the annotation against the selection -----------------------------

  /** The annotation is the digest of these ConfigMaps, in whatever order. */
  ghost predicate Records(annotation: string, m: multiset<Name>) {
    exists names: seq<Name> :: multiset(names) == m && annotation == Digest(names)
  }

  /** The check recomputes what a re-mount records, for any order in which List answers:
      it sees a change exactly when the annotation does not record the selection. */
  lemma SeenChangedExactly(d: Deployment, names: seq<Name>)
    requires CONF in d.annotations
    ensures SeenChanged(d, names, true) <==> !Records(d.annotations[CONF], multiset(names))
  {
    if Records(d.annotations[CONF], multiset(names)) {
      var others: seq<Name> :| multiset(others) == multiset(names) && d.annotations[CONF] == Digest(others);
      DigestInjective(names, others);
    }
  }

  /** On an annotation the controller wrote, that is: exactly when the recorded and the
      selected ConfigMaps differ as multisets. */
  lemma SeenChangedMeans(d: Deployment, recorded: seq<Name>, selected: seq<Name>)
    requires CONF in d.annotations && d.annotations[CONF] == Digest(recorded)
    ensures SeenChanged(d, selected, true) <==> multiset(recorded) != multiset(selected)
  {
    DigestInjective(recorded, selected);
  }

  /** What an annotation records can be read back from it. */
  lemma RecordsNamed(annotation: string, m: multiset<Name>)
    requires Records(annotation, m)
    ensures multiset(Named(annotation)) == m
  {
    var names: seq<Name> :| multiset(names) == m && annotation == Digest(names);
    NamedDigest(names);
    AsStringsMultiset(names);
  }

  // ---- the measure ------------------------------------------------------

  /** All that a pass on `key` depends on and can change, with the selected ConfigMaps. */
  datatype Picture = Picture(
    key: Key, cr: Resource, spec: ProxySpec, dep: Option<Deployment>, svc: Option<Service>, wanted: multiset<Name>)

  ghost function PictureOf(c: Cluster, k: Key): Picture
    requires Standing(c, k)
  {
    Picture(k, CrOf(c, k), SpecOf(c, k),
            if DepRef(k) in c.objs then Some(c.objs[DepRef(k)].obj.deployment) else None,
            if SvcRef(k) in c.objs then Some(c.objs[SvcRef(k)].obj.service) else None,
            Selected(c, k.ns, SpecOf(c, k).rulesets))
  }

  ghost predicate Stale(d: Deployment, wanted: multiset<Name>) {
    CONF in d.annotations && !Records(d.annotations[CONF], wanted)
  }

  ghost predicate DepDiffers(p: Picture) {
    p.dep.Some? && DeepDiffers(ContainerPorts(p.spec.ports), p.dep.value.template.ports)
  }

  ghost predicate SvcDiffers(p: Picture) {
    p.svc.Some? && DeepDiffers(ServicePorts(p.spec.ports), p.svc.value.ports)
  }

  /** How much is left to do. A Deployment that does not exist will be created with the
      right size, mounts and ports at once. */
  ghost function Left(p: Picture): nat {
    One(p.cr.conditions == []) + One(FINALIZER !in p.cr.finalizers)
    + (if p.dep.None? then 1 else One(p.dep.value.replicas != p.spec.size) + One(Stale(p.dep.value, p.wanted)))
    + One(p.svc.None?) + One(DepDiffers(p) || SvcDiffers(p))
  }

  ghost function Distance(c: Cluster, k: Key): nat
    requires Standing(c, k)
  {
    Left(PictureOf(c, k))
  }

  ghost function Wanted(c: Cluster, k: Key): multiset<Name>
    requires Standing(c, k)
  {
    PictureOf(c, k).wanted
  }

  /** A write of the proxy, its Deployment or its Service leaves the selection alone. */
  lemma {:induction false} SelectedFrame(c: Cluster, d: Cluster, ns: string, rulesets: seq<Labels>)
    requires forall r: Ref | r.kind == ConfigMapKind :: Stored(c, r) == Stored(d, r)
    ensures Selected(c, ns, rulesets) == Selected(d, ns, rulesets)
  {
    if rulesets != [] {
      SelectedFrame(c, d, ns, rulesets[1..]);
      forall n: Name ensures n in Matching(c, ns, rulesets[0]) <==> n in Matching(d, ns, rulesets[0]) {
        MatchingHas(c, ns, rulesets[0], n);
        MatchingHas(d, ns, rulesets[0], n);
        assert Stored(c, CmRef(Key(ns, n))) == Stored(d, CmRef(Key(ns, n)));
      }
      assert Matching(c, ns, rulesets[0]) == Matching(d, ns, rulesets[0]);
    }
  }

  // ---- one pass ---------------------------------------------------------

  ghost function ReadyCondition(spec: ProxySpec): Condition {
    Condition(AVAILABLE, True, "Reconciling", Ready(spec.size))
  }

  function Reported(v: Versioned, c: Condition): Object
    requires v.obj.IsResource()
  {
    v.obj.With(v.obj.cr.(conditions := SetCondition(v.obj.cr.conditions, c)))
  }

  /** The stages of a calm pass on a standing proxy, each by its guard and the one thing it does. */
  ghost predicate StepTo(c: Cluster, k: Key, x: Cluster)
    requires Standing(c, k)
  {
    var v, spec, cr := c.objs[ProxyRef(k)], SpecOf(c, k), CrOf(c, k);
    if cr.conditions == [] then
      x == Put(c, ProxyRef(k), Reported(v, Condition(AVAILABLE, Unknown, "Reconciling", Starting)))
    else if FINALIZER !in cr.finalizers then
      x == Put(c, ProxyRef(k), v.obj.With(cr.(finalizers := cr.finalizers + [FINALIZER])))
    else if DepRef(k) !in c.objs then
      exists names: seq<Name> :: multiset(names) == Wanted(c, k)
        && x == Put(c, DepRef(k), DeploymentObject(Placed(None, DeploymentFor(k, cr, spec, names), c.next)))
    else
      var d := c.objs[DepRef(k)].obj.deployment;
      if d.replicas != spec.size then
        x == Put(c, DepRef(k), DeploymentObject(d.(replicas := spec.size)))
      else if Stale(d, Wanted(c, k)) then
        exists names: seq<Name> :: multiset(names) == Wanted(c, k)
          && x == Put(c, DepRef(k), DeploymentObject(Placed(Some(d), Remounted(d, names, true), c.next)))
      else if SvcRef(k) !in c.objs then
        x == Put(c, SvcRef(k), ServiceObject(ServiceFor(k, cr, spec)))
      else
        var s := c.objs[SvcRef(k)].obj.service;
        var depDiffers := DeepDiffers(ContainerPorts(spec.ports), d.template.ports);
        var svcDiffers := DeepDiffers(ServicePorts(spec.ports), s.ports);
        if depDiffers || svcDiffers then
          var y := if depDiffers then
                     Put(c, DepRef(k), DeploymentObject(Placed(Some(d), Ported(d, spec.ports), c.next)))
                   else c;
          x == if svcDiffers then Put(y, SvcRef(k), ServiceObject(s.(ports := ServicePorts(spec.ports)))) else y
        else
          x == Put(c, ProxyRef(k), Reported(v, ReadyCondition(spec)))
  }

  /** What a calm pass answers: done if there is nothing left to do, and else to be called again. */
  ghost function AnswerTo(c: Cluster, k: Key): Outcome
    requires Standing(c, k)
  {
    if Distance(c, k) == 0 then Done else Requeue
  }

  lemma CalmFinish(o: Oracle, w: World, k: Key, part: Part, sent: Versioned, out: Outcome)
    requires Calm(o, w.calls) && Standing(w.c, k) && sent.obj.ProxyObject? && sent.rv == w.c.objs[ProxyRef(k)].rv
    requires Merged(w.c.objs[ProxyRef(k)].obj, sent.obj, part, w.c.next) == sent.obj && !sent.obj.cr.deleting
    ensures var (x, res) := Finish(o, w, ProxyRef(k), part, sent, out);
            x.c == Put(w.c, ProxyRef(k), sent.obj) && x.calls >= w.calls && res == out
  {
    CalmUpdate(o, w, ProxyRef(k), part, sent);
  }

  lemma CalmWorkload(o: Oracle, w: World, k: Key, r: Ref, sent: Versioned)
    requires Calm(o, w.calls) && sent.obj.Kind() == r.kind && !sent.obj.IsResource()
    requires r in w.c.objs && w.c.objs[r].rv == sent.rv
    ensures var (x, err) := UpdateWorkload(o, w, k, r, sent);
            && err == None && x.calls >= w.calls && Calm(o, x.calls)
            && x.c == Put(w.c, r, Merged(w.c.objs[r].obj, sent.obj, Main, w.c.next))
  {
    CalmUpdate(o, w, r, Main, sent);
  }

  lemma CalmExposed(o: Oracle, w: World, k: Key)
    requires Calm(o, w.calls) && Standing(w.c, k) && Live(CrOf(w.c, k)) && DepRef(k) in w.c.objs
    requires var d := w.c.objs[DepRef(k)].obj.deployment; d.replicas == SpecOf(w.c, k).size && !Stale(d, Wanted(w.c, k))
    ensures var (x, out) := Exposed(o, w, k, w.c.objs[ProxyRef(k)], w.c.objs[DepRef(k)]);
            StepTo(w.c, k, x.c) && x.calls >= w.calls && out == AnswerTo(w.c, k)
  {
    var v, found := w.c.objs[ProxyRef(k)], w.c.objs[DepRef(k)];
    var spec := v.obj.spec;
    var y := Get(o, w, SvcRef(k)).0;
    CalmGet(o, w, SvcRef(k));
    if SvcRef(k) !in w.c.objs {
      CalmLocal(o, y);
      CalmCreate(o, Local(o, y).0, SvcRef(k), ServiceObject(ServiceFor(k, v.obj.cr, spec)));
    } else {
      var sfound, d := w.c.objs[SvcRef(k)], found.obj.deployment;
      var depDiffers := DeepDiffers(ContainerPorts(spec.ports), d.template.ports);
      var svcDiffers := DeepDiffers(ServicePorts(spec.ports), sfound.obj.service.ports);
      if depDiffers || svcDiffers {
        var z := y;
        if depDiffers {
          CalmWorkload(o, y, k, DepRef(k), Sending(found, Ported(d, spec.ports)));
          z := UpdateWorkload(o, y, k, DepRef(k), Sending(found, Ported(d, spec.ports))).0;
        }
        if svcDiffers {
          CalmWorkload(o, z, k, SvcRef(k),
            sfound.(obj := ServiceObject(sfound.obj.service.(ports := ServicePorts(spec.ports)))));
        }
      } else {
        CalmFinish(o, y, k, Status, Reporting(v, AVAILABLE, True, "Reconciling", Ready(spec.size)), Done);
      }
    }
  }

  lemma CalmCreation(o: Oracle, w: World, k: Key)
    requires Calm(o, w.calls) && Standing(w.c, k) && Live(CrOf(w.c, k)) && DepRef(k) !in w.c.objs
    ensures var (x, out) := CreateDeployment(o, w, k, w.c.objs[ProxyRef(k)]);
            StepTo(w.c, k, x.c) && x.calls >= w.calls && out == AnswerTo(w.c, k)
  {
    var cr, spec := CrOf(w.c, k), SpecOf(w.c, k);
    CalmCollect(o, w, k.ns, spec.rulesets, []);
    var (z, names, complete) := Collect(o, w, k.ns, spec.rulesets, []);
    CalmLocal(o, z);
    CalmCreate(o, Local(o, z).0, DepRef(k), DeploymentObject(DeploymentFor(k, cr, spec, names)));
    assert multiset(names) == Wanted(w.c, k);
  }

  lemma CalmResize(o: Oracle, w: World, k: Key)
    requires Calm(o, w.calls) && Standing(w.c, k) && Live(CrOf(w.c, k)) && DepRef(k) in w.c.objs
    requires w.c.objs[DepRef(k)].obj.deployment.replicas != SpecOf(w.c, k).size
    ensures var found := w.c.objs[DepRef(k)];
            var sent := Sending(found, found.obj.deployment.(replicas := SpecOf(w.c, k).size));
            var (x, out) := UpdateOnly(o, w, k, DepRef(k), sent);
            StepTo(w.c, k, x.c) && x.calls >= w.calls && out == AnswerTo(w.c, k)
  {
    var found := w.c.objs[DepRef(k)];
    var d := found.obj.deployment;
    var e := d.(replicas := SpecOf(w.c, k).size);
    CalmWorkload(o, w, k, DepRef(k), Sending(found, e));
    assert Placed(Some(d), e, w.c.next) == e;
  }

  lemma RemountIsStep(c: Cluster, k: Key, names: seq<Name>)
    requires Standing(c, k) && Live(CrOf(c, k)) && DepRef(k) in c.objs && multiset(names) == Wanted(c, k)
    requires var d := c.objs[DepRef(k)].obj.deployment; d.replicas == SpecOf(c, k).size && Stale(d, Wanted(c, k))
    ensures var d := c.objs[DepRef(k)].obj.deployment;
            StepTo(c, k, Put(c, DepRef(k), DeploymentObject(Placed(Some(d), Remounted(d, names, true), c.next))))
  {
  }

  lemma {:induction false} CalmRemount(o: Oracle, w: World, k: Key)
    requires Calm(o, w.calls) && Standing(w.c, k) && Live(CrOf(w.c, k)) && DepRef(k) in w.c.objs
    requires var d := w.c.objs[DepRef(k)].obj.deployment; d.replicas == SpecOf(w.c, k).size && Stale(d, Wanted(w.c, k))
    ensures var found := w.c.objs[DepRef(k)];
            var (u, names, complete) := Collect(o, w, k.ns, SpecOf(w.c, k).rulesets, []);
            var (x, out) :=
              UpdateOnly(o, u, k, DepRef(k), Sending(found, Remounted(found.obj.deployment, names, complete)));
            StepTo(w.c, k, x.c) && x.calls >= w.calls && out == AnswerTo(w.c, k)
  {
    var found := w.c.objs[DepRef(k)];
    CalmCollect(o, w, k.ns, SpecOf(w.c, k).rulesets, []);
    var (u, names, _) := Collect(o, w, k.ns, SpecOf(w.c, k).rulesets, []);
    CalmWorkload(o, u, k, DepRef(k), Sending(found, Remounted(found.obj.deployment, names, true)));
    RemountIsStep(w.c, k, names);
  }

  lemma CalmRulesets(o: Oracle, w: World, k: Key)
    requires Calm(o, w.calls) && Standing(w.c, k) && Live(CrOf(w.c, k)) && DepRef(k) in w.c.objs
    requires w.c.objs[DepRef(k)].obj.deployment.replicas == SpecOf(w.c, k).size
    ensures var (x, out) := Rulesets(o, w, k, w.c.objs[ProxyRef(k)], w.c.objs[DepRef(k)]);
            StepTo(w.c, k, x.c) && x.calls >= w.calls && out == AnswerTo(w.c, k)
  {
    var d := w.c.objs[DepRef(k)].obj.deployment;
    CalmCollect(o, w, k.ns, SpecOf(w.c, k).rulesets, []);
    var (z, names, complete) := Collect(o, w, k.ns, SpecOf(w.c, k).rulesets, []);
    if CONF in d.annotations { SeenChangedExactly(d, names); }
    if SeenChanged(d, names, complete) { CalmRemount(o, z, k); } else { CalmExposed(o, z, k); }
  }

  lemma CalmWork(o: Oracle, w: World, k: Key)
    requires Calm(o, w.calls) && Standing(w.c, k) && Live(CrOf(w.c, k))
    ensures var (x, out) := Work(o, w, k, w.c.objs[ProxyRef(k)]);
            StepTo(w.c, k, x.c) && x.calls >= w.calls && out == AnswerTo(w.c, k)
  {
    var y := Get(o, w, DepRef(k)).0;
    CalmGet(o, w, DepRef(k));
    if DepRef(k) !in w.c.objs {
      CalmCreation(o, y, k);
    } else if w.c.objs[DepRef(k)].obj.deployment.replicas != SpecOf(w.c, k).size {
      CalmResize(o, y, k);
    } else {
      CalmRulesets(o, y, k);
    }
  }

  lemma CalmPass(o: Oracle, w: World, k: Key)
    requires Calm(o, w.calls) && Standing(w.c, k)
    ensures var (x, out) := ProxyPass(o, w, k);
            StepTo(w.c, k, x.c) && x.calls >= w.calls && out == AnswerTo(w.c, k)
  {
    var v := w.c.objs[ProxyRef(k)];
    var y := Get(o, w, ProxyRef(k)).0;
    CalmGet(o, w, ProxyRef(k));
    if v.obj.cr.conditions == [] {
      CalmFinish(o, y, k, Status, Reporting(v, AVAILABLE, Unknown, "Reconciling", Starting), Requeue);
    } else if FINALIZER !in v.obj.cr.finalizers {
      CalmFinish(o, y, k, Main, WithFinalizers(v, AddFinalizer(v.obj.cr.finalizers)), Requeue);
    } else {
      CalmWork(o, y, k);
    }
  }

  /** The same step, seen in the picture. */
  ghost predicate Advances(p: Picture, q: Picture) {
    if p.cr.conditions == [] then
      q == p.(cr := Report(p.cr, AVAILABLE, Unknown, "Reconciling", Starting))
    else if FINALIZER !in p.cr.finalizers then
      q == p.(cr := p.cr.(finalizers := p.cr.finalizers + [FINALIZER]))
    else if p.dep.None? then
      exists names: seq<Name>, n: nat :: multiset(names) == p.wanted
        && q == p.(dep := Some(Placed(None, DeploymentFor(p.key, p.cr, p.spec, names), n)))
    else if p.dep.value.replicas != p.spec.size then
      q == p.(dep := Some(p.dep.value.(replicas := p.spec.size)))
    else if Stale(p.dep.value, p.wanted) then
      exists names: seq<Name>, n: nat :: multiset(names) == p.wanted
        && q == p.(dep := Some(Placed(p.dep, Remounted(p.dep.value, names, true), n)))
    else if p.svc.None? then
      q == p.(svc := Some(ServiceFor(p.key, p.cr, p.spec)))
    else if DepDiffers(p) || SvcDiffers(p) then
      exists n: nat ::
        q == p.(dep := if DepDiffers(p) then Some(Placed(p.dep, Ported(p.dep.value, p.spec.ports), n)) else p.dep,
                svc := if SvcDiffers(p) then Some(p.svc.value.(ports := ServicePorts(p.spec.ports))) else p.svc)
    else
      q == p.(cr := p.cr.(conditions := SetCondition(p.cr.conditions, ReadyCondition(p.spec))))
  }

  lemma PutFrame(c: Cluster, r: Ref, obj: Object, k: Key)
    requires obj.Kind() == r.kind && Standing(c, k) && r.kind != ConfigMapKind
    requires r == ProxyRef(k) ==> obj.spec == SpecOf(c, k) && !obj.cr.deleting
    ensures var x := Put(c, r, obj);
            && Standing(x, k) && PictureOf(x, k).wanted == PictureOf(c, k).wanted
            && r in x.objs && x.objs[r].obj == obj
            && forall q | q != r :: (q in x.objs <==> q in c.objs) && (q in c.objs ==> x.objs[q] == c.objs[q])
  {
    SelectedFrame(c, Put(c, r, obj), k.ns, SpecOf(c, k).rulesets);
  }

  /** Writing the Deployment changes that part of the picture only. */
  lemma PutDeployment(c: Cluster, k: Key, d: Deployment)
    requires Standing(c, k)
    ensures var x := Put(c, DepRef(k), DeploymentObject(d));
            Standing(x, k) && PictureOf(x, k) == PictureOf(c, k).(dep := Some(d))
  {
    PutFrame(c, DepRef(k), DeploymentObject(d), k);
  }

  lemma ClaimAdvances(c: Cluster, k: Key, x: Cluster)
    requires Standing(c, k) && StepTo(c, k, x)
    requires CrOf(c, k).conditions == [] || FINALIZER !in CrOf(c, k).finalizers
    ensures Standing(x, k) && Advances(PictureOf(c, k), PictureOf(x, k))
  {
    var v, cr := c.objs[ProxyRef(k)], CrOf(c, k);
    if cr.conditions == [] {
      PutFrame(c, ProxyRef(k), Reported(v, Condition(AVAILABLE, Unknown, "Reconciling", Starting)), k);
    } else {
      PutFrame(c, ProxyRef(k), v.obj.With(cr.(finalizers := cr.finalizers + [FINALIZER])), k);
    }
  }

  lemma CreateAdvances(c: Cluster, k: Key, x: Cluster)
    requires Standing(c, k) && StepTo(c, k, x) && Live(CrOf(c, k)) && DepRef(k) !in c.objs
    ensures Standing(x, k) && Advances(PictureOf(c, k), PictureOf(x, k))
  {
    var spec, cr := SpecOf(c, k), CrOf(c, k);
    var names: seq<Name> :| multiset(names) == Wanted(c, k)
      && x == Put(c, DepRef(k), DeploymentObject(Placed(None, DeploymentFor(k, cr, spec, names), c.next)));
    PutDeployment(c, k, Placed(None, DeploymentFor(k, cr, spec, names), c.next));
  }

  lemma ResizeAdvances(c: Cluster, k: Key, x: Cluster)
    requires Standing(c, k) && StepTo(c, k, x) && Live(CrOf(c, k)) && DepRef(k) in c.objs
    requires c.objs[DepRef(k)].obj.deployment.replicas != SpecOf(c, k).size
    ensures Standing(x, k) && Advances(PictureOf(c, k), PictureOf(x, k))
  {
    PutDeployment(c, k, c.objs[DepRef(k)].obj.deployment.(replicas := SpecOf(c, k).size));
  }

  lemma RemountAdvances(c: Cluster, k: Key, x: Cluster)
    requires Standing(c, k) && StepTo(c, k, x) && Live(CrOf(c, k)) && DepRef(k) in c.objs
    requires var d := c.objs[DepRef(k)].obj.deployment; d.replicas == SpecOf(c, k).size && Stale(d, Wanted(c, k))
    ensures Standing(x, k) && Advances(PictureOf(c, k), PictureOf(x, k))
  {
    var d := c.objs[DepRef(k)].obj.deployment;
    var names: seq<Name> :| multiset(names) == Wanted(c, k)
      && x == Put(c, DepRef(k), DeploymentObject(Placed(Some(d), Remounted(d, names, true), c.next)));
    PutDeployment(c, k, Placed(Some(d), Remounted(d, names, true), c.next));
  }

  lemma ExposeAdvances(c: Cluster, k: Key, x: Cluster)
    requires Standing(c, k) && StepTo(c, k, x) && Live(CrOf(c, k)) && DepRef(k) in c.objs
    requires var p := PictureOf(c, k);
             && p.dep.value.replicas == p.spec.size && !Stale(p.dep.value, p.wanted)
             && (p.svc.None? || !(DepDiffers(p) || SvcDiffers(p)))
    ensures Standing(x, k) && Advances(PictureOf(c, k), PictureOf(x, k))
  {
    var p := PictureOf(c, k);
    if p.svc.None? {
      PutFrame(c, SvcRef(k), ServiceObject(ServiceFor(k, p.cr, p.spec)), k);
    } else {
      PutFrame(c, ProxyRef(k), Reported(c.objs[ProxyRef(k)], ReadyCondition(p.spec)), k);
    }
  }

  lemma StepAdvances(c: Cluster, k: Key, x: Cluster)
    requires Standing(c, k) && StepTo(c, k, x)
    ensures Standing(x, k) && Advances(PictureOf(c, k), PictureOf(x, k))
  {
    var p := PictureOf(c, k);
    if p.cr.conditions == [] || FINALIZER !in p.cr.finalizers { ClaimAdvances(c, k, x); }
    else if p.dep.None? { CreateAdvances(c, k, x); }
    else if p.dep.value.replicas != p.spec.size { ResizeAdvances(c, k, x); }
    else if Stale(p.dep.value, p.wanted) { RemountAdvances(c, k, x); }
    else if p.svc.None? || !(DepDiffers(p) || SvcDiffers(p)) { ExposeAdvances(c, k, x); }
    else { AlignAdvances(c, k, x); }
  }

  lemma AlignAdvances(c: Cluster, k: Key, x: Cluster)
    requires Standing(c, k) && StepTo(c, k, x) && Live(CrOf(c, k))
    requires var p := PictureOf(c, k);
             && p.dep.Some? && p.dep.value.replicas == p.spec.size && !Stale(p.dep.value, p.wanted)
             && p.svc.Some? && (DepDiffers(p) || SvcDiffers(p))
    ensures Standing(x, k) && Advances(PictureOf(c, k), PictureOf(x, k))
  {
    var p := PictureOf(c, k);
    var d, s := p.dep.value, p.svc.value;
    var e := Placed(Some(d), Ported(d, p.spec.ports), c.next);
    var y := if DepDiffers(p) then Put(c, DepRef(k), DeploymentObject(e)) else c;
    if DepDiffers(p) { PutDeployment(c, k, e); }
    if SvcDiffers(p) { PutFrame(y, SvcRef(k), ServiceObject(s.(ports := ServicePorts(p.spec.ports))), k); }
    assert PictureOf(x, k) ==
      p.(dep := if DepDiffers(p) then Some(e) else p.dep,
         svc := if SvcDiffers(p) then Some(s.(ports := ServicePorts(p.spec.ports))) else p.svc);
  }

  // ---- convergence ------------------------------------------------------

  /** Everything the controller looks after is as the spec wants it, and the status says so. */
  ghost predicate Settled(c: Cluster, k: Key) {
    && Standing(c, k) && Distance(c, k) == 0
    && SetCondition(CrOf(c, k).conditions, ReadyCondition(SpecOf(c, k))) == CrOf(c, k).conditions
  }

  lemma {:induction false} SetConditionTwice(cs: seq<Condition>, c: Condition)
    ensures c in SetCondition(cs, c) && SetCondition(cs, c) != []
    ensures SetCondition(SetCondition(cs, c), c) == SetCondition(cs, c)
  {
    if cs != [] { SetConditionTwice(cs[1..], c); }
  }

  lemma RecordsDigest(names: seq<Name>)
    ensures Records(Digest(names), multiset(names))
  {
  }

  lemma CreatedIsAligned(p: Picture, names: seq<Name>, n: nat)
    requires multiset(names) == p.wanted && p.dep.None? && p.spec.ports != []
    ensures var q := p.(dep := Some(Placed(None, DeploymentFor(p.key, p.cr, p.spec, names), n))); Left(q) == Left(p) - 1
  {
    RecordsDigest(names);
  }

  lemma RemountedIsRecorded(d: Deployment, names: seq<Name>, n: nat)
    ensures var e := Placed(Some(d), Remounted(d, names, true), n);
            && !Stale(e, multiset(names)) && e.replicas == d.replicas && e.template.ports == d.template.ports
  {
    RecordsDigest(names);
    assert Remounted(d, names, true).annotations[CONF] == Digest(names);
  }

  lemma RemountedIsAligned(p: Picture, names: seq<Name>, n: nat)
    requires multiset(names) == p.wanted && p.dep.Some? && Stale(p.dep.value, p.wanted)
    ensures var q := p.(dep := Some(Placed(p.dep, Remounted(p.dep.value, names, true), n))); Left(q) == Left(p) - 1
  {
    RemountedIsRecorded(p.dep.value, names, n);
  }

  /** Each step on an unsettled proxy does exactly one unit of what is left. */
  lemma StepApproaches(p: Picture, q: Picture)
    requires Advances(p, q) && p.spec.ports != [] && Left(p) > 0
    ensures Left(q) == Left(p) - 1
  {
    if p.cr.conditions == [] {
      SetConditionTwice([], Condition(AVAILABLE, Unknown, "Reconciling", Starting));
    } else if FINALIZER !in p.cr.finalizers {
    } else if p.dep.None? {
      var names: seq<Name>, n: nat :| multiset(names) == p.wanted
        && q == p.(dep := Some(Placed(None, DeploymentFor(p.key, p.cr, p.spec, names), n)));
      CreatedIsAligned(p, names, n);
    } else if p.dep.value.replicas == p.spec.size && Stale(p.dep.value, p.wanted) {
      var names: seq<Name>, n: nat :| multiset(names) == p.wanted
        && q == p.(dep := Some(Placed(p.dep, Remounted(p.dep.value, names, true), n)));
      RemountedIsAligned(p, names, n);
    }
  }

  lemma AdvancesFrame(p: Picture, q: Picture)
    requires Advances(p, q)
    ensures q.key == p.key && q.spec == p.spec && q.wanted == p.wanted
  {
  }

  /** With nothing left to do, the step reports it. */
  lemma StepSettles(p: Picture, q: Picture)
    requires Advances(p, q) && Left(p) == 0
    ensures q == p.(cr := p.cr.(conditions := SetCondition(p.cr.conditions, ReadyCondition(p.spec)))) && Left(q) == 0
  {
    SetConditionTwice(p.cr.conditions, ReadyCondition(p.spec));
  }

  /** One calm pass, by what it leaves to do. */
  lemma PassApproaches(o: Oracle, w: World, k: Key)
    requires Calm(o, w.calls) && Standing(w.c, k)
    ensures var x := ProxyPass(o, w, k).0;
            && Calm(o, x.calls) && Standing(x.c, k) && SpecOf(x.c, k) == SpecOf(w.c, k)
            && (SpecOf(w.c, k).ports != [] && Distance(w.c, k) > 0 ==> Distance(x.c, k) == Distance(w.c, k) - 1)
            && (Distance(w.c, k) == 0 ==> Settled(x.c, k))
            && (Settled(w.c, k) ==> x.c == w.c)
  {
    var x := ProxyPass(o, w, k).0;
    CalmPass(o, w, k);
    CalmLater(o, w.calls, x.calls);
    StepAdvances(w.c, k, x.c);
    var p, q := PictureOf(w.c, k), PictureOf(x.c, k);
    AdvancesFrame(p, q);
    if p.spec.ports != [] && Left(p) > 0 { StepApproaches(p, q); }
    if Left(p) == 0 {
      StepSettles(p, q);
      SetConditionTwice(p.cr.conditions, ReadyCondition(p.spec));
      if Settled(w.c, k) { SettledStays(w.c, k, x.c); }
    }
  }

  lemma SettledStays(c: Cluster, k: Key, x: Cluster)
    requires Settled(c, k) && StepTo(c, k, x)
    ensures x == c
  {
    var v := c.objs[ProxyRef(k)];
    assert Reported(v, ReadyCondition(SpecOf(c, k))) == v.obj;
  }

  /** With n passes to go: one unit less than that is left to do, or it is done. */
  ghost predicate Within(o: Oracle, k: Key, spec: ProxySpec, n: nat, x: World) {
    && Calm(o, x.calls) && Standing(x.c, k) && SpecOf(x.c, k) == spec
    && if n == 0 then Settled(x.c, k) else Distance(x.c, k) == n - 1
  }

  lemma PassWithin(o: Oracle, k: Key, spec: ProxySpec, n: nat, x: World)
    requires spec.ports != [] && n > 0 && Within(o, k, spec, n, x)
    ensures Within(o, k, spec, n - 1, ProxyPass(o, x, k).0)
  {
    PassApproaches(o, x, k);
  }

  lemma {:induction false} ConvergesIn(o: Oracle, w: World, k: Key, spec: ProxySpec, passes: nat)
    requires passes > 0 && Within(o, k, spec, passes, w) && spec.ports != []
    ensures Within(o, k, spec, 0, ProxyRepeated(o, w, k, passes))
  {
    var claim := (m: nat, x: World) => Within(o, k, spec, m, x);
    forall m: nat, x: World | m > 0 && claim(m, x) ensures claim(m - 1, ProxyPass(o, x, k).0) {
      PassWithin(o, k, spec, m, x);
    }
    ProxyThroughout(o, k, claim, w, passes);
  }

  lemma {:induction false} RepeatedSum(o: Oracle, w: World, k: Key, m: nat, n: nat)
    ensures ProxyRepeated(o, w, k, m + n) == ProxyRepeated(o, ProxyRepeated(o, w, k, m), k, n)
    decreases m
  {
    if m > 0 {
      var x := ProxyPass(o, w, k).0;
      RepeatedSum(o, x, k, m - 1, n);
      assert ProxyRepeated(o, w, k, m) == ProxyRepeated(o, x, k, m - 1);
    }
  }

  /** Without faults and with at least one port, a standing proxy gets settled: exactly
      Distance passes change a workload or the claim of the proxy, the next one reports
      Available=True for the wanted size, and every later one is the identity. */
  lemma Converges(o: Oracle, w: World, k: Key, n: nat, extra: nat)
    requires Calm(o, w.calls) && Standing(w.c, k) && SpecOf(w.c, k).ports != [] && n == Distance(w.c, k) + 1
    ensures Settled(ProxyRepeated(o, w, k, n).c, k)
    ensures SpecOf(ProxyRepeated(o, w, k, n).c, k) == SpecOf(w.c, k)
    ensures ProxyRepeated(o, w, k, n + extra).c == ProxyRepeated(o, w, k, n).c
  {
    ConvergesIn(o, w, k, SpecOf(w.c, k), n);
    var x := ProxyRepeated(o, w, k, n);
    RepeatedSum(o, w, k, n, extra);
    Rests(o, x, k, extra);
  }

  lemma SettledPass(o: Oracle, w: World, k: Key)
    requires Calm(o, w.calls) && Settled(w.c, k)
    ensures var x := ProxyPass(o, w, k).0; Calm(o, x.calls) && x.c == w.c
  {
    PassApproaches(o, w, k);
  }

  ghost predicate SettledAs(o: Oracle, k: Key, c: Cluster, x: World) {
    Calm(o, x.calls) && Settled(x.c, k) && x.c == c
  }

  lemma {:induction false} Rests(o: Oracle, w: World, k: Key, passes: nat)
    requires Calm(o, w.calls) && Settled(w.c, k)
    ensures ProxyRepeated(o, w, k, passes).c == w.c
  {
    var c := w.c;
    var claim := (n: nat, x: World) => SettledAs(o, k, c, x);
    forall n: nat, x: World | n > 0 && claim(n, x) ensures claim(n - 1, ProxyPass(o, x, k).0) { SettledPass(o, x, k); }
    ProxyThroughout(o, k, claim, w, passes);
  }

  /** What a fault-free pass on a standing proxy answers: done exactly if there was nothing left
      to do, and then the proxy is settled; and else to be called again, which with a port
      means that one unit has been done. It never answers an error. */
  lemma CalmAnswers(o: Oracle, w: World, k: Key)
    requires Calm(o, w.calls) && Standing(w.c, k)
    ensures var (x, out) := ProxyPass(o, w, k);
            && Standing(x.c, k)
            && (out == Done <==> Distance(w.c, k) == 0) && (out == Requeue <==> Distance(w.c, k) > 0)
            && (out == Done ==> Settled(x.c, k))
            && (SpecOf(w.c, k).ports != [] ==> (out == Requeue <==> Distance(w.c, k) == Distance(x.c, k) + 1))
  {
    CalmPass(o, w, k);
    PassApproaches(o, w, k);
  }

  /** The status says already that the wanted size is ready. */
  ghost predicate SaysReady(cr: Resource, spec: ProxySpec) {
    SetCondition(cr.conditions, ReadyCondition(spec)) == cr.conditions
  }

  /** A step with something left to do leaves the conditions alone, but for the first one. */
  lemma StepReports(p: Picture, q: Picture)
    requires Advances(p, q) && Left(p) > 0
    ensures SaysReady(q.cr, q.spec) <==> SaysReady(p.cr, p.spec)
  {
    if p.cr.conditions == [] {
      var c := Condition(AVAILABLE, Unknown, "Reconciling", Starting);
      assert q.cr.conditions == [c];
      assert SetCondition([c], ReadyCondition(q.spec)) == [ReadyCondition(q.spec)];
    }
  }

  /** A pass may settle the proxy and yet ask to be called again: exactly if it does the last
      unit of what is left, and the status says so already. */
  lemma SettlesIff(o: Oracle, w: World, k: Key)
    requires Calm(o, w.calls) && Standing(w.c, k) && SpecOf(w.c, k).ports != []
    ensures Settled(ProxyPass(o, w, k).0.c, k) <==>
            Distance(w.c, k) == 0 || (Distance(w.c, k) == 1 && SaysReady(CrOf(w.c, k), SpecOf(w.c, k)))
  {
    var x := ProxyPass(o, w, k).0;
    PassApproaches(o, w, k);
    PassAdvances(o, w, k);
    if Distance(w.c, k) > 0 { StepReports(PictureOf(w.c, k), PictureOf(x.c, k)); }
  }

  /** Somebody has scaled the Deployment of a settled proxy down. */
  function ScaledCluster(k: Key): Cluster {
    var spec := FarSpec();
    var ready := Condition(AVAILABLE, True, "Reconciling", Ready(spec.size));
    var d := Deployment(map[], map[], 1, map[],
                        PodTemplate(map[], map[], [], [], ContainerPorts(spec.ports), "villip:latest", []), 0);
    Cluster(map[ProxyRef(k) := Versioned(ProxyObject(Resource(map[], [FINALIZER], false, [ready]), spec), 0),
                DepRef(k) := Versioned(DeploymentObject(d), 1),
                SvcRef(k) := Versioned(ServiceObject(Service(map[], ServicePorts(spec.ports), map[])), 2)], 3)
  }

  /** Such a pass there is. */
  lemma RequeueMaySettle(o: Oracle, k: Key)
    requires Calm(o, 0)
    ensures var w := World(ScaledCluster(k), 0, [], []);
            && Standing(w.c, k) && ProxyPass(o, w, k).1 == Requeue && Settled(ProxyPass(o, w, k).0.c, k)
  {
    var w := World(ScaledCluster(k), 0, [], []);
    assert |ContainerPorts(FarSpec().ports)| == 1 && |ServicePorts(FarSpec().ports)| == 1;
    assert Distance(w.c, k) == 1 && SaysReady(CrOf(w.c, k), SpecOf(w.c, k));
    CalmAnswers(o, w, k);
    SettlesIff(o, w, k);
  }

  function FarSpec(): ProxySpec {
    ProxySpec(false, "villip", "latest", [8080], [], Target("default", "smocker", 80, "/"), 2)
  }

  /** Too small, without ports, and still with the mount of a ConfigMap that is gone. */
  function FarDeployment(): Deployment {
    Deployment(map[], map[CONF := "gone"], 1, map[],
               PodTemplate(map[], map[], VolumesOf(["gone"]), MountsOf(["gone"]), [], "villip:latest", []), 0)
  }

  function FarCluster(k: Key): Cluster {
    Cluster(map[ProxyRef(k) := Versioned(ProxyObject(Resource(map[], [], false, []), FarSpec()), 0),
                DepRef(k) := Versioned(DeploymentObject(FarDeployment()), 1)], 2)
  }

  lemma FarIsMounted()
    ensures WellMounted(FarDeployment())
  {
    SplitWhole("gone", COMMA);
    assert VolumeNames(FarDeployment()) == ["gone"];
  }

  lemma FarIsGood(k: Key)
    ensures Good(FarCluster(k))
  {
    FarIsMounted();
    forall r | r in FarCluster(k).objs ensures Sound(FarCluster(k).objs[r].obj, 2) {
      assert r == ProxyRef(k) || r == DepRef(k);
    }
  }

  lemma FarIsStale()
    ensures Stale(FarDeployment(), multiset{})
  {
    forall names: seq<Name> | multiset(names) == multiset{} ensures Digest(names) == "" {
      assert |names| == |multiset(names)| == 0;
      assert AsStrings(names) == [];
    }
  }

  lemma FarIsSix(k: Key)
    ensures Standing(FarCluster(k), k) && Distance(FarCluster(k), k) == 6
  {
    FarIsStale();
    assert |ContainerPorts(FarSpec().ports)| == 1;
    assert Selected(FarCluster(k), k.ns, []) == multiset{};
    assert PictureOf(FarCluster(k), k)
        == Picture(k, Resource(map[], [], false, []), FarSpec(), Some(FarDeployment()), None, multiset{});
  }

  /** At most six passes change something before that, and six are needed from some states
      that are in order. */
  lemma SixAtMost(k: Key) returns (worst: Cluster)
    ensures forall c | Standing(c, k) :: Distance(c, k) <= 6
    ensures Good(worst) && Standing(worst, k) && Distance(worst, k) == 6 && SpecOf(worst, k).ports != []
  {
    worst := FarCluster(k);
    FarIsGood(k);
    FarIsSix(k);
  }

  /** What settled means: size, ports of both objects, and, on an annotated Deployment of the
      operator, one mount for every selected ConfigMap, as often as it is selected. */
  lemma SettledMeans(c: Cluster, k: Key)
    requires Settled(c, k)
    ensures DepRef(k) in c.objs && SvcRef(k) in c.objs
    ensures var spec := SpecOf(c, k);
            var d, s := c.objs[DepRef(k)].obj.deployment, c.objs[SvcRef(k)].obj.service;
            && d.replicas == spec.size && d.template.ports == ContainerPorts(spec.ports)
            && s.ports == ServicePorts(spec.ports)
            && (CONF in d.annotations ==> multiset(Named(d.annotations[CONF])) == Wanted(c, k))
            && (CONF in d.annotations && ByOperator(d) && Good(c) ==> multiset(VolumeNames(d)) == Wanted(c, k))
            && ReadyCondition(spec) in CrOf(c, k).conditions
  {
    SetConditionTwice(CrOf(c, k).conditions, ReadyCondition(SpecOf(c, k)));
    var d := c.objs[DepRef(k)].obj.deployment;
    if CONF in d.annotations { RecordsNamed(d.annotations[CONF], Wanted(c, k)); }
  }

  /** Whoever lists the selected ConfigMaps, in whatever order, sees no change. */
  ghost predicate SeenAsRecorded(d: Deployment, wanted: multiset<Name>) {
    forall names: seq<Name> | multiset(names) == wanted :: !SeenChanged(d, names, true)
  }

  lemma RemountedIsSeen(p: Picture, q: Picture)
    requires Advances(p, q) && Live(p.cr) && p.dep.Some? && p.dep.value.replicas == p.spec.size
             && Stale(p.dep.value, p.wanted)
    ensures q.dep.Some? && CONF in q.dep.value.annotations && SeenAsRecorded(q.dep.value, p.wanted)
  {
    var names: seq<Name>, n: nat :| multiset(names) == p.wanted
      && q == p.(dep := Some(Placed(p.dep, Remounted(p.dep.value, names, true), n)));
    RecordsDigest(names);
    forall others: seq<Name> | multiset(others) == p.wanted ensures !SeenChanged(q.dep.value, others, true) {
      SeenChangedExactly(q.dep.value, others);
    }
  }

  /** After a re-mount nothing is seen as changed, whatever order the lists came in and will
      come in: a second one never follows on an unchanged cluster. */
  lemma NoSecondRemount(o: Oracle, w: World, k: Key)
    requires Calm(o, w.calls) && Standing(w.c, k)
    requires var p := PictureOf(w.c, k);
             Live(p.cr) && p.dep.Some? && p.dep.value.replicas == p.spec.size && Stale(p.dep.value, p.wanted)
    ensures var x := ProxyPass(o, w, k).0.c;
            && Standing(x, k) && Wanted(x, k) == Wanted(w.c, k)
            && var q := PictureOf(x, k);
               q.dep.Some? && CONF in q.dep.value.annotations && SeenAsRecorded(q.dep.value, q.wanted)
  {
    var x := ProxyPass(o, w, k).0.c;
    PassAdvances(o, w, k);
    AdvancesFrame(PictureOf(w.c, k), PictureOf(x, k));
    RemountedIsSeen(PictureOf(w.c, k), PictureOf(x, k));
  }

  // ---- when it does not get there ---------------------------------------

  ghost predicate SaysAvailable(cs: seq<Condition>) {
    exists c | c in cs :: c.ctype == AVAILABLE && c.status == True
  }

  /** Without ports, Available=True is never reported: the empty list always differs from
      the stored one, so that no pass gets past the alignment. */
  lemma NoPortsStep(p: Picture, q: Picture)
    requires Advances(p, q) && p.spec.ports == [] && !SaysAvailable(p.cr.conditions)
    ensures !SaysAvailable(q.cr.conditions)
  {
    SetConditionHas(p.cr.conditions, Condition(AVAILABLE, Unknown, "Reconciling", Starting));
  }

  ghost predicate NeverYet(c: Cluster, k: Key) {
    Standing(c, k) && SpecOf(c, k).ports == [] && !SaysAvailable(CrOf(c, k).conditions)
  }

  lemma NoPortsPass(o: Oracle, w: World, k: Key)
    requires Calm(o, w.calls) && NeverYet(w.c, k)
    ensures var x := ProxyPass(o, w, k).0; Calm(o, x.calls) && NeverYet(x.c, k)
  {
    PassAdvances(o, w, k);
    NoPortsStep(PictureOf(w.c, k), PictureOf(ProxyPass(o, w, k).0.c, k));
  }

  lemma {:induction false} NoPortsNeverAvailable(o: Oracle, w: World, k: Key, passes: nat)
    requires Calm(o, w.calls) && NeverYet(w.c, k)
    ensures NeverYet(ProxyRepeated(o, w, k, passes).c, k)
  {
    var claim := (n: nat, x: World) => Calm(o, x.calls) && NeverYet(x.c, k);
    forall n: nat, x: World | n > 0 && claim(n, x) ensures claim(n - 1, ProxyPass(o, x, k).0) { NoPortsPass(o, x, k); }
    ProxyThroughout(o, k, claim, w, passes);
  }

  lemma PassAdvances(o: Oracle, w: World, k: Key)
    requires Calm(o, w.calls) && Standing(w.c, k)
    ensures var x := ProxyPass(o, w, k).0;
            && Calm(o, x.calls) && Standing(x.c, k) && SpecOf(x.c, k) == SpecOf(w.c, k)
            && Advances(PictureOf(w.c, k), PictureOf(x.c, k))
  {
    var x := ProxyPass(o, w, k).0;
    CalmPass(o, w, k);
    CalmLater(o, w.calls, x.calls);
    StepAdvances(w.c, k, x.c);
    AdvancesFrame(PictureOf(w.c, k), PictureOf(x.c, k));
  }

  ghost predicate BecomesAvailable(o: Oracle, w: World, k: Key, passes: nat) {
    var x := ProxyRepeated(o, w, k, passes).c;
    Standing(x, k) && SaysAvailable(CrOf(x, k).conditions)
  }

  /** So a standing proxy that is not yet reported available comes to be, by fault-free
      passes, exactly if its spec has a port. */
  lemma AvailableIffPorts(o: Oracle, w: World, k: Key)
    requires Calm(o, w.calls) && Standing(w.c, k) && !SaysAvailable(CrOf(w.c, k).conditions)
    ensures (exists n: nat :: BecomesAvailable(o, w, k, n)) <==> SpecOf(w.c, k).ports != []
  {
    if SpecOf(w.c, k).ports != [] {
      var n := Distance(w.c, k) + 1;
      Converges(o, w, k, n, 0);
      SettledMeans(ProxyRepeated(o, w, k, n).c, k);
      assert BecomesAvailable(o, w, k, n);
    } else {
      forall n: nat ensures !BecomesAvailable(o, w, k, n) {
        NoPortsNeverAvailable(o, w, k, n);
      }
    }
  }

  /** The Deployment is there, without the annotation, and its mounts are these. */
  ghost predicate Unannotated(c: Cluster, k: Key, volumes: seq<Volume>, mounts: seq<Mount>) {
    Standing(c, k) && DepRef(k) in c.objs &&
    var d := c.objs[DepRef(k)].obj.deployment;
    CONF !in d.annotations && d.template.volumes == volumes && d.template.mounts == mounts
  }

  lemma UnannotatedStep(p: Picture, q: Picture)
    requires Advances(p, q) && p.dep.Some? && CONF !in p.dep.value.annotations
    ensures q.dep.Some?
    ensures var d, e := p.dep.value, q.dep.value;
            && e.annotations == d.annotations && e.template.volumes == d.template.volumes
            && e.template.mounts == d.template.mounts
  {
  }

  lemma UnannotatedPass(o: Oracle, w: World, k: Key, volumes: seq<Volume>, mounts: seq<Mount>)
    requires Calm(o, w.calls) && Unannotated(w.c, k, volumes, mounts)
    ensures var x := ProxyPass(o, w, k).0; Calm(o, x.calls) && Unannotated(x.c, k, volumes, mounts)
  {
    PassAdvances(o, w, k);
    UnannotatedStep(PictureOf(w.c, k), PictureOf(ProxyPass(o, w, k).0.c, k));
  }

  /** A Deployment that has lost its annotation keeps the mounts it has, whatever the
      selection, through all passes, which may well report it available. */
  lemma {:induction false} UnannotatedNeverRemounted(o: Oracle, w: World, k: Key, volumes: seq<Volume>,
                                                     mounts: seq<Mount>, passes: nat)
    requires Calm(o, w.calls) && Unannotated(w.c, k, volumes, mounts)
    ensures Unannotated(ProxyRepeated(o, w, k, passes).c, k, volumes, mounts)
  {
    var claim := (n: nat, x: World) => Calm(o, x.calls) && Unannotated(x.c, k, volumes, mounts);
    forall n: nat, x: World | n > 0 && claim(n, x) ensures claim(n - 1, ProxyPass(o, x, k).0) {
      UnannotatedPass(o, x, k, volumes, mounts);
    }
    ProxyThroughout(o, k, claim, w, passes);
  }

  lemma PassStaysInOrder(o: Oracle, w: World, k: Key)
    requires Calm(o, 0) && Clock(o) && InOrder(o, w) && Standing(w.c, k)
    ensures var x := ProxyPass(o, w, k).0;
            InOrder(o, x) && Standing(x.c, k) && Advances(PictureOf(w.c, k), PictureOf(x.c, k))
  {
    CalmIsLawful(o);
    CalmLater(o, 0, w.calls);
    ProxySafety.ProxyGuarantee(o, w, k);
    PassAdvances(o, w, k);
  }

  ghost predicate Annotated(c: Cluster, k: Key)
    requires HasDeployment(c, k)
  {
    CONF in c.objs[DepRef(k)].obj.deployment.annotations
  }

  ghost predicate MountsMatch(c: Cluster, k: Key)
    requires HasDeployment(c, k)
  {
    multiset(VolumeNames(c.objs[DepRef(k)].obj.deployment)) == Wanted(c, k)
  }

  /** No Deployment, or one whose annotation does not record the selection: it will be mounted. */
  ghost predicate Owed(p: Picture) { p.dep.None? || Stale(p.dep.value, p.wanted) }

  /** Annotated with the selection, and mounted so. */
  ghost predicate Squared(p: Picture) {
    && p.dep.Some? && CONF in p.dep.value.annotations && !Stale(p.dep.value, p.wanted)
    && multiset(VolumeNames(p.dep.value)) == p.wanted
  }

  lemma MountedIsRecorded(d: Deployment, names: seq<Name>)
    requires d.annotations == AnnotationsOf(names, true) && d.template.volumes == VolumesOf(names)
    ensures CONF in d.annotations && !Stale(d, multiset(names)) && multiset(VolumeNames(d)) == multiset(names)
  {
    RecordsDigest(names);
    assert VolumeNames(d) == names;
  }

  lemma CreatedIsSquared(p: Picture, q: Picture)
    requires Advances(p, q) && Live(p.cr) && p.dep.None?
    ensures Squared(q)
  {
    var names: seq<Name>, n: nat :| multiset(names) == p.wanted
      && q == p.(dep := Some(Placed(None, DeploymentFor(p.key, p.cr, p.spec, names), n)));
    MountedIsRecorded(q.dep.value, names);
  }

  lemma RemountedIsSquared(p: Picture, q: Picture)
    requires Advances(p, q) && Live(p.cr) && p.dep.Some? && p.dep.value.replicas == p.spec.size
             && Stale(p.dep.value, p.wanted)
    ensures Squared(q)
  {
    var names: seq<Name>, n: nat :| multiset(names) == p.wanted
      && q == p.(dep := Some(Placed(p.dep, Remounted(p.dep.value, names, true), n)));
    MountedIsRecorded(q.dep.value, names);
  }

  /** Every other stage leaves annotation and volumes as they are. */
  lemma OtherStageMounts(p: Picture, q: Picture)
    requires Advances(p, q) && !p.cr.deleting
    requires Live(p.cr) ==> p.dep.Some? && (p.dep.value.replicas == p.spec.size ==> !Stale(p.dep.value, p.wanted))
    ensures q.wanted == p.wanted && (p.dep.Some? <==> q.dep.Some?)
    ensures p.dep.Some? ==> q.dep.value.annotations == p.dep.value.annotations
    ensures p.dep.Some? ==> VolumeNames(q.dep.value) == VolumeNames(p.dep.value)
  {
  }

  lemma SquareStep(p: Picture, q: Picture)
    requires Advances(p, q) && !p.cr.deleting && (Owed(p) || Squared(p))
    ensures Owed(q) || Squared(q)
  {
    if Live(p.cr) && p.dep.None? {
      CreatedIsSquared(p, q);
    } else if Live(p.cr) && p.dep.value.replicas == p.spec.size && Stale(p.dep.value, p.wanted) {
      RemountedIsSquared(p, q);
    } else {
      OtherStageMounts(p, q);
    }
  }

  /** A Deployment that is not seen as changed, with these volumes. */
  ghost predicate Idle(p: Picture, volumes: seq<string>) {
    p.dep.Some? && !Stale(p.dep.value, p.wanted) && VolumeNames(p.dep.value) == volumes
  }

  lemma IdleStep(p: Picture, q: Picture, volumes: seq<string>)
    requires Advances(p, q) && !p.cr.deleting && Idle(p, volumes)
    ensures Idle(q, volumes)
  {
    OtherStageMounts(p, q);
  }

  ghost predicate OnTheWay(o: Oracle, k: Key, wanted: multiset<Name>, x: World) {
    && Calm(o, x.calls) && Standing(x.c, k) && Wanted(x.c, k) == wanted
    && (Owed(PictureOf(x.c, k)) || Squared(PictureOf(x.c, k)))
  }

  lemma OnTheWayPass(o: Oracle, w: World, k: Key, wanted: multiset<Name>)
    requires OnTheWay(o, k, wanted, w)
    ensures OnTheWay(o, k, wanted, ProxyPass(o, w, k).0)
  {
    PassAdvances(o, w, k);
    AdvancesFrame(PictureOf(w.c, k), PictureOf(ProxyPass(o, w, k).0.c, k));
    SquareStep(PictureOf(w.c, k), PictureOf(ProxyPass(o, w, k).0.c, k));
  }

  lemma {:induction false} OnTheWayThroughout(o: Oracle, w: World, k: Key, wanted: multiset<Name>, passes: nat)
    requires OnTheWay(o, k, wanted, w)
    ensures OnTheWay(o, k, wanted, ProxyRepeated(o, w, k, passes))
  {
    var claim := (n: nat, x: World) => OnTheWay(o, k, wanted, x);
    forall n: nat, x: World | n > 0 && claim(n, x) ensures claim(n - 1, ProxyPass(o, x, k).0) {
      OnTheWayPass(o, x, k, wanted);
    }
    ProxyThroughout(o, k, claim, w, passes);
  }

  ghost predicate IdleAt(o: Oracle, k: Key, wanted: multiset<Name>, volumes: seq<string>, x: World) {
    Calm(o, x.calls) && Standing(x.c, k) && Wanted(x.c, k) == wanted && Idle(PictureOf(x.c, k), volumes)
  }

  lemma IdlePass(o: Oracle, w: World, k: Key, wanted: multiset<Name>, volumes: seq<string>)
    requires IdleAt(o, k, wanted, volumes, w)
    ensures IdleAt(o, k, wanted, volumes, ProxyPass(o, w, k).0)
  {
    PassAdvances(o, w, k);
    AdvancesFrame(PictureOf(w.c, k), PictureOf(ProxyPass(o, w, k).0.c, k));
    IdleStep(PictureOf(w.c, k), PictureOf(ProxyPass(o, w, k).0.c, k), volumes);
  }

  lemma {:induction false} IdleThroughout(o: Oracle, w: World, k: Key, wanted: multiset<Name>, volumes: seq<string>,
                                          passes: nat)
    requires IdleAt(o, k, wanted, volumes, w)
    ensures IdleAt(o, k, wanted, volumes, ProxyRepeated(o, w, k, passes))
  {
    var claim := (n: nat, x: World) => IdleAt(o, k, wanted, volumes, x);
    forall n: nat, x: World | n > 0 && claim(n, x) ensures claim(n - 1, ProxyPass(o, x, k).0) {
      IdlePass(o, x, k, wanted, volumes);
    }
    ProxyThroughout(o, k, claim, w, passes);
  }

  lemma {:induction false} OwedSettlesSquared(o: Oracle, w: World, k: Key, n: nat)
    requires Calm(o, w.calls) && Standing(w.c, k) && SpecOf(w.c, k).ports != [] && n == Distance(w.c, k) + 1
    requires Owed(PictureOf(w.c, k))
    ensures var x := ProxyRepeated(o, w, k, n).c;
            HasDeployment(x, k) && Annotated(x, k) && MountsMatch(x, k) && Wanted(x, k) == Wanted(w.c, k)
  {
    Converges(o, w, k, n, 0);
    OnTheWayThroughout(o, w, k, Wanted(w.c, k), n);
    assert !Owed(PictureOf(ProxyRepeated(o, w, k, n).c, k));
  }

  lemma {:induction false} IdleSettles(o: Oracle, w: World, k: Key, n: nat)
    requires Calm(o, w.calls) && Standing(w.c, k) && !Owed(PictureOf(w.c, k))
    ensures var x := ProxyRepeated(o, w, k, n).c;
            && HasDeployment(x, k) && (MountsMatch(x, k) <==> MountsMatch(w.c, k))
            && Wanted(x, k) == Wanted(w.c, k)
  {
    IdleThroughout(o, w, k, Wanted(w.c, k), VolumeNames(w.c.objs[DepRef(k)].obj.deployment), n);
  }

  /** From any standing start, once all is settled: the Deployment mounts what the rulesets
      select if and only if there was none yet, or its annotation recorded something else, or
      it happened to mount just that from the start. */
  lemma {:induction false} MountsMatchIffSeen(o: Oracle, w: World, k: Key)
    requires Calm(o, w.calls) && Standing(w.c, k) && SpecOf(w.c, k).ports != []
    ensures var x := ProxyRepeated(o, w, k, Distance(w.c, k) + 1).c;
            && HasDeployment(x, k) && Wanted(x, k) == Wanted(w.c, k)
            && (MountsMatch(x, k) <==> Owed(PictureOf(w.c, k)) || MountsMatch(w.c, k))
            && (Owed(PictureOf(w.c, k)) ==> Annotated(x, k))
  {
    var n := Distance(w.c, k) + 1;
    if Owed(PictureOf(w.c, k)) { OwedSettlesSquared(o, w, k, n); } else { IdleSettles(o, w, k, n); }
  }

  /** On an operator-written Deployment in good order, the annotation records what is mounted. */
  lemma AnnotatedIsOwedOrMatches(c: Cluster, k: Key)
    requires Good(c) && HasDeployment(c, k) && Annotated(c, k) && ByOperator(c.objs[DepRef(k)].obj.deployment)
    ensures Stale(c.objs[DepRef(k)].obj.deployment, Wanted(c, k)) || MountsMatch(c, k)
  {
    var d := c.objs[DepRef(k)].obj.deployment;
    if !Stale(d, Wanted(c, k)) { RecordsNamed(d.annotations[CONF], Wanted(c, k)); }
  }

  /** So for a new proxy, or one whose Deployment the operator wrote: the settled mounts are the
      selected ones if and only if there was no Deployment yet, or it was annotated, or it
      happened to mount just that from the start. */
  lemma {:induction false} MountsMatchIffAnnotated(o: Oracle, w: World, k: Key)
    requires Calm(o, w.calls) && Good(w.c) && Standing(w.c, k) && SpecOf(w.c, k).ports != []
    requires DepRef(k) in w.c.objs ==> ByOperator(w.c.objs[DepRef(k)].obj.deployment)
    ensures var x := ProxyRepeated(o, w, k, Distance(w.c, k) + 1).c;
            && HasDeployment(x, k) && Wanted(x, k) == Wanted(w.c, k)
            && (MountsMatch(x, k) <==> DepRef(k) !in w.c.objs || Annotated(w.c, k) || MountsMatch(w.c, k))
            && (DepRef(k) !in w.c.objs ==> Annotated(x, k))
  {
    MountsMatchIffSeen(o, w, k);
    if DepRef(k) in w.c.objs && Annotated(w.c, k) { AnnotatedIsOwedOrMatches(w.c, k); }
  }
}
