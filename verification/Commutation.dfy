/** A rollout by the rules controller and a pass of the proxy controller, in either order. */
module Commutation {
  import opened Text
  import opened Objects
  import opened Api
  import opened Workloads
  import opened ProxyPasses
  import opened RulesPasses
  import opened Guarantees
  import opened Calmness
  import opened Convergence
  import Rollouts
  import RulesSafety
  import LastSum

  // ---- alike ------------------------------------------------------------

  /** The marks of a pod template without the times. */
  function Timeless(marks: map<string, Mark>): map<string, Mark> {
    map a | a in marks :: if marks[a].Time? then Time(0) else marks[a]
  }

  const RESTARTED: map<string, Mark> := map[RELOADED_AT := Time(0)]

  /** Equal but for the marks, the version at which the pods were replaced, and the order
      of the mounts. */
  predicate SameButMarks(d: Deployment, e: Deployment) {
    && e == d.(rolledAt := e.rolledAt,
               template := d.template.(marks := e.template.marks, volumes := e.template.volumes,
                                       mounts := e.template.mounts))
    && multiset(d.template.volumes) == multiset(e.template.volumes)
    && multiset(d.template.mounts) == multiset(e.template.mounts)
  }

  /** And the marks differ in nothing but the times. */
  predicate Alike(d: Deployment, e: Deployment) {
    SameButMarks(d, e) && Timeless(d.template.marks) == Timeless(e.template.marks)
  }

  predicate AlikeObjects(a: Option<Object>, b: Option<Object>) {
    if a.Some? && a.value.DeploymentObject? then
      b.Some? && b.value.DeploymentObject? && Alike(a.value.deployment, b.value.deployment)
    else a == b
  }

  ghost predicate AlikeAt(a: Cluster, b: Cluster, r: Ref) { AlikeObjects(Stored(a, r), Stored(b, r)) }

  ghost predicate AlikeClusters(c: Cluster, d: Cluster) {
    forall r :: AlikeAt(c, d, r)
  }

  lemma {:induction false} VolumeCount(names: seq<Name>, v: Volume)
    ensures multiset(VolumesOf(names))[v] == if v.name == v.configMap then multiset(names)[v.name] else 0
  {
    if names != [] {
      VolumeCount(names[1..], v);
      assert names == [names[0]] + names[1..];
      assert VolumesOf(names) == [Volume(names[0], names[0])] + VolumesOf(names[1..]);
    }
  }

  lemma {:induction false} MountCount(names: seq<Name>, m: Mount)
    ensures multiset(MountsOf(names))[m] == if m.path == "/conf/" + m.name then multiset(names)[m.name] else 0
  {
    if names != [] {
      MountCount(names[1..], m);
      assert names == [names[0]] + names[1..];
      assert MountsOf(names) == [Mount(names[0], "/conf/" + names[0])] + MountsOf(names[1..]);
    }
  }

  /** In whatever order the ConfigMaps were listed, the mounts are the same but for order. */
  lemma SameMounts(a: seq<Name>, b: seq<Name>)
    requires multiset(a) == multiset(b)
    ensures multiset(VolumesOf(a)) == multiset(VolumesOf(b)) && multiset(MountsOf(a)) == multiset(MountsOf(b))
    ensures Digest(a) == Digest(b)
  {
    DigestInjective(a, b);
    forall v ensures multiset(VolumesOf(a))[v] == multiset(VolumesOf(b))[v] { VolumeCount(a, v); VolumeCount(b, v); }
    forall m ensures multiset(MountsOf(a))[m] == multiset(MountsOf(b))[m] { MountCount(a, m); MountCount(b, m); }
  }

  // ---- a rollout, in the picture ----------------------------------------

  /** Restarted at some time. */
  ghost predicate Again(b: Deployment, d: Deployment) {
    exists t: nat :: d == Stamped(b, t).(rolledAt := d.rolledAt)
  }

  ghost predicate RollsAt(c: Cluster, x: Cluster, ns: string, name: Name, r: Ref) {
    if Rollouts.Occurrences(c, r, ns, name) == 0 then CopyOf(x, r) == CopyOf(c, r)
    else r in x.objs && x.objs[r].obj.DeploymentObject? && Again(c.objs[r].obj.deployment, x.objs[r].obj.deployment)
  }

  lemma RolloutRolls(o: Oracle, w: World, ns: string, name: Name)
    requires Calm(o, w.calls) && Clock(o) && InOrder(o, w)
    ensures forall r :: RollsAt(w.c, Rollout(o, w, ns, name).0.c, ns, name, r)
  {
    var x := Rollout(o, w, ns, name).0;
    Rollouts.RolloutExact(o, w, ns, name);
    forall r ensures RollsAt(w.c, x.c, ns, name, r) {
      var times := Rollouts.Occurrences(w.c, r, ns, name);
      if times == 0 {
        assert Rollouts.Spares(w, x, r);
      } else {
        assert Rollouts.RolledOut(o, w, x, r, times);
        var b, d := w.c.objs[r].obj.deployment, x.c.objs[r].obj.deployment;
        var t: nat :| t >= o.now(w.calls) && d == Stamped(b, t).(rolledAt := d.rolledAt);
      }
    }
  }

  /** The Deployment of the picture is one that the rollout for `name` restarts. */
  ghost predicate Concerned(p: Picture, ns: string, name: Name) {
    && p.dep.Some? && p.key.ns == ns && Managed(p.dep.value)
    && Rollouts.Count(PartsOf(p.dep.value), name) > 0
  }

  ghost predicate PictureRolls(p: Picture, q: Picture, ns: string, name: Name) {
    if Concerned(p, ns, name) then q == p.(dep := q.dep) && q.dep.Some? && Again(p.dep.value, q.dep.value) else q == p
  }

  lemma RollsPicture(c: Cluster, x: Cluster, k: Key, ns: string, name: Name)
    requires Standing(c, k) && forall r :: RollsAt(c, x, ns, name, r)
    ensures Standing(x, k) && PictureRolls(PictureOf(c, k), PictureOf(x, k), ns, name)
  {
    forall r: Ref | r.kind != DeploymentKind ensures CopyOf(x, r) == CopyOf(c, r) { assert RollsAt(c, x, ns, name, r); }
    assert CopyOf(x, ProxyRef(k)) == CopyOf(c, ProxyRef(k)) && CopyOf(x, SvcRef(k)) == CopyOf(c, SvcRef(k));
    forall r: Ref | r.kind == ConfigMapKind ensures Stored(c, r) == Stored(x, r) {
      assert CopyOf(x, r) == CopyOf(c, r);
    }
    SelectedFrame(c, x, k.ns, SpecOf(c, k).rulesets);
    assert RollsAt(c, x, ns, name, DepRef(k));
  }

  // ---- the two orders, in the picture -----------------------------------

  ghost predicate AlikePictures(a: Picture, b: Picture) {
    && b == a.(dep := b.dep)
    && (a.dep.Some? <==> b.dep.Some?) && (a.dep.Some? ==> Alike(a.dep.value, b.dep.value))
  }

  /** The Deployment existed and was already marked by an earlier rollout. */
  ghost predicate OnceRestarted(p: Picture) {
    p.dep.Some? && Timeless(p.dep.value.template.marks) == RESTARTED
  }

  /** From `p` by the pass to `q`, then by the rollout to `a`; or by the rollout to `r`, then by the pass to `b`. */
  ghost predicate Diamond(p: Picture, q: Picture, a: Picture, r: Picture, b: Picture, ns: string, name: Name) {
    Advances(p, q) && PictureRolls(q, a, ns, name) && PictureRolls(p, r, ns, name) && Advances(r, b)
  }

  ghost predicate CommutesTo(p: Picture, q: Picture, ns: string, name: Name) {
    (Concerned(p, ns, name) <==> Concerned(q, ns, name)) || OnceRestarted(p)
  }

  lemma MarkedTimeless(b: Deployment, d: Deployment)
    requires Again(b, d)
    ensures Timeless(d.template.marks) == RESTARTED && SameButMarks(b, d)
  {
    var t: nat :| d == Stamped(b, t).(rolledAt := d.rolledAt);
    assert d.template.marks == map[RELOADED_AT := Time(t)];
  }

  /** The pass makes `d` of `b` and `e` of `r`, keeping the marks; the rollout makes `a` of
      `d` and `r` of `b`, if they are concerned. */
  lemma DeploymentsCommute(b: Deployment, d: Deployment, a: Deployment, r: Deployment, e: Deployment, early: bool,
                           late: bool)
    requires d.template.marks == b.template.marks && e.template.marks == r.template.marks && SameButMarks(d, e)
    requires if late then Again(d, a) else a == d
    requires if early then Again(b, r) else r == b
    ensures Alike(a, e) <==> early == late || Timeless(b.template.marks) == RESTARTED
  {
    if late { MarkedTimeless(d, a); }
    if early { MarkedTimeless(b, r); }
  }

  lemma CreatedCommute(d: Deployment, a: Deployment, e: Deployment, late: bool)
    requires d.template.marks == e.template.marks == map[] && SameButMarks(d, e)
    requires if late then Again(d, a) else a == d
    ensures Alike(a, e) <==> !late
  {
    if late {
      MarkedTimeless(d, a);
      assert RELOADED_AT in RESTARTED && RELOADED_AT !in Timeless(e.template.marks);
    }
  }

  lemma CreateDiamond(p: Picture, q: Picture, a: Picture, r: Picture, b: Picture, ns: string, name: Name)
    requires Diamond(p, q, a, r, b, ns, name) && Live(p.cr) && p.dep.None?
    ensures AlikePictures(a, b) <==> CommutesTo(p, q, ns, name)
  {
    var names: seq<Name>, n: nat :| multiset(names) == p.wanted
      && q == p.(dep := Some(Placed(None, DeploymentFor(p.key, p.cr, p.spec, names), n)));
    var again: seq<Name>, m: nat :| multiset(again) == p.wanted
      && b == p.(dep := Some(Placed(None, DeploymentFor(p.key, p.cr, p.spec, again), m)));
    SameMounts(names, again);
    CreatedCommute(q.dep.value, a.dep.value, b.dep.value, Concerned(q, ns, name));
  }

  /** The two re-mounted Deployments, of `b` and of its restarted form `r`. */
  lemma RemountsMatch(b: Deployment, d: Deployment, r: Deployment, e: Deployment, names: seq<Name>, again: seq<Name>,
                      n: nat, m: nat)
    requires multiset(names) == multiset(again) && (r == b || Again(b, r))
    requires d == Placed(Some(b), Remounted(b, names, true), n) && e == Placed(Some(r), Remounted(r, again, true), m)
    ensures SameButMarks(d, e) && d.template.marks == b.template.marks && e.template.marks == r.template.marks
  {
    SameMounts(names, again);
  }

  /** The same, in pictures whose Deployments these are. */
  lemma RemountedCommute(p: Picture, q: Picture, a: Picture, r: Picture, b: Picture, early: bool, late: bool)
    requires p.dep.Some? && q.dep.Some? && a.dep.Some? && r.dep.Some? && b.dep.Some?
    requires a == p.(dep := a.dep) && b == p.(dep := b.dep)
    requires q.dep.value.template.marks == p.dep.value.template.marks
             && b.dep.value.template.marks == r.dep.value.template.marks
    requires SameButMarks(q.dep.value, b.dep.value)
    requires if late then Again(q.dep.value, a.dep.value) else a.dep == q.dep
    requires if early then Again(p.dep.value, r.dep.value) else r.dep == p.dep
    ensures AlikePictures(a, b) <==> (early <==> late) || OnceRestarted(p)
  {
    DeploymentsCommute(p.dep.value, q.dep.value, a.dep.value, r.dep.value, b.dep.value, early, late);
  }

  lemma RemountDiamond(p: Picture, q: Picture, a: Picture, r: Picture, b: Picture, ns: string, name: Name)
    requires Diamond(p, q, a, r, b, ns, name) && Live(p.cr) && p.dep.Some?
    requires p.dep.value.replicas == p.spec.size && Stale(p.dep.value, p.wanted)
    ensures AlikePictures(a, b) <==> CommutesTo(p, q, ns, name)
  {
    var names: seq<Name>, n: nat :| multiset(names) == p.wanted
      && q == p.(dep := Some(Placed(p.dep, Remounted(p.dep.value, names, true), n)));
    var again: seq<Name>, m: nat :| multiset(again) == p.wanted
      && b == r.(dep := Some(Placed(r.dep, Remounted(r.dep.value, again, true), m)));
    RemountsMatch(p.dep.value, q.dep.value, r.dep.value, b.dep.value, names, again, n, m);
    RemountedCommute(p, q, a, r, b, Concerned(p, ns, name), Concerned(q, ns, name));
  }

  /** A change of size or ports, the same for `b` and its restarted form `r`. */
  ghost predicate Adjusts(b: Deployment, d: Deployment, r: Deployment, e: Deployment) {
    || (d == b && e == r)
    || (d == b.(replicas := d.replicas) && e == r.(replicas := d.replicas))
    || (d == b.(rolledAt := d.rolledAt, template := b.template.(ports := d.template.ports))
        && e == r.(rolledAt := e.rolledAt, template := r.template.(ports := d.template.ports)))
  }

  lemma AdjustedCommute(b: Deployment, d: Deployment, a: Deployment, r: Deployment, e: Deployment, concerned: bool)
    requires Adjusts(b, d, r, e)
    requires if concerned then Again(d, a) && Again(b, r) else a == d && r == b
    ensures Alike(a, e)
  {
    if concerned { MarkedTimeless(b, r); }
    DeploymentsCommute(b, d, a, r, e, concerned, concerned);
  }

  lemma OtherAdjusts(p: Picture, q: Picture, r: Picture, b: Picture)
    requires Advances(p, q) && Advances(r, b) && !p.cr.deleting
    requires Live(p.cr) ==> p.dep.Some? && (p.dep.value.replicas == p.spec.size ==> !Stale(p.dep.value, p.wanted))
    requires r == p || (p.dep.Some? && r.dep.Some? && r == p.(dep := r.dep) && Again(p.dep.value, r.dep.value))
    ensures b == q.(dep := b.dep) && (p.dep.Some? <==> q.dep.Some?) && (r.dep.Some? <==> b.dep.Some?)
    ensures p.dep.Some? ==> Adjusts(p.dep.value, q.dep.value, r.dep.value, b.dep.value)
  {
  }

  /** Nothing that a rollout looks at is changed by the other stages. */
  lemma OtherDiamond(p: Picture, q: Picture, a: Picture, r: Picture, b: Picture, ns: string, name: Name)
    requires Diamond(p, q, a, r, b, ns, name) && !p.cr.deleting
    requires Live(p.cr) ==> p.dep.Some? && (p.dep.value.replicas == p.spec.size ==> !Stale(p.dep.value, p.wanted))
    ensures AlikePictures(a, b) && CommutesTo(p, q, ns, name)
  {
    OtherAdjusts(p, q, r, b);
    if p.dep.Some? {
      AdjustedCommute(p.dep.value, q.dep.value, a.dep.value, r.dep.value, b.dep.value, Concerned(p, ns, name));
    }
  }

  lemma PicturesCommute(p: Picture, q: Picture, a: Picture, r: Picture, b: Picture, ns: string, name: Name)
    requires Diamond(p, q, a, r, b, ns, name) && !p.cr.deleting
    ensures AlikePictures(a, b) <==> CommutesTo(p, q, ns, name)
  {
    if Live(p.cr) && p.dep.None? {
      CreateDiamond(p, q, a, r, b, ns, name);
    } else if Live(p.cr) && p.dep.value.replicas == p.spec.size && Stale(p.dep.value, p.wanted) {
      RemountDiamond(p, q, a, r, b, ns, name);
    } else {
      OtherDiamond(p, q, a, r, b, ns, name);
    }
  }

  /** Foretold from the state before the pass: a Deployment that it creates or re-mounts will
      be one that the rollout restarts if the rulesets select the ConfigMap, and the label is,
      or has been, left to the operator; in every other stage it is so if it was. */
  ghost predicate WillConcern(p: Picture, ns: string, name: Name) {
    if Live(p.cr) && p.dep.None? then
      && p.key.ns == ns && name in p.wanted
      && (MANAGED_BY in p.cr.labels ==> p.cr.labels[MANAGED_BY] == PROXY_CONTROLLER)
    else if Live(p.cr) && p.dep.value.replicas == p.spec.size && Stale(p.dep.value, p.wanted) then
      p.key.ns == ns && name in p.wanted && Managed(p.dep.value)
    else Concerned(p, ns, name)
  }

  ghost predicate Commutes(p: Picture, ns: string, name: Name) {
    (Concerned(p, ns, name) <==> WillConcern(p, ns, name)) || OnceRestarted(p)
  }

  lemma CreatedConcerned(p: Picture, q: Picture, ns: string, name: Name)
    requires Advances(p, q) && Live(p.cr) && p.dep.None?
    ensures Concerned(q, ns, name) <==> WillConcern(p, ns, name)
  {
    var names: seq<Name>, n: nat :| multiset(names) == p.wanted
      && q == p.(dep := Some(Placed(None, DeploymentFor(p.key, p.cr, p.spec, names), n)));
    Rollouts.DigestElements(names, name);
    assert Managed(q.dep.value) <==> (MANAGED_BY in p.cr.labels ==> p.cr.labels[MANAGED_BY] == PROXY_CONTROLLER);
  }

  lemma RemountedConcerned(p: Picture, q: Picture, ns: string, name: Name)
    requires Advances(p, q) && Live(p.cr) && p.dep.Some?
    requires p.dep.value.replicas == p.spec.size && Stale(p.dep.value, p.wanted)
    ensures Concerned(q, ns, name) <==> WillConcern(p, ns, name)
  {
    var names: seq<Name>, n: nat :| multiset(names) == p.wanted
      && q == p.(dep := Some(Placed(p.dep, Remounted(p.dep.value, names, true), n)));
    Rollouts.DigestElements(names, name);
  }

  lemma ConcernedAfter(p: Picture, q: Picture, ns: string, name: Name)
    requires Advances(p, q) && !p.cr.deleting
    ensures Concerned(q, ns, name) <==> WillConcern(p, ns, name)
  {
    if Live(p.cr) && p.dep.None? {
      CreatedConcerned(p, q, ns, name);
    } else if Live(p.cr) && p.dep.value.replicas == p.spec.size && Stale(p.dep.value, p.wanted) {
      RemountedConcerned(p, q, ns, name);
    }
  }

  // ---- the two orders, in the cluster -----------------------------------

  lemma RolloutStaysInOrder(o: Oracle, w: World, k: Key, ns: string, name: Name)
    requires Calm(o, 0) && Clock(o) && InOrder(o, w) && Standing(w.c, k)
    ensures var x := Rollout(o, w, ns, name).0;
            && InOrder(o, x) && Standing(x.c, k) && PictureRolls(PictureOf(w.c, k), PictureOf(x.c, k), ns, name)
            && forall r :: RollsAt(w.c, x.c, ns, name, r)
  {
    CalmIsLawful(o);
    CalmLater(o, 0, w.calls);
    RulesSafety.RolloutActs(o, w, Key(ns, name), w.c.objs[ProxyRef(k)].obj);
    RolloutRolls(o, w, ns, name);
    RollsPicture(w.c, Rollout(o, w, ns, name).0.c, k, ns, name);
  }

  /** An object that the pass does not write: both orders restart it, or neither does. */
  lemma ElsewhereAlike(c: Cluster, x: Cluster, a: Cluster, r: Cluster, b: Cluster, q: Ref, ns: string, name: Name)
    requires RollsAt(x, a, ns, name, q) && RollsAt(c, r, ns, name, q)
    requires CopyOf(x, q) == CopyOf(c, q) && CopyOf(b, q) == CopyOf(r, q)
    ensures AlikeObjects(Stored(a, q), Stored(b, q))
  {
    if Rollouts.Occurrences(c, q, ns, name) > 0 {
      MarkedTimeless(c.objs[q].obj.deployment, a.objs[q].obj.deployment);
      MarkedTimeless(c.objs[q].obj.deployment, r.objs[q].obj.deployment);
    }
  }

  lemma AlikeParts(a: Cluster, b: Cluster, k: Key)
    requires Standing(a, k) && Standing(b, k) && Wanted(b, k) == Wanted(a, k)
    ensures AlikeAt(a, b, ProxyRef(k)) && AlikeAt(a, b, DepRef(k)) && AlikeAt(a, b, SvcRef(k))
            <==> AlikePictures(PictureOf(a, k), PictureOf(b, k))
  {
    assert AlikeAt(a, b, ProxyRef(k)) <==> a.objs[ProxyRef(k)].obj == b.objs[ProxyRef(k)].obj;
  }

  lemma AlikeByPicture(a: Cluster, b: Cluster, k: Key)
    requires Standing(a, k) && Standing(b, k) && Wanted(b, k) == Wanted(a, k)
    requires forall q | q !in {ProxyRef(k), DepRef(k), SvcRef(k)} :: AlikeAt(a, b, q)
    ensures AlikeClusters(a, b) <==> AlikePictures(PictureOf(a, k), PictureOf(b, k))
  {
    AlikeParts(a, b, k);
  }

  /** Without faults, a rollout for any ConfigMap and a pass for any standing proxy lead to
      the same cluster in either order, up to versions, times and the order of mounts, if and
      only if the pass is not about to change whether the rollout restarts the Deployment of
      that proxy, or an earlier rollout already had. */
  lemma RolloutCommutes(o: Oracle, w: World, k: Key, ns: string, name: Name)
    requires Calm(o, 0) && Clock(o) && InOrder(o, w) && Standing(w.c, k)
    ensures Standing(ProxyPass(o, w, k).0.c, k)
    ensures var x, r := ProxyPass(o, w, k).0, Rollout(o, w, ns, name).0;
            AlikeClusters(Rollout(o, x, ns, name).0.c, ProxyPass(o, r, k).0.c)
            <==> Commutes(PictureOf(w.c, k), ns, name)
  {
    var x, r := ProxyPass(o, w, k).0, Rollout(o, w, ns, name).0;
    PassStaysInOrder(o, w, k);
    RolloutStaysInOrder(o, w, k, ns, name);
    var a, b := Rollout(o, x, ns, name).0, ProxyPass(o, r, k).0;
    RolloutStaysInOrder(o, x, k, ns, name);
    PassStaysInOrder(o, r, k);
    AdvancesFrame(PictureOf(w.c, k), PictureOf(x.c, k));
    AdvancesFrame(PictureOf(r.c, k), PictureOf(b.c, k));
    PicturesCommute(PictureOf(w.c, k), PictureOf(x.c, k), PictureOf(a.c, k), PictureOf(r.c, k), PictureOf(b.c, k),
      ns, name);
    ConcernedAfter(PictureOf(w.c, k), PictureOf(x.c, k), ns, name);
    CalmIsLawful(o);
    forall q | q !in {ProxyRef(k), DepRef(k), SvcRef(k)} ensures AlikeAt(a.c, b.c, q) {
      LastSum.ProxyPassFrame(o, w, k, q);
      LastSum.ProxyPassFrame(o, r, k, q);
      ElsewhereAlike(w.c, x.c, a.c, r.c, b.c, q, ns, name);
    }
    AlikeByPicture(a.c, b.c, k);
  }
}
