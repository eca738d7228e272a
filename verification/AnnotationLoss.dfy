/** How a Deployment loses its annotation: a failed List in the middle of a re-mount. */
module AnnotationLoss {
  import opened Text
  import opened Objects
  import opened Api
  import opened Workloads
  import opened ProxyPasses
  import opened Guarantees
  import opened Calmness
  import opened Convergence

  // ---- one walk over the rulesets ---------------------------------------

  /** The `m` calls from call `from` on are answered. */
  predicate Answered(o: Oracle, from: nat, m: nat)
    decreases m
  {
    m == 0 || (o.fate(from).Fine? && Answered(o, from + 1, m - 1))
  }

  /** How many List calls a walk over `m` entries makes: it ends with the first that fails. */
  function Walked(o: Oracle, from: nat, m: nat): (n: nat)
    ensures n <= m
    decreases m
  {
    if m == 0 then 0 else if !o.fate(from).Fine? then 1 else 1 + Walked(o, from + 1, m - 1)
  }

  lemma {:induction false} WalkedAll(o: Oracle, from: nat, m: nat)
    requires Answered(o, from, m)
    ensures Walked(o, from, m) == m
    decreases m
  {
    if m > 0 { WalkedAll(o, from + 1, m - 1); }
  }

  lemma {:induction false} QuietCollect(o: Oracle, w: World, ns: string, rulesets: seq<Labels>, acc: seq<Name>)
    requires Quiet(o)
    ensures var (x, names, complete) := Collect(o, w, ns, rulesets, acc);
            && x.c == w.c && x.calls == w.calls + Walked(o, w.calls, |rulesets|)
            && (complete <==> Answered(o, w.calls, |rulesets|))
            && (rulesets != [] && !o.fate(w.calls).Fine? ==> names == acc)
    decreases |rulesets|
  {
    if rulesets != [] {
      assert o.interfere(w.calls, w.c) == w.c;
      var (x, got) := ListConfigMaps(o, w, ns, rulesets[0]);
      if got.Ok? { QuietCollect(o, x, ns, rulesets[1..], acc + got.value); }
    }
  }

  /** A walk that is complete has collected the selection. */
  lemma {:induction false} QuietSelects(o: Oracle, w: World, ns: string, rulesets: seq<Labels>, acc: seq<Name>)
    requires Quiet(o)
    ensures var (_, names, complete) := Collect(o, w, ns, rulesets, acc);
            complete ==> multiset(names) == multiset(acc) + Selected(w.c, ns, rulesets)
    decreases |rulesets|
  {
    if rulesets != [] {
      assert o.interfere(w.calls, w.c) == w.c;
      var (x, got) := ListConfigMaps(o, w, ns, rulesets[0]);
      if got.Ok? {
        assert multiset(got.value) == multiset(Matching(w.c, ns, rulesets[0]));
        QuietSelects(o, x, ns, rulesets[1..], acc + got.value);
      }
    }
  }

  // ---- what the other calls do to the annotation ------------------------

  ghost predicate Noted(c: Cluster, k: Key) {
    DepRef(k) in c.objs && CONF in c.objs[DepRef(k)].obj.deployment.annotations
  }

  ghost predicate SameCopy(w: World, x: World, k: Key) { CopyOf(x.c, DepRef(k)) == CopyOf(w.c, DepRef(k)) }

  lemma UpdateElsewhere(o: Oracle, w: World, r: Ref, part: Part, sent: Versioned, k: Key)
    requires Quiet(o) && sent.obj.Kind() == r.kind && r != DepRef(k)
    ensures SameCopy(w, Update(o, w, r, part, sent).0, k)
  {
    assert o.interfere(w.calls, w.c) == w.c;
  }

  /** The report of a failed update. */
  lemma ReportElsewhere(o: Oracle, w: World, k: Key, r: Ref, sent: Versioned)
    requires Quiet(o) && sent.obj.Kind() == r.kind
    ensures SameCopy(Update(o, w, r, Main, sent).0, UpdateWorkload(o, w, k, r, sent).0, k)
  {
    var (x, told) := Update(o, w, r, Main, sent);
    if told.Err? {
      assert o.interfere(x.calls, x.c) == x.c;
      var (y, again) := Get(o, x, ProxyRef(k));
      if again.Ok? {
        UpdateElsewhere(o, y, ProxyRef(k), Status,
          Reporting(again.value, AVAILABLE, False, "Reconciling", CannotUpdate(r.kind, told.error)), k);
      }
    }
  }

  /** An update of the Deployment that keeps the annotation. */
  lemma AnnotatedUpdate(o: Oracle, w: World, k: Key, sent: Versioned)
    requires Quiet(o) && Noted(w.c, k) && sent.obj.DeploymentObject? && CONF in sent.obj.deployment.annotations
    ensures Noted(UpdateWorkload(o, w, k, DepRef(k), sent).0.c, k)
  {
    assert o.interfere(w.calls, w.c) == w.c;
    ReportElsewhere(o, w, k, DepRef(k), sent);
    assert Noted(Update(o, w, DepRef(k), Main, sent).0.c, k);
  }

  /** And one that drops it: it takes effect unless it is refused. */
  lemma UnannotatedUpdate(o: Oracle, w: World, k: Key, sent: Versioned)
    requires Quiet(o) && Noted(w.c, k) && sent.rv == w.c.objs[DepRef(k)].rv
    requires sent.obj.DeploymentObject? && CONF !in sent.obj.deployment.annotations
    ensures var x := UpdateWorkload(o, w, k, DepRef(k), sent).0.c;
            && DepRef(k) in x.objs && (Noted(x, k) <==> o.fate(w.calls).Rejected?)
            && (!Noted(x, k) ==>
                  x.objs[DepRef(k)].obj.deployment.template.volumes == sent.obj.deployment.template.volumes)
  {
    assert o.interfere(w.calls, w.c) == w.c;
    ReportElsewhere(o, w, k, DepRef(k), sent);
    var y := Update(o, w, DepRef(k), Main, sent).0;
    assert Noted(y.c, k) <==> o.fate(w.calls).Rejected?;
  }

  lemma ReportFailureElsewhere(o: Oracle, w: World, k: Key, v: Versioned, kind: Kind, why: ApiError)
    requires Quiet(o) && v.obj.ProxyObject?
    ensures SameCopy(w, ReportFailure(o, w, k, v, kind, why).0, k)
  {
    UpdateElsewhere(o, w, ProxyRef(k), Status,
      Reporting(v, AVAILABLE, False, "Reconciling", CannotCreate(kind, why)), k);
  }

  lemma CreateServiceElsewhere(o: Oracle, w: World, k: Key, v: Versioned)
    requires Quiet(o) && v.obj.ProxyObject?
    ensures SameCopy(w, CreateService(o, w, k, v).0, k)
  {
    assert o.interfere(w.calls, w.c) == w.c;
    var (x, owned) := Local(o, w);
    if !owned { ReportFailureElsewhere(o, x, k, v, ServiceKind, OwnerReference); }
    else { assert o.interfere(x.calls, x.c) == x.c; }
  }

  lemma AlignPortsNoted(o: Oracle, w: World, k: Key, v: Versioned, found: Versioned, sfound: Versioned, dep: bool,
                        svc: bool)
    requires Quiet(o) && Noted(w.c, k) && v.obj.ProxyObject? && sfound.obj.ServiceObject?
    requires found.obj.DeploymentObject? && CONF in found.obj.deployment.annotations
    ensures Noted(AlignPorts(o, w, k, v, found, sfound, dep, svc).0.c, k)
  {
    var x := w;
    if dep {
      var sent := Sending(found, Ported(found.obj.deployment, v.obj.spec.ports));
      AnnotatedUpdate(o, w, k, sent);
      x := UpdateWorkload(o, w, k, DepRef(k), sent).0;
    }
    var sent := sfound.(obj := ServiceObject(sfound.obj.service.(ports := ServicePorts(v.obj.spec.ports))));
    UpdateElsewhere(o, x, SvcRef(k), Main, sent, k);
    ReportElsewhere(o, x, k, SvcRef(k), sent);
  }

  lemma ExposedNoted(o: Oracle, w: World, k: Key, v: Versioned, found: Versioned)
    requires Quiet(o) && Noted(w.c, k) && v.obj.ProxyObject?
    requires found.obj.DeploymentObject? && CONF in found.obj.deployment.annotations
    ensures Noted(Exposed(o, w, k, v, found).0.c, k)
  {
    assert o.interfere(w.calls, w.c) == w.c;
    var (x, got) := Get(o, w, SvcRef(k));
    if got.Err? {
      CreateServiceElsewhere(o, x, k, v);
    } else {
      AlignPortsNoted(o, x, k, v, found, got.value,
        DeepDiffers(ContainerPorts(v.obj.spec.ports), found.obj.deployment.template.ports),
        DeepDiffers(ServicePorts(v.obj.spec.ports), got.value.obj.service.ports));
      UpdateElsewhere(o, x, ProxyRef(k), Status,
        Reporting(v, AVAILABLE, True, "Reconciling", Ready(v.obj.spec.size)), k);
    }
  }

  // ---- the pass ---------------------------------------------------------

  /** The walk that re-mounts, from call `n` on, is cut short and the update carried out. */
  ghost predicate CutShort(o: Oracle, n: nat, m: nat) {
    !Answered(o, n, m) && !o.fate(n + Walked(o, n, m)).Rejected?
  }

  /** From call `n`, on a Deployment of the right size: the walk that looks for a change is
      complete and finds one, the walk that re-mounts is not complete, and the update that
      follows is not refused. */
  ghost predicate Unmounts(o: Oracle, c: Cluster, k: Key, n: nat)
    requires Standing(c, k) && DepRef(k) in c.objs
  {
    var m := |SpecOf(c, k).rulesets|;
    && Answered(o, n, m) && Stale(c.objs[DepRef(k)].obj.deployment, Wanted(c, k)) && CutShort(o, n + m, m)
  }

  ghost function RemountSent(found: Versioned, names: seq<Name>, complete: bool): (sent: Versioned)
    requires found.obj.DeploymentObject?
    ensures sent.obj.DeploymentObject? && sent.rv == found.rv
    ensures CONF in sent.obj.deployment.annotations <==> complete
    ensures sent.obj.deployment.template.volumes == VolumesOf(names)
  {
    Sending(found, Remounted(found.obj.deployment, names, complete))
  }

  /** The update that ends a re-mount. */
  lemma RemountUpdate(o: Oracle, w: World, k: Key, sent: Versioned)
    requires Quiet(o) && Noted(w.c, k) && sent.obj.DeploymentObject? && sent.rv == w.c.objs[DepRef(k)].rv
    ensures var x := UpdateOnly(o, w, k, DepRef(k), sent).0.c;
            var cut := CONF !in sent.obj.deployment.annotations && !o.fate(w.calls).Rejected?;
            && (Noted(x, k) <==> !cut)
            && (cut && sent.obj.deployment.template.volumes == [] ==> Bare(x, k))
  {
    if CONF in sent.obj.deployment.annotations {
      AnnotatedUpdate(o, w, k, sent);
    } else {
      UnannotatedUpdate(o, w, k, sent);
    }
  }

  /** What a walk over `m` entries from call `n` on comes to, with what an update after it does. */
  lemma {:induction false} CutShortLoses(o: Oracle, n: nat, m: nat, z: nat, names: seq<Name>, complete: bool,
                                         x: Cluster, k: Key)
    requires z == n + Walked(o, n, m) && (complete <==> Answered(o, n, m))
    requires m > 0 && !o.fate(n).Fine? ==> names == []
    requires var cut := !complete && !o.fate(z).Rejected?;
             (Noted(x, k) <==> !cut) && (cut && VolumesOf(names) == [] ==> Bare(x, k))
    ensures Noted(x, k) <==> !CutShort(o, n, m)
    ensures CutShort(o, n, m) && !o.fate(n).Fine? ==> Bare(x, k)
  {
    if names == [] { assert VolumesOf(names) == []; }
  }

  /** The re-mount, from the first call of its walk on. */
  lemma {:induction false} RemountNoted(o: Oracle, w: World, k: Key, found: Versioned, rulesets: seq<Labels>)
    requires Quiet(o) && Noted(w.c, k) && found == w.c.objs[DepRef(k)]
    ensures var m, (z, names, complete) := |rulesets|, Collect(o, w, k.ns, rulesets, []);
            var x := UpdateOnly(o, z, k, DepRef(k), RemountSent(found, names, complete)).0.c;
            && (Noted(x, k) <==> !CutShort(o, w.calls, m))
            && (CutShort(o, w.calls, m) && !o.fate(w.calls).Fine? ==> Bare(x, k))
  {
    var (z, names, complete) := Collect(o, w, k.ns, rulesets, []);
    var x := UpdateOnly(o, z, k, DepRef(k), RemountSent(found, names, complete)).0.c;
    QuietCollect(o, w, k.ns, rulesets, []);
    RemountUpdate(o, z, k, RemountSent(found, names, complete));
    CutShortLoses(o, w.calls, |rulesets|, z.calls, names, complete, x, k);
  }

  ghost predicate Bare(c: Cluster, k: Key) {
    DepRef(k) in c.objs && c.objs[DepRef(k)].obj.deployment.template.volumes == []
  }

  /** The check, by the fate of its calls. */
  lemma {:induction false} SeesChange(o: Oracle, w: World, k: Key)
    requires Quiet(o) && Standing(w.c, k) && Noted(w.c, k)
    ensures var d, m := w.c.objs[DepRef(k)].obj.deployment, |SpecOf(w.c, k).rulesets|;
            var (y, seen, answered) := Collect(o, w, k.ns, SpecOf(w.c, k).rulesets, []);
            && y.c == w.c
            && (SeenChanged(d, seen, answered) <==> Answered(o, w.calls, m) && Stale(d, Wanted(w.c, k)))
            && (answered ==> y.calls == w.calls + m)
  {
    QuietCollect(o, w, k.ns, SpecOf(w.c, k).rulesets, []);
    var (y, seen, answered) := Collect(o, w, k.ns, SpecOf(w.c, k).rulesets, []);
    if answered {
      QuietSelects(o, w, k.ns, SpecOf(w.c, k).rulesets, []);
      WalkedAll(o, w.calls, |SpecOf(w.c, k).rulesets|);
      assert multiset(seen) == Wanted(w.c, k);
      SeenChangedExactly(w.c.objs[DepRef(k)].obj.deployment, seen);
    }
  }

  ghost predicate Loses(o: Oracle, c: Cluster, k: Key, n: nat, x: Cluster)
    requires Standing(c, k) && DepRef(k) in c.objs
  {
    && (Noted(x, k) <==> !Unmounts(o, c, k, n))
    && (Unmounts(o, c, k, n) && !o.fate(n + |SpecOf(c, k).rulesets|).Fine? ==> Bare(x, k))
  }

  lemma {:induction false} LosesByChange(o: Oracle, c: Cluster, k: Key, n: nat, second: nat, changed: bool, x: Cluster)
    requires Standing(c, k) && DepRef(k) in c.objs
    requires var m := |SpecOf(c, k).rulesets|;
             && (changed <==> Answered(o, n, m) && Stale(c.objs[DepRef(k)].obj.deployment, Wanted(c, k)))
             && (changed ==> second == n + m)
             && if changed then
                  && (Noted(x, k) <==> !CutShort(o, second, m))
                  && (CutShort(o, second, m) && !o.fate(second).Fine? ==> Bare(x, k))
                else Noted(x, k)
    ensures Loses(o, c, k, n, x)
  {
  }

  /** The check comes out one way or the other, and what follows. */
  lemma {:induction false} ChangeSeen(o: Oracle, w: World, k: Key, v: Versioned, found: Versioned)
    requires Quiet(o) && Noted(w.c, k) && v.obj.ProxyObject? && found == w.c.objs[DepRef(k)]
    ensures var m, (y, seen, answered) := |v.obj.spec.rulesets|, Collect(o, w, k.ns, v.obj.spec.rulesets, []);
            var x := Rulesets(o, w, k, v, found).0.c;
            if SeenChanged(found.obj.deployment, seen, answered) then
              && (Noted(x, k) <==> !CutShort(o, y.calls, m))
              && (CutShort(o, y.calls, m) && !o.fate(y.calls).Fine? ==> Bare(x, k))
            else Noted(x, k)
  {
    var (y, seen, answered) := Collect(o, w, k.ns, v.obj.spec.rulesets, []);
    QuietCollect(o, w, k.ns, v.obj.spec.rulesets, []);
    if SeenChanged(found.obj.deployment, seen, answered) {
      RemountNoted(o, y, k, found, v.obj.spec.rulesets);
    } else {
      ExposedNoted(o, y, k, v, found);
    }
  }

  lemma RulesetsNoted(o: Oracle, w: World, k: Key)
    requires Quiet(o) && Standing(w.c, k) && Noted(w.c, k)
    ensures Loses(o, w.c, k, w.calls, Rulesets(o, w, k, w.c.objs[ProxyRef(k)], w.c.objs[DepRef(k)]).0.c)
  {
    var x := Rulesets(o, w, k, w.c.objs[ProxyRef(k)], w.c.objs[DepRef(k)]).0.c;
    var (y, seen, answered) := Collect(o, w, k.ns, SpecOf(w.c, k).rulesets, []);
    SeesChange(o, w, k);
    ChangeSeen(o, w, k, w.c.objs[ProxyRef(k)], w.c.objs[DepRef(k)]);
    LosesByChange(o, w.c, k, w.calls, y.calls, SeenChanged(w.c.objs[DepRef(k)].obj.deployment, seen, answered), x);
  }

  /** What follows the read of the proxy. */
  ghost function AfterRead(o: Oracle, w: World, k: Key): World
    requires Standing(w.c, k)
  {
    var v, cr := w.c.objs[ProxyRef(k)], CrOf(w.c, k);
    if cr.conditions == [] then InitStatus(o, w, ProxyRef(k), v).0
    else if FINALIZER !in cr.finalizers then ClaimFinalizer(o, w, ProxyRef(k), v).0
    else Work(o, w, k, v).0
  }

  lemma {:induction false} PassFinds(o: Oracle, w: World, k: Key)
    requires Quiet(o) && Standing(w.c, k)
    ensures var y := Get(o, w, ProxyRef(k)).0;
            && y.c == w.c && y.calls == w.calls + 1
            && ProxyPass(o, w, k).0 == if o.fate(w.calls).Fine? then AfterRead(o, y, k) else y
  {
    assert o.interfere(w.calls, w.c) == w.c;
  }

  lemma {:induction false} ClaimElsewhere(o: Oracle, w: World, k: Key)
    requires Quiet(o) && Standing(w.c, k) && !Live(CrOf(w.c, k))
    ensures SameCopy(w, AfterRead(o, w, k), k)
  {
    var v, cr := w.c.objs[ProxyRef(k)], CrOf(w.c, k);
    if cr.conditions == [] {
      UpdateElsewhere(o, w, ProxyRef(k), Status, Reporting(v, AVAILABLE, Unknown, "Reconciling", Starting), k);
    } else {
      UpdateElsewhere(o, w, ProxyRef(k), Main, WithFinalizers(v, AddFinalizer(cr.finalizers)), k);
    }
  }

  /** What follows the read of the Deployment. */
  ghost function AfterFound(o: Oracle, w: World, k: Key): World
    requires Standing(w.c, k) && DepRef(k) in w.c.objs
  {
    var v, found := w.c.objs[ProxyRef(k)], w.c.objs[DepRef(k)];
    var d := found.obj.deployment;
    if d.replicas != v.obj.spec.size then
      UpdateOnly(o, w, k, DepRef(k), Sending(found, d.(replicas := v.obj.spec.size))).0
    else Rulesets(o, w, k, v, found).0
  }

  lemma {:induction false} WorkFinds(o: Oracle, w: World, k: Key)
    requires Quiet(o) && Standing(w.c, k) && DepRef(k) in w.c.objs
    ensures var z := Get(o, w, DepRef(k)).0;
            && z.c == w.c && z.calls == w.calls + 1
            && Work(o, w, k, w.c.objs[ProxyRef(k)]).0 == if o.fate(w.calls).Fine? then AfterFound(o, z, k) else z
  {
    assert o.interfere(w.calls, w.c) == w.c;
  }

  ghost predicate LosesIfSized(o: Oracle, c: Cluster, k: Key, n: nat, x: Cluster)
    requires Standing(c, k) && DepRef(k) in c.objs
  {
    if c.objs[DepRef(k)].obj.deployment.replicas != SpecOf(c, k).size then Noted(x, k) else Loses(o, c, k, n, x)
  }

  lemma {:induction false} FoundLosesAnnotation(o: Oracle, w: World, k: Key)
    requires Quiet(o) && Standing(w.c, k) && Noted(w.c, k)
    ensures LosesIfSized(o, w.c, k, w.calls, AfterFound(o, w, k).c)
  {
    var found := w.c.objs[DepRef(k)];
    var d, size := found.obj.deployment, SpecOf(w.c, k).size;
    if d.replicas != size {
      AnnotatedUpdate(o, w, k, Sending(found, d.(replicas := size)));
    } else {
      RulesetsNoted(o, w, k);
    }
  }

  /** The annotation goes if and only if `loses`, and then, if call `first` fails, the mounts go with it. */
  ghost predicate NotedUnless(o: Oracle, x: Cluster, k: Key, loses: bool, first: nat) {
    (Noted(x, k) <==> !loses) && (loses && !o.fate(first).Fine? ==> Bare(x, k))
  }

  /** What it takes for that once the proxy has been read, from call `n` on: the proxy is live,
      its Deployment is read, the size is right, the first walk over the rulesets is complete
      and sees a change, the second walk is cut short by a failing List, and the update is
      carried out. */
  ghost predicate Taken(o: Oracle, c: Cluster, k: Key, n: nat)
    requires Standing(c, k) && DepRef(k) in c.objs
  {
    && Live(CrOf(c, k)) && o.fate(n).Fine?
    && c.objs[DepRef(k)].obj.deployment.replicas == SpecOf(c, k).size && Unmounts(o, c, k, n + 1)
  }

  /** The same by stages, before it is put together. */
  ghost predicate ReadLoses(o: Oracle, c: Cluster, k: Key, n: nat, x: Cluster)
    requires Standing(c, k) && Noted(c, k)
  {
    if !Live(CrOf(c, k)) then CopyOf(x, DepRef(k)) == CopyOf(c, DepRef(k))
    else if o.fate(n).Fine? then LosesIfSized(o, c, k, n + 1, x) else x == c
  }

  lemma {:induction false} TakenAfter(o: Oracle, c: Cluster, k: Key, n: nat, x: Cluster)
    requires Standing(c, k) && Noted(c, k)
    requires ReadLoses(o, c, k, n, x)
    ensures NotedUnless(o, x, k, Taken(o, c, k, n), n + 1 + |SpecOf(c, k).rulesets|)
  {
  }

  /** `z` is where the Deployment has been asked for, `x` the end of the pass. */
  lemma {:induction false} AskedLoses(o: Oracle, w: World, k: Key, z: World, x: World)
    requires Quiet(o) && Standing(w.c, k) && Noted(w.c, k) && Live(CrOf(w.c, k))
    requires z.c == w.c && z.calls == w.calls + 1 && x == if o.fate(w.calls).Fine? then AfterFound(o, z, k) else z
    ensures if o.fate(w.calls).Fine? then LosesIfSized(o, w.c, k, w.calls + 1, x.c) else x.c == w.c
  {
    if o.fate(w.calls).Fine? { FoundLosesAnnotation(o, z, k); }
  }

  /** From the read of the Deployment on. */
  lemma {:induction false} LiveLosesAnnotation(o: Oracle, w: World, k: Key)
    requires Quiet(o) && Standing(w.c, k) && Noted(w.c, k) && Live(CrOf(w.c, k))
    ensures var x := AfterRead(o, w, k).c;
            if o.fate(w.calls).Fine? then LosesIfSized(o, w.c, k, w.calls + 1, x) else x == w.c
  {
    WorkFinds(o, w, k);
    AskedLoses(o, w, k, Get(o, w, DepRef(k)).0, AfterRead(o, w, k));
  }

  /** The annotation is there, the proxy is read, and then all of that happens. */
  ghost predicate TakesAway(o: Oracle, w: World, k: Key) {
    Standing(w.c, k) && Noted(w.c, k) && o.fate(w.calls).Fine? && Taken(o, w.c, k, w.calls + 1)
  }

  lemma {:induction false} AfterReadLoses(o: Oracle, w: World, k: Key)
    requires Quiet(o) && Standing(w.c, k) && Noted(w.c, k)
    ensures ReadLoses(o, w.c, k, w.calls, AfterRead(o, w, k).c)
  {
    if Live(CrOf(w.c, k)) { LiveLosesAnnotation(o, w, k); } else { ClaimElsewhere(o, w, k); }
  }

  lemma {:induction false} TakenOnce(o: Oracle, w: World, k: Key, x: Cluster)
    requires Standing(w.c, k) && Noted(w.c, k)
    requires var m := |SpecOf(w.c, k).rulesets|;
             if o.fate(w.calls).Fine? then NotedUnless(o, x, k, Taken(o, w.c, k, w.calls + 1), w.calls + 2 + m)
             else x == w.c
    ensures NotedUnless(o, x, k, TakesAway(o, w, k), w.calls + 2 + |SpecOf(w.c, k).rulesets|)
  {
  }

  /** With any faults and nobody else acting: exactly then a pass on a standing proxy takes the
      annotation away from its Deployment. If it is the first List of the second walk that
      fails, the Deployment is left without any mount as well. */
  lemma {:induction false} LosesAnnotation(o: Oracle, w: World, k: Key)
    requires Quiet(o) && Standing(w.c, k) && Noted(w.c, k)
    ensures NotedUnless(o, ProxyPass(o, w, k).0.c, k, TakesAway(o, w, k), w.calls + 2 + |SpecOf(w.c, k).rulesets|)
  {
    var x := ProxyPass(o, w, k).0.c;
    PassFinds(o, w, k);
    if o.fate(w.calls).Fine? {
      AfterReadLoses(o, Get(o, w, ProxyRef(k)).0, k);
      TakenAfter(o, w.c, k, w.calls + 1, x);
    }
    TakenOnce(o, w, k, x);
  }

  lemma {:induction false} AllAnswered(o: Oracle, from: nat, m: nat)
    requires forall i: nat | from <= i < from + m :: o.fate(i).Fine?
    ensures Answered(o, from, m)
    decreases m
  {
    if m > 0 { AllAnswered(o, from + 1, m - 1); }
  }

  /** For instance: the selection has changed, every call is answered but for the first List of
      the second walk. */
  lemma LostToOneList(o: Oracle, w: World, k: Key)
    requires Quiet(o) && Standing(w.c, k) && Live(CrOf(w.c, k)) && Noted(w.c, k) && SpecOf(w.c, k).rulesets != []
    requires var d := w.c.objs[DepRef(k)].obj.deployment;
             d.replicas == SpecOf(w.c, k).size && Stale(d, Wanted(w.c, k))
    requires forall i: nat :: o.fate(i) == if i == w.calls + 2 + |SpecOf(w.c, k).rulesets| then Rejected else Fine
    ensures var x := ProxyPass(o, w, k).0.c; Bare(x, k) && !Noted(x, k)
  {
    var m, n := |SpecOf(w.c, k).rulesets|, w.calls + 2;
    assert CutShort(o, n + m, m) by { assert Walked(o, n + m, m) == 1; }
    AllAnswered(o, n, m);
    assert TakesAway(o, w, k);
    LosesAnnotation(o, w, k);
  }
}
