/** What a VillipProxy pass guarantees, whichever calls fail, whatever order lists come
    in, and whatever others do between its calls. */
module ProxySafety {
  import opened Text
  import opened Objects
  import opened Api
  import opened Workloads
  import opened ProxyPasses
  import opened Guarantees

  ghost predicate Acts(o: Oracle, k: Key, read: Object, w: World, x: World) {
    Leads(o, w, x) && ProxyActs(k, true, read, w, x)
  }

  lemma ActsTransitive(o: Oracle, k: Key, read: Object, w: World, x: World, y: World)
    requires Acts(o, k, read, w, x) && Acts(o, k, read, x, y)
    ensures Acts(o, k, read, w, y)
  {
    LeadsTransitive(o, w, x, y);
  }

  lemma ReportActs(o: Oracle, k: Key, read: Object, w: World, v: Versioned, status: ConditionStatus, reason: string,
                   message: Message)
    requires Lawful(o) && InOrder(o, w) && Held(w.c, ProxyRef(k), v)
    ensures Acts(o, k, read, w, Update(o, w, ProxyRef(k), Status, Reporting(v, AVAILABLE, status, reason, message)).0)
  {
    StatusUpdate(o, w, ProxyRef(k), v, AVAILABLE, status, reason, message);
  }

  /** deploymentUpdate and serviceUpdate with a held copy. */
  lemma UpdateWorkloadActs(o: Oracle, w: World, k: Key, read: Object, r: Ref, v: Versioned, sent: Object)
    requires Lawful(o) && InOrder(o, w) && Held(w.c, r, v) && Sendable(o, w, v.obj, Main, sent)
    requires forall n: nat | n >= w.c.next ::
               ProxyEvent(k, true, read, Wrote(r, Some(v.obj), Kept(Merged(v.obj, sent, Main, n))))
    ensures Acts(o, k, read, w, UpdateWorkload(o, w, k, r, v.(obj := sent)).0)
  {
    var (x, told) := Update(o, w, r, Main, v.(obj := sent));
    UpdateLeads(o, w, r, Main, v, sent);
    assert Acts(o, k, read, w, x);
    if told.Err? {
      var (y, again) := Get(o, x, ProxyRef(k));
      GetLeads(o, x, ProxyRef(k));
      assert Acts(o, k, read, x, y);
      ActsTransitive(o, k, read, w, x, y);
      if again.Ok? {
        var message := CannotUpdate(r.kind, told.error);
        ReportActs(o, k, read, y, again.value, False, "Reconciling", message);
        ActsTransitive(o, k, read, w, y,
          Update(o, y, ProxyRef(k), Status, Reporting(again.value, AVAILABLE, False, "Reconciling", message)).0);
      }
    }
  }

  /** The server places the sent Deployment, and it stays one of the edits. */
  lemma {:induction false} EditPlaced(k: Key, read: Object, b: Deployment, d: Deployment, n: nat)
    requires ProxyEdit(b, d) && Fit(d) && d.rolledAt == b.rolledAt && b.rolledAt < n
    ensures var m := Merged(DeploymentObject(b), DeploymentObject(d), Main, n);
            Sound(m, n + 1) && ProxyEvent(k, true, read, Wrote(DepRef(k), Some(DeploymentObject(b)), Kept(m)))
  {
    var placed := Placed(Some(b), d, n);
    assert VolumeNames(placed) == VolumeNames(d);
    assert ProxyEdit(b, placed);
  }

  /** A Deployment sent back with one of the three edits. */
  lemma DeploymentUpdateActs(o: Oracle, w: World, k: Key, read: Object, v: Versioned, d: Deployment)
    requires Lawful(o) && InOrder(o, w) && Held(w.c, DepRef(k), v)
    requires StampedBefore(v.obj.deployment, o.now(w.calls))
    requires ProxyEdit(v.obj.deployment, d) && Fit(d) && d.rolledAt == v.obj.deployment.rolledAt
    ensures Acts(o, k, read, w, UpdateWorkload(o, w, k, DepRef(k), Sending(v, d)).0)
  {
    var b := v.obj.deployment;
    assert d.template.marks == b.template.marks;
    assert StampedBefore(d, o.now(w.calls) + 1);
    forall n: nat | n >= w.c.next
      ensures Sound(Merged(v.obj, DeploymentObject(d), Main, n), n + 1)
      ensures ProxyEvent(k, true, read,
                Wrote(DepRef(k), Some(v.obj), Kept(Merged(v.obj, DeploymentObject(d), Main, n))))
    {
      EditPlaced(k, read, b, d, n);
    }
    UpdateWorkloadActs(o, w, k, read, DepRef(k), v, DeploymentObject(d));
  }

  lemma RemountedWell(d: Deployment, names: seq<Name>, complete: bool)
    ensures WellMounted(Remounted(d, names, complete))
  {
    NamedDigest(names);
    assert VolumeNames(Remounted(d, names, complete)) == AsStrings(names);
  }

  lemma BuiltWell(k: Key, cr: Resource, spec: ProxySpec, names: seq<Name>)
    ensures WellMounted(DeploymentFor(k, cr, spec, names))
  {
    NamedDigest(names);
    assert VolumeNames(DeploymentFor(k, cr, spec, names)) == AsStrings(names);
  }

  lemma FinalizeLeads(o: Oracle, w: World, k: Key, v: Versioned)
    requires Lawful(o) && InOrder(o, w) && Held(w.c, ProxyRef(k), v) && v.obj.cr.deleting
    ensures var x := Finalize(o, w, k, v).0; Leads(o, w, x) && ResourceOnly(ProxyRef(k), w, x)
  {
    var r := ProxyRef(k);
    StatusUpdate(o, w, r, v, DEGRADED, Unknown, "Finalizing", Finalizing);
    var (x, told) := Update(o, w, r, Status, Reporting(v, DEGRADED, Unknown, "Finalizing", Finalizing));
    if told.Ok? {
      var (y, again) := Get(o, x, r);
      GetLeads(o, x, r);
      LeadsTransitive(o, w, x, y);
      if again.Ok? {
        FinalizeAgainLeads(o, y, k, again.value);
        LeadsTransitive(o, w, y, FinalizeAgain(o, y, k, again.value).0);
      }
    }
  }

  /** The re-fetched proxy may be another one, not being deleted; then its finalizer goes all the same. */
  lemma FinalizeAgainLeads(o: Oracle, w: World, k: Key, v: Versioned)
    requires Lawful(o) && InOrder(o, w) && Held(w.c, ProxyRef(k), v)
    ensures var x := FinalizeAgain(o, w, k, v).0; Leads(o, w, x) && ResourceOnly(ProxyRef(k), w, x)
  {
    var r := ProxyRef(k);
    StatusUpdate(o, w, r, v, DEGRADED, True, "Finalizing", Finalized);
    var (x, told) := Update(o, w, r, Status, Reporting(v, DEGRADED, True, "Finalizing", Finalized));
    if told.Ok? {
      var left := RemoveFinalizer(told.value.obj.cr.finalizers);
      SetConditionKeepsTidy(v.obj.cr.conditions, CLEANED);
      FinalizerUpdate(o, x, r, told.value, left);
      LeadsTransitive(o, w, x, Update(o, x, r, Main, WithFinalizers(told.value, left)).0);
    }
  }

  lemma {:induction false} BuiltAsAsked(k: Key, cr: Resource, spec: ProxySpec, names: seq<Name>, n: nat)
    ensures var d := Placed(None, DeploymentFor(k, cr, spec, names), n);
            Fit(d) && BuiltFor(k, cr, spec, d) && d.annotations.Keys == {CONF}
  {
    BuiltWell(k, cr, spec, names);
    var d := DeploymentFor(k, cr, spec, names);
    assert VolumeNames(Placed(None, d, n)) == VolumeNames(d);
    DeploymentAsAsked(k, cr, spec, names);
  }

  lemma {:induction false} BuildActs(o: Oracle, w: World, k: Key, read: Object, names: seq<Name>)
    requires Lawful(o) && InOrder(o, w) && read.ProxyObject?
    ensures Acts(o, k, read, w,
              Create(o, w, DepRef(k), DeploymentObject(DeploymentFor(k, read.cr, read.spec, names))).0)
  {
    var d := DeploymentFor(k, read.cr, read.spec, names);
    BuiltWell(k, read.cr, read.spec, names);
    CreateLeads(o, w, DepRef(k), DeploymentObject(d));
    var x := Create(o, w, DepRef(k), DeploymentObject(d)).0;
    if x.log != w.log {
      var n: nat :| x.log == w.log + [Wrote(DepRef(k), None, Some(Made(DeploymentObject(d), n)))];
      BuiltAsAsked(k, read.cr, read.spec, names, n);
    }
  }

  lemma CreateDeploymentActs(o: Oracle, w: World, k: Key, read: Object, v: Versioned)
    requires Lawful(o) && InOrder(o, w) && Held(w.c, ProxyRef(k), v) && read == v.obj
    ensures Acts(o, k, read, w, CreateDeployment(o, w, k, v).0)
  {
    var (x, names, complete) := Collect(o, w, k.ns, v.obj.spec.rulesets, []);
    CollectLeads(o, w, k.ns, v.obj.spec.rulesets, []);
    if !complete {
      ReportFailureActs(o, w, x, k, read, v, DeploymentKind, Unavailable);
    } else {
      var (y, owned) := Local(o, x);
      ArriveLeads(o, x);
      LeadsTransitive(o, w, x, y);
      if !owned {
        ReportFailureActs(o, w, y, k, read, v, DeploymentKind, OwnerReference);
      } else {
        var (z, made) := Create(o, y, DepRef(k), DeploymentObject(DeploymentFor(k, v.obj.cr, v.obj.spec, names)));
        BuildActs(o, y, k, v.obj, names);
        ActsTransitive(o, k, read, w, y, z);
        if made.Err? { ReportFailureActs(o, w, z, k, read, v, DeploymentKind, made.error); }
      }
    }
  }

  lemma ReportFailureActs(o: Oracle, w: World, x: World, k: Key, read: Object, v: Versioned, kind: Kind, why: ApiError)
    requires Lawful(o) && Held(w.c, ProxyRef(k), v) && Acts(o, k, read, w, x)
    ensures Acts(o, k, read, w, ReportFailure(o, x, k, v, kind, why).0)
  {
    HeldLater(o, w, x, ProxyRef(k), v);
    ReportActs(o, k, read, x, v, False, "Reconciling", CannotCreate(kind, why));
    ActsTransitive(o, k, read, w, x, ReportFailure(o, x, k, v, kind, why).0);
  }

  lemma CreateServiceActs(o: Oracle, w: World, k: Key, read: Object, v: Versioned)
    requires Lawful(o) && InOrder(o, w) && Held(w.c, ProxyRef(k), v) && read == v.obj
    ensures Acts(o, k, read, w, CreateService(o, w, k, v).0)
  {
    var (x, owned) := Local(o, w);
    ArriveLeads(o, w);
    if !owned {
      ReportFailureActs(o, w, x, k, read, v, ServiceKind, OwnerReference);
    } else {
      CreateLeads(o, x, SvcRef(k), ServiceObject(ServiceFor(k, v.obj.cr, v.obj.spec)));
      var y := Create(o, x, SvcRef(k), ServiceObject(ServiceFor(k, v.obj.cr, v.obj.spec))).0;
      assert Acts(o, k, read, x, y);
      ActsTransitive(o, k, read, w, x, y);
    }
  }

  lemma ServiceUpdateActs(o: Oracle, w: World, k: Key, read: Object, v: Versioned, ports: seq<ServicePort>)
    requires Lawful(o) && InOrder(o, w) && Held(w.c, SvcRef(k), v)
    ensures Acts(o, k, read, w, UpdateWorkload(o, w, k, SvcRef(k),
                                         v.(obj := ServiceObject(v.obj.service.(ports := ports)))).0)
  {
    UpdateWorkloadActs(o, w, k, read, SvcRef(k), v, ServiceObject(v.obj.service.(ports := ports)));
  }

  lemma AlignPortsActs(o: Oracle, w: World, k: Key, read: Object, v: Versioned, found: Versioned, sfound: Versioned,
                       dep: bool, svc: bool)
    requires Lawful(o) && InOrder(o, w) && v.obj.ProxyObject?
    requires Held(w.c, DepRef(k), found) && StampedBefore(found.obj.deployment, o.now(w.calls))
    requires Held(w.c, SvcRef(k), sfound)
    ensures Acts(o, k, read, w, AlignPorts(o, w, k, v, found, sfound, dep, svc).0)
  {
    var d := Ported(found.obj.deployment, v.obj.spec.ports);
    var x := w;
    if dep {
      assert VolumeNames(d) == VolumeNames(found.obj.deployment);
      assert ProxyEdit(found.obj.deployment, d);
      DeploymentUpdateActs(o, w, k, read, found, d);
      x := UpdateWorkload(o, w, k, DepRef(k), Sending(found, d)).0;
    }
    if svc && (!dep || UpdateWorkload(o, w, k, DepRef(k), Sending(found, d)).1 == None) {
      HeldLater(o, w, x, SvcRef(k), sfound);
      ServiceUpdateActs(o, x, k, read, sfound, ServicePorts(v.obj.spec.ports));
      ActsTransitive(o, k, read, w, x, AlignPorts(o, w, k, v, found, sfound, dep, svc).0);
    }
  }

  lemma ExposedActs(o: Oracle, w: World, k: Key, read: Object, v: Versioned, found: Versioned)
    requires Lawful(o) && InOrder(o, w) && Held(w.c, ProxyRef(k), v) && read == v.obj
    requires Held(w.c, DepRef(k), found) && StampedBefore(found.obj.deployment, o.now(w.calls))
    ensures Acts(o, k, read, w, Exposed(o, w, k, v, found).0)
  {
    var (x, got) := Get(o, w, SvcRef(k));
    GetLeads(o, w, SvcRef(k));
    assert Acts(o, k, read, w, x);
    HeldLater(o, w, x, ProxyRef(k), v);
    HeldLater(o, w, x, DepRef(k), found);
    assert x.calls == w.calls + 1 && o.now(w.calls) < o.now(x.calls);
    if got.Err? {
      if got.error.NotFound? { CreateServiceActs(o, x, k, read, v); }
    } else {
      AlignPortsActs(o, x, k, read, v, found, got.value,
        DeepDiffers(ContainerPorts(v.obj.spec.ports), found.obj.deployment.template.ports),
        DeepDiffers(ServicePorts(v.obj.spec.ports), got.value.obj.service.ports));
      ReportActs(o, k, read, x, v, True, "Reconciling", Ready(v.obj.spec.size));
    }
    ActsTransitive(o, k, read, w, x, Exposed(o, w, k, v, found).0);
  }

  lemma RulesetsActs(o: Oracle, w: World, k: Key, read: Object, v: Versioned, found: Versioned)
    requires Lawful(o) && InOrder(o, w) && Held(w.c, ProxyRef(k), v) && read == v.obj
    requires Held(w.c, DepRef(k), found) && StampedBefore(found.obj.deployment, o.now(w.calls))
    ensures Acts(o, k, read, w, Rulesets(o, w, k, v, found).0)
  {
    var d := found.obj.deployment;
    var (x, seen, answered) := Collect(o, w, k.ns, v.obj.spec.rulesets, []);
    CollectLeads(o, w, k.ns, v.obj.spec.rulesets, []);
    LaterStamps(o, w, x, d);
    HeldLater(o, w, x, DepRef(k), found);
    HeldLater(o, w, x, ProxyRef(k), v);
    if SeenChanged(d, seen, answered) {
      var (y, names, complete) := Collect(o, x, k.ns, v.obj.spec.rulesets, []);
      CollectLeads(o, x, k.ns, v.obj.spec.rulesets, []);
      LaterStamps(o, x, y, d);
      LeadsTransitive(o, w, x, y);
      HeldLater(o, w, y, DepRef(k), found);
      RemountedWell(d, names, complete);
      DeploymentUpdateActs(o, y, k, read, found, Remounted(d, names, complete));
      ActsTransitive(o, k, read, w, y, Rulesets(o, w, k, v, found).0);
    } else {
      ExposedActs(o, x, k, read, v, found);
      ActsTransitive(o, k, read, w, x, Rulesets(o, w, k, v, found).0);
    }
  }

  lemma LaterStamps(o: Oracle, w: World, x: World, d: Deployment)
    requires Lawful(o) && w.calls <= x.calls && StampedBefore(d, o.now(w.calls))
    ensures StampedBefore(d, o.now(x.calls))
  {
    assert w.calls < x.calls ==> o.now(w.calls) < o.now(x.calls);
  }

  lemma WorkActs(o: Oracle, w: World, k: Key, read: Object, v: Versioned)
    requires Lawful(o) && InOrder(o, w) && Held(w.c, ProxyRef(k), v) && read == v.obj
    ensures Acts(o, k, read, w, Work(o, w, k, v).0)
  {
    var (x, got) := Get(o, w, DepRef(k));
    GetLeads(o, w, DepRef(k));
    assert Acts(o, k, read, w, x);
    HeldLater(o, w, x, ProxyRef(k), v);
    if got.Err? {
      if got.error.NotFound? { CreateDeploymentActs(o, x, k, read, v); }
    } else {
      var d := got.value.obj.deployment;
      if d.replicas != v.obj.spec.size {
        var e := d.(replicas := v.obj.spec.size);
        assert VolumeNames(e) == VolumeNames(d);
        DeploymentUpdateActs(o, x, k, read, got.value, e);
      } else {
        RulesetsActs(o, x, k, read, v, got.value);
      }
    }
    ActsTransitive(o, k, read, w, x, Work(o, w, k, v).0);
  }

  /** One pass of the proxy controller under any faults and any interference: the cluster
      keeps its invariants; every write is one of the allowed ones, made to the very object
      that was read; and unless the proxy that was fetched is initialised, claimed and not
      being deleted, nothing but that proxy is written. */
  lemma ProxyGuarantee(o: Oracle, w: World, k: Key)
    requires Lawful(o) && InOrder(o, w)
    ensures var x := ProxyPass(o, w, k).0;
            && Leads(o, w, x) && x.calls > w.calls
            && (x.log != w.log ==>
                  && |x.log| > |w.log| && x.log[|w.log|].Read? && x.log[|w.log|].ref == ProxyRef(k)
                  && x.log[|w.log|].obj.ProxyObject?
                  && ProxyActs(k, Live(x.log[|w.log|].obj.cr), x.log[|w.log|].obj, w, x))
  {
    var r := ProxyRef(k);
    var (x, got) := Get(o, w, r);
    GetLeads(o, w, r);
    if got.Ok? {
      var y := ProxyPass(o, w, k).0;
      var cr := got.value.obj.cr;
      if cr.conditions == [] { InitStatusLeads(o, x, r, got.value); }
      else if FINALIZER !in cr.finalizers { ClaimFinalizerLeads(o, x, r, got.value); }
      else if cr.deleting { FinalizeLeads(o, x, k, got.value); }
      else { WorkActs(o, x, k, got.value.obj, got.value); }
      LeadsTransitive(o, w, x, y);
      assert y.log[|w.log|] == x.log[|w.log|] == Read(r, got.value.obj);
    }
  }
}
