/** The VillipProxy reconciler: it brings a Deployment and a Service to what the proxy asks for,
    and finalizes a proxy that is being deleted. Each method computes what `ProxyPasses` and
    `Workloads` say. */
module ProxyController {
  import opened Sorting
  import opened Text
  import opened Objects
  import opened Api
  import opened Workloads
  import opened ProxyPasses
  import opened Claims

  method SortedPortsOfVillipProxy(ports: seq<uint16>) returns (sorted: seq<int>)
    ensures sorted == SortedPorts(ports)
  {
    sorted := [];
    for i := 0 to |ports|
      invariant sorted == Widened(ports)[..i]
    {
      sorted := sorted + [ports[i] as int];
    }
    assert Widened(ports)[..|ports|] == Widened(ports);
    sorted := Sort(BY_VALUE, sorted);
  }

  method PortsForVillipProxyDeployment(pports: seq<uint16>) returns (ports: seq<ContainerPort>)
    ensures ports == ContainerPorts(pports)
  {
    ports := [];
    var sorted := SortedPortsOfVillipProxy(pports);
    for i := 0 to |sorted|
      invariant ports == ContainerPorts(pports)[..i]
    {
      ports := ports + [ContainerPort(sorted[i] as int32, "TCP")];
    }
  }

  method PortsForVillipProxyService(pports: seq<uint16>) returns (ports: seq<ServicePort>)
    ensures ports == ServicePorts(pports)
  {
    ports := [];
    var sorted := SortedPortsOfVillipProxy(pports);
    for i := 0 to |sorted|
      invariant ports == ServicePorts(pports)[..i]
    {
      ports := ports + [ServicePort("port" + Decimal(sorted[i]), sorted[i] as int32, sorted[i], "TCP")];
    }
  }

  class VillipProxyReconciler {
    const api: ApiServer

    constructor (api: ApiServer)
      ensures this.api == api
    {
      this.api := api;
    }

    method Reconcile(req: Key) returns (result: Outcome)
      modifies api
      ensures (api.View(), result) == ProxyPass(api.oracle, old(api.View()), req)
    {
      var r := ProxyRef(req);
      var got := api.Gets(r);
      if got.Err? {
        if got.error.NotFound? { return Done; }
        return Failed(got.error);
      }
      var villipproxy := got.value;
      if |villipproxy.obj.cr.conditions| == 0 {
        result := InitsStatus(api, r, villipproxy);
        return;
      }
      if FINALIZER !in villipproxy.obj.cr.finalizers {
        result := AddsFinalizer(api, r, villipproxy);
        return;
      }
      if villipproxy.obj.cr.deleting {
        result := MarkedToBeDeleted(req, villipproxy);
        return;
      }
      result := Works(req, villipproxy);
    }

    method MarkedToBeDeleted(req: Key, v: Versioned) returns (result: Outcome)
      requires v.obj.ProxyObject?
      modifies api
      ensures (api.View(), result) == Finalize(api.oracle, old(api.View()), req, v)
    {
      var r := ProxyRef(req);
      var villipproxy := Reporting(v, DEGRADED, Unknown, "Finalizing", Finalizing);
      var told := api.Updates(r, Status, villipproxy);
      if told.Err? { return Failed(told.error); }

      var again := api.Gets(r);
      if again.Err? { return Failed(again.error); }
      villipproxy := Reporting(again.value, DEGRADED, True, "Finalizing", Finalized);
      told := api.Updates(r, Status, villipproxy);
      if told.Err? { return Failed(told.error); }
      villipproxy := told.value;

      var finalizers := villipproxy.obj.cr.finalizers;
      var left := RemoveFinalizer(finalizers);
      if left == finalizers { return Failed(NotRemoved); }
      told := api.Updates(r, Main, WithFinalizers(villipproxy, left));
      if told.Err? { return Failed(told.error); }
      return Done;
    }

    /** The part of Reconcile that a live, initialised proxy reaches. */
    method Works(req: Key, villipproxy: Versioned) returns (result: Outcome)
      requires villipproxy.obj.ProxyObject?
      modifies api
      ensures (api.View(), result) == Work(api.oracle, old(api.View()), req, villipproxy)
    {
      var spec := villipproxy.obj.spec;
      var got := api.Gets(DepRef(req));
      if got.Err? {
        if got.error.NotFound? {
          result := CreatesDeployment(req, villipproxy);
          return;
        }
        return Failed(got.error);
      }
      var found, d := got.value, got.value.obj.deployment;

      if d.replicas != spec.size {
        d := d.(replicas := spec.size);
        var err := WorkloadUpdate(req, DepRef(req), found.(obj := DeploymentObject(d)));
        if err.Some? { return Failed(err.value); }
        return Requeue;
      }
      result := ChecksRulesets(req, villipproxy, found);
    }

    method ChecksRulesets(req: Key, villipproxy: Versioned, found: Versioned) returns (result: Outcome)
      requires villipproxy.obj.ProxyObject? && found.obj.DeploymentObject?
      modifies api
      ensures (api.View(), result) == Rulesets(api.oracle, old(api.View()), req, villipproxy, found)
    {
      var spec, d := villipproxy.obj.spec, found.obj.deployment;
      var rulesetsChanged, _ := IsRulesetsChanged(req, spec, d);
      if rulesetsChanged {
        var vmounts, volumes, annotations, _ := MountsForVillipProxy(spec.rulesets, req.ns);
        d := d.(annotations := annotations);
        d := d.(template := d.template.(volumes := volumes));
        d := d.(template := d.template.(mounts := vmounts));
        var err := WorkloadUpdate(req, DepRef(req), found.(obj := DeploymentObject(d)));
        if err.Some? { return Failed(err.value); }
        return Requeue;
      }
      result := Exposes(req, villipproxy, found);
    }

    method Exposes(req: Key, villipproxy: Versioned, found: Versioned) returns (result: Outcome)
      requires villipproxy.obj.ProxyObject? && found.obj.DeploymentObject?
      modifies api
      ensures (api.View(), result) == Exposed(api.oracle, old(api.View()), req, villipproxy, found)
    {
      var sgot := api.Gets(SvcRef(req));
      if sgot.Err? {
        if sgot.error.NotFound? {
          result := CreatesService(req, villipproxy);
          return;
        }
        return Failed(sgot.error);
      }
      var managed := ManagePortChange(req, villipproxy, found, sgot.value);
      if managed.Some? { return managed.value; }

      var told := api.Updates(ProxyRef(req), Status,
        Reporting(villipproxy, AVAILABLE, True, "Reconciling", Ready(villipproxy.obj.spec.size)));
      if told.Err? { return Failed(told.error); }
      return Done;
    }

    /** The ports part: no result means that nothing was to be done, and nothing was. */
    method ManagePortChange(req: Key, villipproxy: Versioned, found: Versioned, sfound: Versioned)
      returns (result: Option<Outcome>)
      requires villipproxy.obj.ProxyObject? && found.obj.DeploymentObject? && sfound.obj.ServiceObject?
      modifies api
      ensures var ports := villipproxy.obj.spec.ports;
              var depDiffers := DeepDiffers(ContainerPorts(ports), found.obj.deployment.template.ports);
              var svcDiffers := DeepDiffers(ServicePorts(ports), sfound.obj.service.ports);
              if depDiffers || svcDiffers then
                result.Some? && (api.View(), result.value) ==
                  AlignPorts(api.oracle, old(api.View()), req, villipproxy, found, sfound, depDiffers, svcDiffers)
              else result == None && api.View() == old(api.View())
    {
      var d, s := found.obj.deployment, sfound.obj.service;
      var depports := PortsForVillipProxyDeployment(villipproxy.obj.spec.ports);
      var depportsChanged := DeepDiffers(depports, d.template.ports);
      var svcports := PortsForVillipProxyService(villipproxy.obj.spec.ports);
      var svcportsChanged := DeepDiffers(svcports, s.ports);
      if depportsChanged || svcportsChanged {
        if depportsChanged {
          d := d.(template := d.template.(ports := depports));
          var err := WorkloadUpdate(req, DepRef(req), found.(obj := DeploymentObject(d)));
          if err.Some? { return Some(Failed(err.value)); }
        }
        if svcportsChanged {
          s := s.(ports := svcports);
          var err := WorkloadUpdate(req, SvcRef(req), sfound.(obj := ServiceObject(s)));
          if err.Some? { return Some(Failed(err.value)); }
        }
        return Some(Requeue);
      }
      return None;
    }

    method WorkloadUpdate(req: Key, r: Ref, sent: Versioned) returns (err: Option<ApiError>)
      requires sent.obj.Kind() == r.kind
      modifies api
      ensures (api.View(), err) == UpdateWorkload(api.oracle, old(api.View()), req, r, sent)
    {
      var told := api.Updates(r, Main, sent);
      if told.Err? {
        var again := api.Gets(ProxyRef(req));
        if again.Err? { return Some(again.error); }
        var reported := api.Updates(ProxyRef(req), Status,
          Reporting(again.value, AVAILABLE, False, "Reconciling", CannotUpdate(r.kind, told.error)));
        if reported.Err? { return Some(reported.error); }
      }
      return None;
    }

    method IsRulesetsChanged(req: Key, spec: ProxySpec, d: Deployment) returns (changed: bool, err: bool)
      modifies api
      ensures var (w, names, complete) := Collect(api.oracle, old(api.View()), req.ns, spec.rulesets, []);
              api.View() == w && err == !complete && changed == SeenChanged(d, names, complete)
    {
      var cmNames: seq<Name> := [];
      ghost var start := api.View();
      var i := 0;
      while i < |spec.rulesets|
        invariant 0 <= i <= |spec.rulesets|
        invariant Collect(api.oracle, start, req.ns, spec.rulesets, [])
               == Collect(api.oracle, api.View(), req.ns, spec.rulesets[i..], cmNames)
      {
        var items := api.ListsConfigMaps(req.ns, spec.rulesets[i]);
        if items.Err? { return false, true; }
        assert spec.rulesets[i..][1..] == spec.rulesets[i + 1..];
        cmNames := cmNames + items.value;
        i := i + 1;
      }
      var selected := Join(SortNames(cmNames), COMMA);
      if CONF in d.annotations { return d.annotations[CONF] != selected, false; }
      return false, false;
    }

    method MountsForVillipProxy(rulesets: seq<Labels>, ns: string)
      returns (vmounts: seq<Mount>, volumes: seq<Volume>, annotations: map<string, string>, err: bool)
      modifies api
      ensures var (w, names, complete) := Collect(api.oracle, old(api.View()), ns, rulesets, []);
              && api.View() == w && err == !complete
              && vmounts == MountsOf(names) && volumes == VolumesOf(names)
              && annotations == AnnotationsOf(names, complete)
    {
      vmounts, volumes, annotations := [], [], map[];
      var cmNames: seq<Name> := [];
      ghost var start := api.View();
      var i := 0;
      while i < |rulesets|
        invariant 0 <= i <= |rulesets|
        invariant vmounts == MountsOf(cmNames) && volumes == VolumesOf(cmNames) && annotations == map[]
        invariant Collect(api.oracle, start, ns, rulesets, [])
               == Collect(api.oracle, api.View(), ns, rulesets[i..], cmNames)
      {
        var items := api.ListsConfigMaps(ns, rulesets[i]);
        if items.Err? { return vmounts, volumes, annotations, true; }
        ghost var before, now := cmNames, api.View();
        for j := 0 to |items.value|
          invariant cmNames == before + items.value[..j]
          invariant vmounts == MountsOf(cmNames) && volumes == VolumesOf(cmNames)
          invariant api.View() == now
        {
          var cm := items.value[j];
          cmNames := cmNames + [cm];
          vmounts := vmounts + [Mount(cm, "/conf/" + cm)];
          volumes := volumes + [Volume(cm, cm)];
        }
        assert items.value[..|items.value|] == items.value;
        assert rulesets[i..][1..] == rulesets[i + 1..];
        i := i + 1;
      }
      annotations := annotations[CONF := Join(SortNames(cmNames), COMMA)];
      return vmounts, volumes, annotations, false;
    }

    method CreatesDeployment(req: Key, villipproxy: Versioned) returns (result: Outcome)
      requires villipproxy.obj.ProxyObject?
      modifies api
      ensures (api.View(), result) == CreateDeployment(api.oracle, old(api.View()), req, villipproxy)
    {
      var cr, spec := villipproxy.obj.cr, villipproxy.obj.spec;
      var labels := LabelsOf(req, cr, spec);
      var ports := PortsForVillipProxyDeployment(spec.ports);
      var vmounts, volumes, annotations, err := MountsForVillipProxy(spec.rulesets, req.ns);
      if err {
        result := ReportsFailure(req, villipproxy, DeploymentKind, Unavailable);
        return;
      }
      var dep := Deployment(labels, annotations, spec.size, labels,
                            PodTemplate(labels, map[], volumes, vmounts, ports, ImageOf(spec), EnvOf(spec)), 0);
      var owned := api.Locally();
      if !owned {
        result := ReportsFailure(req, villipproxy, DeploymentKind, OwnerReference);
        return;
      }
      var made := api.Creates(DepRef(req), DeploymentObject(dep));
      if made.Err? {
        result := ReportsFailure(req, villipproxy, DeploymentKind, made.error);
        return;
      }
      return Requeue;
    }

    method CreatesService(req: Key, villipproxy: Versioned) returns (result: Outcome)
      requires villipproxy.obj.ProxyObject?
      modifies api
      ensures (api.View(), result) == CreateService(api.oracle, old(api.View()), req, villipproxy)
    {
      var ports := PortsForVillipProxyService(villipproxy.obj.spec.ports);
      var svc := Service(villipproxy.obj.cr.labels, ports, map["villip" := req.name]);
      var owned := api.Locally();
      if !owned {
        result := ReportsFailure(req, villipproxy, ServiceKind, OwnerReference);
        return;
      }
      var made := api.Creates(SvcRef(req), ServiceObject(svc));
      if made.Err? { return Failed(made.error); }
      return Requeue;
    }

    method ReportsFailure(req: Key, v: Versioned, kind: Kind, why: ApiError) returns (result: Outcome)
      requires v.obj.ProxyObject?
      modifies api
      ensures (api.View(), result) == ReportFailure(api.oracle, old(api.View()), req, v, kind, why)
    {
      var told := api.Updates(ProxyRef(req), Status,
        Reporting(v, AVAILABLE, False, "Reconciling", CannotCreate(kind, why)));
      if told.Err? { return Failed(told.error); }
      return Failed(why);
    }
  }
}
