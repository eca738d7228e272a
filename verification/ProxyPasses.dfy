/** One reconciliation pass of the VillipProxy controller, as a function of the oracle
    and of the world it starts in. `ProxyController` has the code that computes it. */
module ProxyPasses {
  import opened Text
  import opened Objects
  import opened Api
  import opened Workloads

  /** What Reconcile returns: done, done and to be called again, or an error. */
  datatype Outcome = Done | Requeue | Failed(error: ApiError)

  /** Write, then return `then` unless the write failed. */
  ghost function Finish(o: Oracle, w: World, r: Ref, part: Part, sent: Versioned, after: Outcome): (World, Outcome)
    requires sent.obj.Kind() == r.kind
  {
    var (w1, got) := Update(o, w, r, part, sent);
    (w1, if got.Err? then Failed(got.error) else after)
  }

  function Reporting(v: Versioned, ctype: string, status: ConditionStatus, reason: string,
                     message: Message): (r: Versioned)
    requires v.obj.IsResource()
    ensures r.obj.Kind() == v.obj.Kind()
  {
    v.(obj := v.obj.With(Report(v.obj.cr, ctype, status, reason, message)))
  }

  function WithFinalizers(v: Versioned, finalizers: seq<string>): (r: Versioned)
    requires v.obj.IsResource()
    ensures r.obj.Kind() == v.obj.Kind()
  {
    v.(obj := v.obj.With(v.obj.cr.(finalizers := finalizers)))
  }

  /** Both controllers start the status and claim the finalizer alike. */
  ghost function InitStatus(o: Oracle, w: World, r: Ref, v: Versioned): (World, Outcome)
    requires v.obj.IsResource() && v.obj.Kind() == r.kind
  {
    Finish(o, w, r, Status, Reporting(v, AVAILABLE, Unknown, "Reconciling", Starting), Requeue)
  }

  ghost function ClaimFinalizer(o: Oracle, w: World, r: Ref, v: Versioned): (World, Outcome)
    requires v.obj.IsResource() && v.obj.Kind() == r.kind
  {
    Finish(o, w, r, Main, WithFinalizers(v, AddFinalizer(v.obj.cr.finalizers)), Requeue)
  }

  ghost function ProxyPass(o: Oracle, w: World, k: Key): (World, Outcome) {
    var r := ProxyRef(k);
    var (w1, got) := Get(o, w, r);
    if got.Err? then (w1, if got.error.NotFound? then Done else Failed(got.error))
    else if got.value.obj.cr.conditions == [] then InitStatus(o, w1, r, got.value)
    else if FINALIZER !in got.value.obj.cr.finalizers then ClaimFinalizer(o, w1, r, got.value)
    else if got.value.obj.cr.deleting then Finalize(o, w1, k, got.value)
    else Work(o, w1, k, got.value)
  }

  ghost function Finalize(o: Oracle, w: World, k: Key, v: Versioned): (World, Outcome)
    requires v.obj.ProxyObject?
  {
    var r := ProxyRef(k);
    var (w1, told) := Update(o, w, r, Status, Reporting(v, DEGRADED, Unknown, "Finalizing", Finalizing));
    if told.Err? then (w1, Failed(told.error))
    else
      var (w2, again) := Get(o, w1, r);
      if again.Err? then (w2, Failed(again.error)) else FinalizeAgain(o, w2, k, again.value)
  }

  ghost function FinalizeAgain(o: Oracle, w: World, k: Key, v: Versioned): (World, Outcome)
    requires v.obj.ProxyObject?
  {
    var r := ProxyRef(k);
    var (w1, told) := Update(o, w, r, Status, Reporting(v, DEGRADED, True, "Finalizing", Finalized));
    if told.Err? then (w1, Failed(told.error))
    else
      var left := RemoveFinalizer(told.value.obj.cr.finalizers);
      if left == told.value.obj.cr.finalizers then (w1, Failed(NotRemoved))
      else Finish(o, w1, r, Main, WithFinalizers(told.value, left), Done)
  }

  ghost function Work(o: Oracle, w: World, k: Key, v: Versioned): (World, Outcome)
    requires v.obj.ProxyObject?
  {
    var (w1, got) := Get(o, w, DepRef(k));
    if got.Err? then
      if got.error.NotFound? then CreateDeployment(o, w1, k, v) else (w1, Failed(got.error))
    else
      var d := got.value.obj.deployment;
      if d.replicas != v.obj.spec.size then
        UpdateOnly(o, w1, k, DepRef(k), Sending(got.value, d.(replicas := v.obj.spec.size)))
      else Rulesets(o, w1, k, v, got.value)
  }

  function Sending(found: Versioned, d: Deployment): Versioned {
    found.(obj := DeploymentObject(d))
  }

  /** deploymentUpdate and serviceUpdate: a failed update is reported in the status of
      the proxy, and then counts as done; only a failure to report it is an error. */
  ghost function UpdateWorkload(o: Oracle, w: World, k: Key, r: Ref, sent: Versioned): (World, Option<ApiError>)
    requires sent.obj.Kind() == r.kind
  {
    var (w1, told) := Update(o, w, r, Main, sent);
    if told.Ok? then (w1, None)
    else
      var (w2, again) := Get(o, w1, ProxyRef(k));
      if again.Err? then (w2, Some(again.error))
      else
        var (w3, reported) := Update(o, w2, ProxyRef(k), Status,
          Reporting(again.value, AVAILABLE, False, "Reconciling", CannotUpdate(r.kind, told.error)));
        (w3, if reported.Err? then Some(reported.error) else None)
  }

  ghost function UpdateOnly(o: Oracle, w: World, k: Key, r: Ref, sent: Versioned): (World, Outcome)
    requires sent.obj.Kind() == r.kind
  {
    var (w1, err) := UpdateWorkload(o, w, k, r, sent);
    (w1, if err.Some? then Failed(err.value) else Requeue)
  }

  function Remounted(d: Deployment, names: seq<Name>, complete: bool): Deployment {
    d.(annotations := AnnotationsOf(names, complete),
       template := d.template.(volumes := VolumesOf(names), mounts := MountsOf(names)))
  }

  ghost function Rulesets(o: Oracle, w: World, k: Key, v: Versioned, found: Versioned): (World, Outcome)
    requires v.obj.ProxyObject? && found.obj.DeploymentObject?
  {
    var d := found.obj.deployment;
    var (w1, seen, answered) := Collect(o, w, k.ns, v.obj.spec.rulesets, []);
    if SeenChanged(d, seen, answered) then
      var (w2, names, complete) := Collect(o, w1, k.ns, v.obj.spec.rulesets, []);
      UpdateOnly(o, w2, k, DepRef(k), Sending(found, Remounted(d, names, complete)))
    else Exposed(o, w1, k, v, found)
  }

  ghost function Exposed(o: Oracle, w: World, k: Key, v: Versioned, found: Versioned): (World, Outcome)
    requires v.obj.ProxyObject? && found.obj.DeploymentObject?
  {
    var (w1, got) := Get(o, w, SvcRef(k));
    if got.Err? then
      if got.error.NotFound? then CreateService(o, w1, k, v) else (w1, Failed(got.error))
    else
      var depDiffers := DeepDiffers(ContainerPorts(v.obj.spec.ports), found.obj.deployment.template.ports);
      var svcDiffers := DeepDiffers(ServicePorts(v.obj.spec.ports), got.value.obj.service.ports);
      if depDiffers || svcDiffers then AlignPorts(o, w1, k, v, found, got.value, depDiffers, svcDiffers)
      else
        Finish(o, w1, ProxyRef(k), Status,
               Reporting(v, AVAILABLE, True, "Reconciling", Ready(v.obj.spec.size)), Done)
  }

  function Ported(d: Deployment, ports: seq<uint16>): Deployment {
    d.(template := d.template.(ports := ContainerPorts(ports)))
  }

  /** The service is updated even when the deployment could not be, as long as that was reported. */
  ghost function AlignPorts(o: Oracle, w: World, k: Key, v: Versioned, found: Versioned, sfound: Versioned,
                            depDiffers: bool, svcDiffers: bool): (World, Outcome)
    requires v.obj.ProxyObject? && found.obj.DeploymentObject? && sfound.obj.ServiceObject?
  {
    var (w1, err) :=
      if depDiffers then
        UpdateWorkload(o, w, k, DepRef(k), Sending(found, Ported(found.obj.deployment, v.obj.spec.ports)))
      else (w, None);
    if err.Some? then (w1, Failed(err.value))
    else if !svcDiffers then (w1, Requeue)
    else
      UpdateOnly(o, w1, k, SvcRef(k),
        sfound.(obj := ServiceObject(sfound.obj.service.(ports := ServicePorts(v.obj.spec.ports)))))
  }

  ghost function ReportFailure(o: Oracle, w: World, k: Key, v: Versioned, kind: Kind, why: ApiError): (World, Outcome)
    requires v.obj.ProxyObject?
  {
    Finish(o, w, ProxyRef(k), Status,
           Reporting(v, AVAILABLE, False, "Reconciling", CannotCreate(kind, why)), Failed(why))
  }

  ghost function CreateDeployment(o: Oracle, w: World, k: Key, v: Versioned): (World, Outcome)
    requires v.obj.ProxyObject?
  {
    var (w1, names, complete) := Collect(o, w, k.ns, v.obj.spec.rulesets, []);
    if !complete then ReportFailure(o, w1, k, v, DeploymentKind, Unavailable)
    else
      var (w2, owned) := Local(o, w1);
      if !owned then ReportFailure(o, w2, k, v, DeploymentKind, OwnerReference)
      else
        var (w3, made) := Create(o, w2, DepRef(k),
                                 DeploymentObject(DeploymentFor(k, v.obj.cr, v.obj.spec, names)));
        if made.Err? then ReportFailure(o, w3, k, v, DeploymentKind, made.error) else (w3, Requeue)
  }

  /** Unlike a Deployment, a Service that cannot be created leaves no trace in the status. */
  ghost function CreateService(o: Oracle, w: World, k: Key, v: Versioned): (World, Outcome)
    requires v.obj.ProxyObject?
  {
    var (w1, owned) := Local(o, w);
    if !owned then ReportFailure(o, w1, k, v, ServiceKind, OwnerReference)
    else
      var (w2, made) := Create(o, w1, SvcRef(k), ServiceObject(ServiceFor(k, v.obj.cr, v.obj.spec)));
      (w2, if made.Err? then Failed(made.error) else Requeue)
  }

  /** The same pass again and again. */
  ghost function ProxyRepeated(o: Oracle, w: World, k: Key, passes: nat): World
    decreases passes
  {
    if passes == 0 then w else ProxyRepeated(o, ProxyPass(o, w, k).0, k, passes - 1)
  }

  /** What each pass does to a claim about n passes left, all of them do. */
  ghost predicate ProxyCarries(o: Oracle, k: Key, claim: (nat, World) -> bool) {
    forall n: nat, x: World | n > 0 && claim(n, x) :: claim(n - 1, ProxyPass(o, x, k).0)
  }

  lemma {:induction false} ProxyThroughout(o: Oracle, k: Key, claim: (nat, World) -> bool, w: World, passes: nat)
    requires claim(passes, w) && ProxyCarries(o, k, claim)
    ensures claim(0, ProxyRepeated(o, w, k, passes))
    decreases passes
  {
    if passes > 0 { ProxyThroughout(o, k, claim, ProxyPass(o, w, k).0, passes - 1); }
  }
}
