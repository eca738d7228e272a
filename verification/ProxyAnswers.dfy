/** What a pass of the proxy controller sends, what it answers, and what its status writes
    are worth: for any oracle whatever, so with any faults and anybody acting in between. */
module ProxyAnswers {
  import opened Text
  import opened Objects
  import opened Api
  import opened Workloads
  import opened ProxyPasses
  import opened Guarantees
  import opened Answers

  // ---- what is sent, and what is answered -------------------------------

  function Unavailing(kind: Kind, why: ApiError): Condition {
    Condition(AVAILABLE, False, "Reconciling", CannotUpdate(kind, why))
  }

  function Confirmed(spec: ProxySpec): Condition {
    Condition(AVAILABLE, True, "Reconciling", Ready(spec.size))
  }

  /** An update of a workload. If it fails, the proxy is read again and told so with
      Available=False; the answer is then an error only if that fails too. */
  ghost predicate Attempts(log: seq<Event>, n: nat, k: Key, r: Ref, s: seq<Post>, out: Outcome) {
    && s != [] && s[0].call.ToUpdate? && s[0].call.ref == r && s[0].call.part.Main?
    && (s[0].error.None? ==> |s| == 1 && out == Requeue)
    && (s[0].error.Some? && |s| == 1 ==> out.Failed?)
    && (|s| > 1 ==>
          && |s| == 2 && Puts(log, n, s[1], ProxyRef(k), Unavailing(r.kind, s[0].error.value))
          && out == Ended(s[1], Requeue))
  }

  /** What could not be built is reported, and the answer is an error. */
  ghost predicate GivesUp(log: seq<Event>, n: nat, k: Key, kind: Kind, why: ApiError, s: seq<Post>, out: Outcome) {
    |s| == 1 && Puts(log, n, s[0], ProxyRef(k), Uncreated(kind, why)) && out == Ended(s[0], Failed(why))
  }

  predicate Builds(k: Key, v: Object, p: Post) {
    && v.ProxyObject? && p.call.ToCreate? && p.call.ref == DepRef(k)
    && p.call.obj.DeploymentObject? && BuiltFor(k, v.cr, v.spec, p.call.obj.deployment)
  }

  ghost predicate CreatesDeployment(log: seq<Event>, n: nat, k: Key, v: Object, s: seq<Post>, out: Outcome) {
    && s != [] && Builds(k, v, s[0])
    && if s[0].error.None? then |s| == 1 && out == Requeue
       else
         && |s| == 2 && Puts(log, n, s[1], ProxyRef(k), Uncreated(DeploymentKind, s[0].error.value))
         && out == Ended(s[1], Failed(s[0].error.value))
  }

  /** A failed creation of a Service is answered with its error, and not reported. */
  ghost predicate CreatesService(k: Key, v: Object, s: seq<Post>, out: Outcome) {
    && v.ProxyObject? && |s| == 1 && s[0].call.ToCreate? && s[0].call.ref == SvcRef(k)
    && s[0].call.obj.ServiceObject? && ServesFor(k, v.cr, v.spec, s[0].call.obj.service)
    && out == Ended(s[0], Requeue)
  }

  /** The Deployment was read, and updated for its size or its mounts. */
  ghost predicate Adjusts(log: seq<Event>, n: nat, k: Key, spec: ProxySpec, s: seq<Post>, out: Outcome) {
    && Attempts(log, n, k, DepRef(k), s, out)
    && exists d :: Seen(log, n, DepRef(k), DeploymentObject(d)) && (d.replicas != spec.size || CONF in d.annotations)
  }

  /** Both were read, and what differs in its ports was updated: the Service also when the
      Deployment could not be, as long as that was reported. */
  ghost predicate Aligns(log: seq<Event>, n: nat, k: Key, spec: ProxySpec, s: seq<Post>, out: Outcome) {
    exists d, e ::
      && Seen(log, n, DepRef(k), DeploymentObject(d)) && Seen(log, n, SvcRef(k), ServiceObject(e))
      && AlignsBoth(log, n, k, DeepDiffers(ContainerPorts(spec.ports), d.template.ports),
                    DeepDiffers(ServicePorts(spec.ports), e.ports), s, out)
  }

  ghost predicate AlignsBoth(log: seq<Event>, n: nat, k: Key, dep: bool, svc: bool, s: seq<Post>, out: Outcome) {
    if dep && svc then
      || (out.Failed? && Attempts(log, n, k, DepRef(k), s, out))
      || (exists i | 0 <= i <= |s| ::
            Attempts(log, n, k, DepRef(k), s[..i], Requeue) && Attempts(log, n, k, SvcRef(k), s[i..], out))
    else if dep then Attempts(log, n, k, DepRef(k), s, out)
    else svc && Attempts(log, n, k, SvcRef(k), s, out)
  }

  /** Both were read, with the size and the ports that are wanted. */
  ghost predicate Verified(log: seq<Event>, n: nat, k: Key, spec: ProxySpec) {
    exists d, e ::
      && Seen(log, n, DepRef(k), DeploymentObject(d)) && Seen(log, n, SvcRef(k), ServiceObject(e))
      && d.replicas == spec.size && spec.ports != []
      && d.template.ports == ContainerPorts(spec.ports) && e.ports == ServicePorts(spec.ports)
  }

  ghost predicate Confirms(log: seq<Event>, n: nat, k: Key, spec: ProxySpec, s: seq<Post>, out: Outcome) {
    && |s| == 1 && Verified(log, n, k, spec) && Puts(log, n, s[0], ProxyRef(k), Confirmed(spec))
    && out == Ended(s[0], Done)
  }

  /** All that a pass on a live proxy can come to. */
  ghost predicate Works(log: seq<Event>, n: nat, k: Key, v: Object, s: seq<Post>, out: Outcome) {
    && v.ProxyObject?
    && (|| Blind(s, out)
        || GivesUp(log, n, k, DeploymentKind, Unavailable, s, out)
        || GivesUp(log, n, k, DeploymentKind, OwnerReference, s, out)
        || GivesUp(log, n, k, ServiceKind, OwnerReference, s, out)
        || CreatesDeployment(log, n, k, v, s, out)
        || CreatesService(k, v, s, out)
        || Adjusts(log, n, k, v.spec, s, out)
        || Aligns(log, n, k, v.spec, s, out)
        || Confirms(log, n, k, v.spec, s, out))
  }

  /** The finalization: two status writes and the removal, each only after the one before. */
  ghost predicate Finalizes(log: seq<Event>, n: nat, k: Key, s: seq<Post>, out: Outcome) {
    && s != [] && Puts(log, n, s[0], ProxyRef(k), Condition(DEGRADED, Unknown, "Finalizing", Finalizing))
    && (s[0].error.Some? ==> |s| == 1)
    && if |s| == 1 then out.Failed? && (s[0].error.Some? ==> out == Failed(s[0].error.value))
       else
         && Puts(log, n, s[1], ProxyRef(k), CLEANED) && (s[1].error.Some? ==> |s| == 2)
         && if |s| == 2 then out == Ended(s[1], Failed(NotRemoved))
            else |s| == 3 && Releases(s[2], ProxyRef(k)) && out == Ended(s[2], Done)
  }

  /** An update of the object that leaves it without our finalizer. */
  predicate Releases(p: Post, r: Ref) {
    && p.call.ToUpdate? && p.call.ref == r && p.call.part.Main? && p.call.sent.obj.IsResource()
    && FINALIZER !in p.call.sent.obj.cr.finalizers
  }

  /** All that a pass can come to, by the proxy that it read first. */
  ghost predicate Passes(log: seq<Event>, n: nat, k: Key, v: Object, s: seq<Post>, out: Outcome) {
    && v.ProxyObject?
    && if v.cr.conditions == [] then
         && |s| == 1 && out == Ended(s[0], Requeue)
         && Puts(log, n, s[0], ProxyRef(k), Condition(AVAILABLE, Unknown, "Reconciling", Starting))
       else if FINALIZER !in v.cr.finalizers then
         |s| == 1 && out == Ended(s[0], Requeue) && Claims(s[0], ProxyRef(k))
       else if v.cr.deleting then Finalizes(log, n, k, s, out)
       else Works(log, n, k, v, s, out)
  }

  // ---- that it does -----------------------------------------------------

  lemma UpdateAttempts(o: Oracle, w: World, k: Key, r: Ref, sent: Versioned, n: nat) returns (s: seq<Post>)
    requires n <= |w.log| && sent.obj.Kind() == r.kind
    ensures var (x, out) := UpdateOnly(o, w, k, r, sent);
            Sends(w, x, s) && Attempts(x.log, n, k, r, s, out)
  {
    var (x, told) := Update(o, w, r, Main, sent);
    UpdateSends(o, w, r, Main, sent);
    s := [Posted(o, w, ToUpdate(r, Main, sent), told)];
    if told.Err? {
      var (y, again) := Get(o, x, ProxyRef(k));
      GetSees(o, x, ProxyRef(k), n);
      if again.Ok? {
        var p := ReportSends(o, y, ProxyRef(k), again.value, Unavailing(r.kind, told.error), n);
        s := s + [p];
      }
    }
  }

  lemma FailureGivesUp(o: Oracle, w: World, k: Key, v: Versioned, kind: Kind, why: ApiError,
                       n: nat) returns (s: seq<Post>)
    requires n <= |w.log| && v.obj.ProxyObject? && Seen(w.log, n, ProxyRef(k), v.obj)
    ensures var (x, out) := ReportFailure(o, w, k, v, kind, why);
            Sends(w, x, s) && GivesUp(x.log, n, k, kind, why, s, out)
  {
    var p := ReportSends(o, w, ProxyRef(k), v, Uncreated(kind, why), n);
    s := [p];
  }

  lemma {:induction false} RefusedCreation(w: World, z: World, x: World, n: nat, k: Key, v: Object, p: Post,
                                           t: seq<Post>, s: seq<Post>, out: Outcome)
    requires Sends(w, z, [p]) && Sends(z, x, t) && s == [p] + t && Builds(k, v, p) && p.error.Some?
    requires GivesUp(x.log, n, k, DeploymentKind, p.error.value, t, out)
    ensures Sends(w, x, s) && CreatesDeployment(x.log, n, k, v, s, out)
  {
    assert s == [p, t[0]];
  }

  /** The creation itself. */
  lemma {:induction false} DeploymentMade(o: Oracle, w: World, k: Key, v: Versioned, d: Deployment, n: nat)
    returns (s: seq<Post>)
    requires n <= |w.log| && v.obj.ProxyObject? && Seen(w.log, n, ProxyRef(k), v.obj)
    requires BuiltFor(k, v.obj.cr, v.obj.spec, d)
    ensures var (z, made) := Create(o, w, DepRef(k), DeploymentObject(d));
            var (x, out) := if made.Err? then ReportFailure(o, z, k, v, DeploymentKind, made.error) else (z, Requeue);
            Sends(w, x, s) && CreatesDeployment(x.log, n, k, v.obj, s, out)
  {
    var (z, made) := Create(o, w, DepRef(k), DeploymentObject(d));
    CreateSends(o, w, DepRef(k), DeploymentObject(d));
    var p := Posted(o, w, ToCreate(DepRef(k), DeploymentObject(d)), made);
    s := [p];
    if made.Err? {
      SeenLater(w, z, n, ProxyRef(k), v.obj);
      var t := FailureGivesUp(o, z, k, v, DeploymentKind, made.error, n);
      var (x, out) := ReportFailure(o, z, k, v, DeploymentKind, made.error);
      s := [p] + t;
      RefusedCreation(w, z, x, n, k, v.obj, p, t, s, out);
    }
  }

  lemma {:induction false} GivingUpWorks(w: World, x: World, y: World, n: nat, k: Key, v: Object, kind: Kind,
                                         why: ApiError,
                                         s: seq<Post>, out: Outcome)
    requires Sends(w, x, []) && Sends(x, y, s) && GivesUp(y.log, n, k, kind, why, s, out) && v.ProxyObject?
    requires (kind == DeploymentKind && why == Unavailable)
             || (kind in {DeploymentKind, ServiceKind} && why == OwnerReference)
    ensures Sends(w, y, s) && Works(y.log, n, k, v, s, out)
  {
  }

  lemma {:induction false} CreationIsWork(log: seq<Event>, n: nat, k: Key, v: Object, s: seq<Post>, out: Outcome)
    requires CreatesDeployment(log, n, k, v, s, out) && v.ProxyObject?
    ensures Works(log, n, k, v, s, out)
  {
  }

  lemma {:induction false} CreatingWorks(w: World, x: World, y: World, n: nat, k: Key, v: Object, s: seq<Post>,
                                         out: Outcome)
    requires Sends(w, x, []) && Sends(x, y, s) && CreatesDeployment(y.log, n, k, v, s, out) && v.ProxyObject?
    ensures Sends(w, y, s) && Works(y.log, n, k, v, s, out)
  {
    CreationIsWork(y.log, n, k, v, s, out);
  }

  lemma {:induction false} DeploymentCreates(o: Oracle, w: World, k: Key, v: Versioned, n: nat) returns (s: seq<Post>)
    requires n <= |w.log| && v.obj.ProxyObject? && Seen(w.log, n, ProxyRef(k), v.obj)
    ensures var (x, out) := CreateDeployment(o, w, k, v); Sends(w, x, s) && Works(x.log, n, k, v.obj, s, out)
  {
    var (x, names, complete) := Collect(o, w, k.ns, v.obj.spec.rulesets, []);
    var (z, out) := CreateDeployment(o, w, k, v);
    CollectSends(o, w, k.ns, v.obj.spec.rulesets, []);
    SeenLater(w, x, n, ProxyRef(k), v.obj);
    if !complete {
      s := FailureGivesUp(o, x, k, v, DeploymentKind, Unavailable, n);
      GivingUpWorks(w, x, z, n, k, v.obj, DeploymentKind, Unavailable, s, out);
    } else {
      var (y, owned) := Local(o, x);
      if !owned {
        s := FailureGivesUp(o, y, k, v, DeploymentKind, OwnerReference, n);
        GivingUpWorks(w, y, z, n, k, v.obj, DeploymentKind, OwnerReference, s, out);
      } else {
        DeploymentAsAsked(k, v.obj.cr, v.obj.spec, names);
        s := DeploymentMade(o, y, k, v, DeploymentFor(k, v.obj.cr, v.obj.spec, names), n);
        CreatingWorks(w, y, z, n, k, v.obj, s, out);
      }
    }
  }

  lemma ServiceCreates(o: Oracle, w: World, k: Key, v: Versioned, n: nat) returns (s: seq<Post>)
    requires n <= |w.log| && v.obj.ProxyObject? && Seen(w.log, n, ProxyRef(k), v.obj)
    ensures var (x, out) := CreateService(o, w, k, v); Sends(w, x, s) && Works(x.log, n, k, v.obj, s, out)
  {
    var (x, owned) := Local(o, w);
    if !owned {
      s := FailureGivesUp(o, x, k, v, ServiceKind, OwnerReference, n);
    } else {
      var obj := ServiceObject(ServiceFor(k, v.obj.cr, v.obj.spec));
      CreateSends(o, x, SvcRef(k), obj);
      s := [Posted(o, x, ToCreate(SvcRef(k), obj), Create(o, x, SvcRef(k), obj).1)];
    }
  }

  lemma AttemptsLater(w: World, x: World, n: nat, k: Key, r: Ref, s: seq<Post>, out: Outcome)
    requires w.log <= x.log && Attempts(w.log, n, k, r, s, out)
    ensures Attempts(x.log, n, k, r, s, out)
  {
    if |s| == 2 { PutsLater(w, x, n, s[1], ProxyRef(k), Unavailing(r.kind, s[0].error.value)); }
  }

  lemma {:induction false} OneThenOther(w: World, y: World, x: World, n: nat, k: Key, s: seq<Post>, t: seq<Post>,
                                        out: Outcome)
    requires Sends(w, y, s) && Sends(y, x, t)
    requires Attempts(y.log, n, k, DepRef(k), s, Requeue) && Attempts(x.log, n, k, SvcRef(k), t, out)
    ensures Sends(w, x, s + t) && AlignsBoth(x.log, n, k, true, true, s + t, out)
  {
    AttemptsLater(y, x, n, k, DepRef(k), s, Requeue);
    assert (s + t)[..|s|] == s && (s + t)[|s|..] == t;
  }

  lemma {:induction false} BothAlign(o: Oracle, w: World, k: Key, a: Versioned, b: Versioned, n: nat)
    returns (s: seq<Post>)
    requires n <= |w.log| && a.obj.DeploymentObject? && b.obj.ServiceObject?
    ensures var (y, err) := UpdateWorkload(o, w, k, DepRef(k), a);
            var (x, out) := if err.Some? then (y, Failed(err.value)) else UpdateOnly(o, y, k, SvcRef(k), b);
            Sends(w, x, s) && AlignsBoth(x.log, n, k, true, true, s, out)
  {
    var (y, err) := UpdateWorkload(o, w, k, DepRef(k), a);
    s := UpdateAttempts(o, w, k, DepRef(k), a, n);
    if err.None? {
      var (x, out) := UpdateOnly(o, y, k, SvcRef(k), b);
      var t := UpdateAttempts(o, y, k, SvcRef(k), b, n);
      OneThenOther(w, y, x, n, k, s, t, out);
      s := s + t;
    }
  }

  lemma {:induction false} PortsAlign(o: Oracle, w: World, k: Key, v: Versioned, found: Versioned, sfound: Versioned,
                                      dep: bool, svc: bool, n: nat) returns (s: seq<Post>)
    requires n <= |w.log| && v.obj.ProxyObject? && found.obj.DeploymentObject? && sfound.obj.ServiceObject?
    requires dep || svc
    ensures var (x, out) := AlignPorts(o, w, k, v, found, sfound, dep, svc);
            Sends(w, x, s) && AlignsBoth(x.log, n, k, dep, svc, s, out)
  {
    var a := Sending(found, Ported(found.obj.deployment, v.obj.spec.ports));
    var b := sfound.(obj := ServiceObject(sfound.obj.service.(ports := ServicePorts(v.obj.spec.ports))));
    if dep && svc {
      s := BothAlign(o, w, k, a, b, n);
    } else if dep {
      s := UpdateAttempts(o, w, k, DepRef(k), a, n);
    } else {
      s := UpdateAttempts(o, w, k, SvcRef(k), b, n);
    }
  }

  // ---- the whole of it --------------------------------------------------

  lemma {:induction false} ExposedWorks(o: Oracle, w: World, k: Key, v: Versioned, found: Versioned, n: nat)
    returns (s: seq<Post>)
    requires n <= |w.log| && v.obj.ProxyObject? && Seen(w.log, n, ProxyRef(k), v.obj)
    requires found.obj.DeploymentObject? && Seen(w.log, n, DepRef(k), found.obj)
    requires found.obj.deployment.replicas == v.obj.spec.size
    ensures var (x, out) := Exposed(o, w, k, v, found); Sends(w, x, s) && Works(x.log, n, k, v.obj, s, out)
  {
    var (x, got) := Get(o, w, SvcRef(k));
    var (z, out) := Exposed(o, w, k, v, found);
    GetSees(o, w, SvcRef(k), n);
    SeenLater(w, x, n, ProxyRef(k), v.obj);
    SeenLater(w, x, n, DepRef(k), found.obj);
    s := [];
    if got.Err? {
      if got.error.NotFound? { s := ServiceCreates(o, x, k, v, n); }
    } else {
      var ports := v.obj.spec.ports;
      var dep := DeepDiffers(ContainerPorts(ports), found.obj.deployment.template.ports);
      var svc := DeepDiffers(ServicePorts(ports), got.value.obj.service.ports);
      if dep || svc {
        s := PortsAlign(o, x, k, v, found, got.value, dep, svc, n);
        AligningWorks(w, x, z, n, k, v.obj, found.obj.deployment, got.value.obj.service, s, out);
      } else {
        var p := ReportSends(o, x, ProxyRef(k), v, Confirmed(v.obj.spec), n);
        s := [p];
        ConfirmingWorks(w, x, z, n, k, v.obj, found.obj.deployment, got.value.obj.service, p, out);
      }
    }
  }

  lemma {:induction false} AligningWorks(w: World, x: World, z: World, n: nat, k: Key, v: Object, d: Deployment,
                                         e: Service,
                                         s: seq<Post>, out: Outcome)
    requires Sends(w, x, []) && Sends(x, z, s) && v.ProxyObject?
    requires Seen(x.log, n, DepRef(k), DeploymentObject(d)) && Seen(x.log, n, SvcRef(k), ServiceObject(e))
    requires AlignsBoth(z.log, n, k, DeepDiffers(ContainerPorts(v.spec.ports), d.template.ports),
                        DeepDiffers(ServicePorts(v.spec.ports), e.ports), s, out)
    ensures Sends(w, z, s) && Works(z.log, n, k, v, s, out)
  {
    SeenLater(x, z, n, DepRef(k), DeploymentObject(d));
    SeenLater(x, z, n, SvcRef(k), ServiceObject(e));
    assert Aligns(z.log, n, k, v.spec, s, out);
  }

  lemma {:induction false} ConfirmingWorks(w: World, x: World, z: World, n: nat, k: Key, v: Object, d: Deployment,
                                           e: Service,
                                           p: Post, out: Outcome)
    requires Sends(w, x, []) && Sends(x, z, [p]) && v.ProxyObject?
    requires Seen(x.log, n, DepRef(k), DeploymentObject(d)) && Seen(x.log, n, SvcRef(k), ServiceObject(e))
    requires d.replicas == v.spec.size && !DeepDiffers(ContainerPorts(v.spec.ports), d.template.ports)
    requires !DeepDiffers(ServicePorts(v.spec.ports), e.ports)
    requires Puts(z.log, n, p, ProxyRef(k), Confirmed(v.spec)) && out == Ended(p, Done)
    ensures Sends(w, z, [p]) && Works(z.log, n, k, v, [p], out)
  {
    SeenLater(x, z, n, DepRef(k), DeploymentObject(d));
    SeenLater(x, z, n, SvcRef(k), ServiceObject(e));
    assert Verified(z.log, n, k, v.spec);
  }

  lemma {:induction false} AdjustingWorks(w: World, x: World, z: World, n: nat, k: Key, v: Object, d: Deployment,
                                          s: seq<Post>, out: Outcome)
    requires Sends(w, x, []) && Sends(x, z, s) && v.ProxyObject? && Seen(x.log, n, DepRef(k), DeploymentObject(d))
    requires d.replicas != v.spec.size || CONF in d.annotations
    requires Attempts(z.log, n, k, DepRef(k), s, out)
    ensures Sends(w, z, s) && Works(z.log, n, k, v, s, out)
  {
    SeenLater(x, z, n, DepRef(k), DeploymentObject(d));
    assert Adjusts(z.log, n, k, v.spec, s, out);
  }

  lemma {:induction false} RulesetsWorks(o: Oracle, w: World, k: Key, v: Versioned, found: Versioned, n: nat)
    returns (s: seq<Post>)
    requires n <= |w.log| && v.obj.ProxyObject? && Seen(w.log, n, ProxyRef(k), v.obj)
    requires found.obj.DeploymentObject? && Seen(w.log, n, DepRef(k), found.obj)
    requires found.obj.deployment.replicas == v.obj.spec.size
    ensures var (x, out) := Rulesets(o, w, k, v, found); Sends(w, x, s) && Works(x.log, n, k, v.obj, s, out)
  {
    var d := found.obj.deployment;
    var (x, seen, answered) := Collect(o, w, k.ns, v.obj.spec.rulesets, []);
    CollectSends(o, w, k.ns, v.obj.spec.rulesets, []);
    SeenLater(w, x, n, DepRef(k), found.obj);
    if SeenChanged(d, seen, answered) {
      var (y, names, complete) := Collect(o, x, k.ns, v.obj.spec.rulesets, []);
      CollectSends(o, x, k.ns, v.obj.spec.rulesets, []);
      SeenLater(x, y, n, DepRef(k), found.obj);
      var sent := Sending(found, Remounted(d, names, complete));
      var (z, out) := UpdateOnly(o, y, k, DepRef(k), sent);
      s := UpdateAttempts(o, y, k, DepRef(k), sent, n);
      SendsTransitive(w, x, y, [], []);
      AdjustingWorks(w, y, z, n, k, v.obj, d, s, out);
    } else {
      SeenLater(w, x, n, ProxyRef(k), v.obj);
      s := ExposedWorks(o, x, k, v, found, n);
      SendsTransitive(w, x, Exposed(o, x, k, v, found).0, [], s);
      assert [] + s == s;
    }
  }

  lemma {:induction false} WorkWorks(o: Oracle, w: World, k: Key, v: Versioned, n: nat) returns (s: seq<Post>)
    requires n <= |w.log| && v.obj.ProxyObject? && Seen(w.log, n, ProxyRef(k), v.obj)
    ensures var (x, out) := Work(o, w, k, v); Sends(w, x, s) && Works(x.log, n, k, v.obj, s, out)
  {
    var (x, got) := Get(o, w, DepRef(k));
    var (z, out) := Work(o, w, k, v);
    GetSees(o, w, DepRef(k), n);
    SeenLater(w, x, n, ProxyRef(k), v.obj);
    s := [];
    if got.Err? {
      if got.error.NotFound? { s := DeploymentCreates(o, x, k, v, n); }
    } else {
      var d := got.value.obj.deployment;
      if d.replicas != v.obj.spec.size {
        var sent := Sending(got.value, d.(replicas := v.obj.spec.size));
        s := UpdateAttempts(o, x, k, DepRef(k), sent, n);
        AdjustingWorks(w, x, z, n, k, v.obj, d, s, out);
      } else {
        s := RulesetsWorks(o, x, k, v, got.value, n);
      }
    }
  }

  /** The copy may have been read with our finalizer gone already; then nothing is removed. */
  lemma {:induction false} FinalizeAgainSends(o: Oracle, w: World, k: Key, v: Versioned, n: nat) returns (s: seq<Post>)
    requires n <= |w.log| && v.obj.ProxyObject? && Seen(w.log, n, ProxyRef(k), v.obj)
    ensures var (x, out) := FinalizeAgain(o, w, k, v);
            && Sends(w, x, s) && s != [] && Puts(x.log, n, s[0], ProxyRef(k), CLEANED)
            && (s[0].error.Some? ==> |s| == 1)
            && if |s| == 1 then out == Ended(s[0], Failed(NotRemoved))
               else |s| == 2 && Releases(s[1], ProxyRef(k)) && out == Ended(s[1], Done)
  {
    var r := ProxyRef(k);
    var (x, told) := Update(o, w, r, Status, Reporting(v, DEGRADED, True, "Finalizing", Finalized));
    var p := ReportSends(o, w, r, v, CLEANED, n);
    s := [p];
    if told.Ok? {
      var left := RemoveFinalizer(told.value.obj.cr.finalizers);
      if left != told.value.obj.cr.finalizers {
        RemoveFinalizerDropsOwn(told.value.obj.cr.finalizers);
        var q := FinishSends(o, x, r, Main, WithFinalizers(told.value, left), Done);
        PutsLater(x, FinalizeAgain(o, w, k, v).0, n, p, r, CLEANED);
        s := [p, q];
      }
    }
  }

  lemma {:induction false} FinalizeSends(o: Oracle, w: World, k: Key, v: Versioned, n: nat) returns (s: seq<Post>)
    requires n <= |w.log| && v.obj.ProxyObject? && Seen(w.log, n, ProxyRef(k), v.obj)
    ensures var (x, out) := Finalize(o, w, k, v); Sends(w, x, s) && Finalizes(x.log, n, k, s, out)
  {
    var r, c := ProxyRef(k), Condition(DEGRADED, Unknown, "Finalizing", Finalizing);
    var (x, told) := Update(o, w, r, Status, Reporting(v, DEGRADED, Unknown, "Finalizing", Finalizing));
    var p := ReportSends(o, w, r, v, c, n);
    s := [p];
    if told.Ok? {
      var (y, again) := Get(o, x, r);
      GetSees(o, x, r, n);
      if again.Ok? {
        var t := FinalizeAgainSends(o, y, k, again.value, n);
        s := [p] + t;
        var (z, out) := FinalizeAgain(o, y, k, again.value);
        FinalizingGoesOn(w, x, y, z, n, k, p, t, s, out);
      } else {
        PutsLater(x, y, n, p, r, c);
      }
    }
  }

  lemma {:induction false} FinalizingGoesOn(w: World, x: World, y: World, z: World, n: nat, k: Key, p: Post,
                                            t: seq<Post>, s: seq<Post>, out: Outcome)
    requires Sends(w, x, [p]) && Sends(x, y, []) && Sends(y, z, t) && s == [p] + t && p.error.None?
    requires Puts(x.log, n, p, ProxyRef(k), Condition(DEGRADED, Unknown, "Finalizing", Finalizing))
    requires t != [] && Puts(z.log, n, t[0], ProxyRef(k), CLEANED) && (t[0].error.Some? ==> |t| == 1)
    requires if |t| == 1 then out == Ended(t[0], Failed(NotRemoved))
             else |t| == 2 && Releases(t[1], ProxyRef(k)) && out == Ended(t[1], Done)
    ensures Sends(w, z, s) && Finalizes(z.log, n, k, s, out)
  {
    PutsLater(x, z, n, p, ProxyRef(k), Condition(DEGRADED, Unknown, "Finalizing", Finalizing));
    assert s[0] == p && s[1] == t[0] && (|t| == 2 ==> s[2] == t[1]);
  }

  /** For any oracle: a pass whose first read is not answered fails, one that finds no proxy is
      done, and neither sends or changes anything; any other is one of those listed above, for
      the proxy that it has read. */
  lemma {:induction false} PassAnswers(o: Oracle, w: World, k: Key) returns (s: seq<Post>)
    ensures var (x, out) := ProxyPass(o, w, k);
            && Sends(w, x, s)
            && if x.log == w.log then
                 x == Arrive(o, w) && NothingRead(o.fate(w.calls), o.interfere(w.calls, w.c), ProxyRef(k), s, out)
               else
                 && x.log[|w.log|].Read? && x.log[|w.log|].ref == ProxyRef(k)
                 && Passes(x.log, |w.log|, k, x.log[|w.log|].obj, s, out)
  {
    var r, n := ProxyRef(k), |w.log|;
    var (y, got) := Get(o, w, r);
    var (x, out) := ProxyPass(o, w, k);
    GetSees(o, w, r, n);
    s := [];
    if got.Ok? {
      var v := got.value;
      s := ReadPasses(o, y, k, v, n);
      SendsTransitive(w, y, x, [], s);
      assert [] + s == s && y.log[n] == Read(r, v.obj);
    }
  }

  /** From the first read on. */
  ghost function PassFrom(o: Oracle, w: World, k: Key, v: Versioned): (World, Outcome)
    requires v.obj.ProxyObject?
  {
    var cr := v.obj.cr;
    if cr.conditions == [] then InitStatus(o, w, ProxyRef(k), v)
    else if FINALIZER !in cr.finalizers then ClaimFinalizer(o, w, ProxyRef(k), v)
    else if cr.deleting then Finalize(o, w, k, v)
    else Work(o, w, k, v)
  }

  lemma {:induction false} ReadPasses(o: Oracle, w: World, k: Key, v: Versioned, n: nat) returns (s: seq<Post>)
    requires n <= |w.log| && v.obj.ProxyObject? && Seen(w.log, n, ProxyRef(k), v.obj)
    ensures var (x, out) := PassFrom(o, w, k, v); Sends(w, x, s) && Passes(x.log, n, k, v.obj, s, out)
  {
    var r, cr := ProxyRef(k), v.obj.cr;
    if cr.conditions == [] {
      var p := ReportSends(o, w, r, v, Condition(AVAILABLE, Unknown, "Reconciling", Starting), n);
      s := [p];
    } else if FINALIZER !in cr.finalizers {
      var p := FinishSends(o, w, r, Main, WithFinalizers(v, AddFinalizer(cr.finalizers)), Requeue);
      s := [p];
    } else if cr.deleting {
      s := FinalizeSends(o, w, k, v, n);
    } else {
      s := WorkWorks(o, w, k, v, n);
    }
  }

  // ---- what that is worth -----------------------------------------------

  /** Whatever the write says of Available=True was so in a copy of the proxy that the pass has
      read; or it is for the wanted size, and both workloads were read as they are wanted. */
  ghost predicate Earned(log: seq<Event>, n: nat, k: Key, spec: ProxySpec, p: Post) {
    StatusOf(p, ProxyRef(k)) ==>
      forall c | c in p.call.sent.obj.cr.conditions && c.ctype == AVAILABLE && c.status == True ::
        || (c == Confirmed(spec) && Verified(log, n, k, spec))
        || exists was :: Seen(log, n, ProxyRef(k), was) && was.IsResource() && c in was.cr.conditions
  }

  /** It says Available=False. */
  predicate SaysUnavailable(p: Post, k: Key) {
    && StatusOf(p, ProxyRef(k))
    && exists c | c in p.call.sent.obj.cr.conditions :: c.ctype == AVAILABLE && c.status == False
  }

  predicate ForWorkload(p: Post) { !p.call.ToPatch? && p.call.ref.kind in {DeploymentKind, ServiceKind} }

  /** A write of a workload that has failed is told of, with success, by a later status write. */
  ghost predicate Told(k: Key, s: seq<Post>, i: nat) {
    exists j | i < j < |s| :: SaysUnavailable(s[j], k) && s[j].error.None?
  }

  /** Every status write that comes after one of a workload says Available=False; and a failed
      one is told of, unless the answer is an error. */
  ghost predicate Candid(k: Key, s: seq<Post>, out: Outcome) {
    && (forall i, j | 0 <= i < j < |s| && ForWorkload(s[i]) && StatusOf(s[j], ProxyRef(k)) :: SaysUnavailable(s[j], k))
    && (forall i | 0 <= i < |s| && ForWorkload(s[i]) && s[i].error.Some? && !out.Failed? :: Told(k, s, i))
  }

  /** Done is answered only after the last write, which succeeded, has confirmed both workloads
      or removed the finalizer; to be called again, only after a last write that succeeded. */
  ghost predicate AnswersWell(log: seq<Event>, n: nat, k: Key, spec: ProxySpec, s: seq<Post>, out: Outcome) {
    && (!out.Failed? ==> s != [] && s[|s| - 1].error.None?)
    && (out == Done ==>
          var p := s[|s| - 1];
          Releases(p, ProxyRef(k)) || (Puts(log, n, p, ProxyRef(k), Confirmed(spec)) && Verified(log, n, k, spec)))
  }

  predicate Within(k: Key, s: seq<Post>) {
    forall p | p in s :: !p.call.ToPatch? && p.call.ref in {ProxyRef(k), DepRef(k), SvcRef(k)}
  }

  lemma {:induction false} PutsEarned(log: seq<Event>, n: nat, k: Key, spec: ProxySpec, p: Post, c: Condition)
    requires Puts(log, n, p, ProxyRef(k), c)
    requires c.ctype == AVAILABLE && c.status == True ==> c == Confirmed(spec) && Verified(log, n, k, spec)
    ensures Earned(log, n, k, spec, p)
    ensures c.ctype == AVAILABLE && c.status == False ==> SaysUnavailable(p, k)
  {
    var was :| Seen(log, n, ProxyRef(k), was) && was.IsResource()
      && p.call.sent.obj.cr.conditions == SetCondition(was.cr.conditions, c);
    SetConditionHas(was.cr.conditions, c);
  }

  ghost predicate AllEarned(log: seq<Event>, n: nat, k: Key, spec: ProxySpec, s: seq<Post>) {
    forall p | p in s :: Earned(log, n, k, spec, p)
  }

  /** What all passes have in common. */
  ghost predicate Honest(log: seq<Event>, n: nat, k: Key, spec: ProxySpec, s: seq<Post>, out: Outcome) {
    AllEarned(log, n, k, spec, s) && Candid(k, s, out) && Within(k, s)
  }

  ghost predicate Sincere(log: seq<Event>, n: nat, k: Key, spec: ProxySpec, s: seq<Post>, out: Outcome) {
    Honest(log, n, k, spec, s, out) && AnswersWell(log, n, k, spec, s, out)
  }

  lemma {:induction false} AttemptsHonest(log: seq<Event>, n: nat, k: Key, spec: ProxySpec, r: Ref, s: seq<Post>,
                                          out: Outcome)
    requires Attempts(log, n, k, r, s, out) && r in {DepRef(k), SvcRef(k)}
    ensures Sincere(log, n, k, spec, s, out)
  {
    if |s| == 2 { PutsEarned(log, n, k, spec, s[1], Unavailing(r.kind, s[0].error.value)); }
  }

  lemma {:induction false} BothHonest(log: seq<Event>, n: nat, k: Key, spec: ProxySpec, s: seq<Post>, t: seq<Post>,
                                      out: Outcome)
    requires Attempts(log, n, k, DepRef(k), s, Requeue) && Attempts(log, n, k, SvcRef(k), t, out)
    ensures Honest(log, n, k, spec, s + t, out)
  {
    AttemptsHonest(log, n, k, spec, DepRef(k), s, Requeue);
    AttemptsHonest(log, n, k, spec, SvcRef(k), t, out);
    var u := s + t;
    forall i | 0 <= i < |u| && ForWorkload(u[i]) && u[i].error.Some? && !out.Failed? ensures Told(k, u, i) {
      if i < |s| {
        assert Told(k, s, i);
        var j :| i < j < |s| && SaysUnavailable(s[j], k) && s[j].error.None?;
        assert u[j] == s[j];
      } else {
        assert Told(k, t, i - |s|);
        var j :| i - |s| < j < |t| && SaysUnavailable(t[j], k) && t[j].error.None?;
        assert u[j + |s|] == t[j];
      }
    }
  }

  lemma {:induction false} BothSincere(log: seq<Event>, n: nat, k: Key, spec: ProxySpec, s: seq<Post>, i: nat,
                                       out: Outcome)
    requires i <= |s|
    requires Attempts(log, n, k, DepRef(k), s[..i], Requeue) && Attempts(log, n, k, SvcRef(k), s[i..], out)
    ensures Sincere(log, n, k, spec, s, out)
  {
    BothHonest(log, n, k, spec, s[..i], s[i..], out);
    AttemptsHonest(log, n, k, spec, SvcRef(k), s[i..], out);
    assert s[..i] + s[i..] == s;
  }

  lemma {:induction false} AlignsHonest(log: seq<Event>, n: nat, k: Key, spec: ProxySpec, dep: bool, svc: bool,
                                        s: seq<Post>, out: Outcome)
    requires AlignsBoth(log, n, k, dep, svc, s, out)
    ensures Sincere(log, n, k, spec, s, out)
  {
    if dep && svc && !(out.Failed? && Attempts(log, n, k, DepRef(k), s, out)) {
      var i :| 0 <= i <= |s|
        && Attempts(log, n, k, DepRef(k), s[..i], Requeue) && Attempts(log, n, k, SvcRef(k), s[i..], out);
      BothSincere(log, n, k, spec, s, i, out);
    } else {
      AttemptsHonest(log, n, k, spec, if dep then DepRef(k) else SvcRef(k), s, out);
    }
  }

  lemma {:induction false} AligningHonest(log: seq<Event>, n: nat, k: Key, spec: ProxySpec, s: seq<Post>, out: Outcome)
    requires Aligns(log, n, k, spec, s, out)
    ensures Sincere(log, n, k, spec, s, out)
  {
    var d, e :| Seen(log, n, DepRef(k), DeploymentObject(d)) && Seen(log, n, SvcRef(k), ServiceObject(e))
      && AlignsBoth(log, n, k, DeepDiffers(ContainerPorts(spec.ports), d.template.ports),
                    DeepDiffers(ServicePorts(spec.ports), e.ports), s, out);
    AlignsHonest(log, n, k, spec, DeepDiffers(ContainerPorts(spec.ports), d.template.ports),
                 DeepDiffers(ServicePorts(spec.ports), e.ports), s, out);
  }

  lemma {:induction false} GivesUpHonest(log: seq<Event>, n: nat, k: Key, spec: ProxySpec, kind: Kind, why: ApiError,
                                         s: seq<Post>, out: Outcome)
    requires GivesUp(log, n, k, kind, why, s, out)
    ensures Sincere(log, n, k, spec, s, out)
  {
    PutsEarned(log, n, k, spec, s[0], Uncreated(kind, why));
  }

  lemma {:induction false} CreationHonest(log: seq<Event>, n: nat, k: Key, spec: ProxySpec, s: seq<Post>, out: Outcome)
    requires s != [] && s[0].call.ToCreate? && s[0].call.ref in {DepRef(k), SvcRef(k)}
    requires |s| == 1 ==> out == Ended(s[0], Requeue)
    requires |s| > 1 ==>
               && |s| == 2 && s[0].error.Some? && out.Failed?
               && Puts(log, n, s[1], ProxyRef(k), Uncreated(DeploymentKind, s[0].error.value))
    ensures Sincere(log, n, k, spec, s, out)
  {
    if |s| == 2 { PutsEarned(log, n, k, spec, s[1], Uncreated(DeploymentKind, s[0].error.value)); }
  }

  lemma {:induction false} ConfirmsHonest(log: seq<Event>, n: nat, k: Key, spec: ProxySpec, s: seq<Post>, out: Outcome)
    requires Confirms(log, n, k, spec, s, out)
    ensures Sincere(log, n, k, spec, s, out)
  {
    PutsEarned(log, n, k, spec, s[0], Confirmed(spec));
  }

  lemma {:induction false} WorksHonest(log: seq<Event>, n: nat, k: Key, v: Object, s: seq<Post>, out: Outcome)
    requires Works(log, n, k, v, s, out)
    ensures Sincere(log, n, k, v.spec, s, out)
  {
    if Aligns(log, n, k, v.spec, s, out) {
      AligningHonest(log, n, k, v.spec, s, out);
    } else if Adjusts(log, n, k, v.spec, s, out) {
      AttemptsHonest(log, n, k, v.spec, DepRef(k), s, out);
    } else if Confirms(log, n, k, v.spec, s, out) {
      ConfirmsHonest(log, n, k, v.spec, s, out);
    } else if CreatesDeployment(log, n, k, v, s, out) || CreatesService(k, v, s, out) {
      CreationHonest(log, n, k, v.spec, s, out);
    } else if GivesUp(log, n, k, ServiceKind, OwnerReference, s, out) {
      GivesUpHonest(log, n, k, v.spec, ServiceKind, OwnerReference, s, out);
    } else if GivesUp(log, n, k, DeploymentKind, Unavailable, s, out) {
      GivesUpHonest(log, n, k, v.spec, DeploymentKind, Unavailable, s, out);
    } else if GivesUp(log, n, k, DeploymentKind, OwnerReference, s, out) {
      GivesUpHonest(log, n, k, v.spec, DeploymentKind, OwnerReference, s, out);
    } else {
      BlindHonest(log, n, k, v.spec, s, out);
    }
  }

  lemma {:induction false} BlindHonest(log: seq<Event>, n: nat, k: Key, spec: ProxySpec, s: seq<Post>, out: Outcome)
    requires Blind(s, out)
    ensures Sincere(log, n, k, spec, s, out)
  {
  }

  lemma {:induction false} FinalizesHonest(log: seq<Event>, n: nat, k: Key, spec: ProxySpec, s: seq<Post>, out: Outcome)
    requires Finalizes(log, n, k, s, out)
    ensures Sincere(log, n, k, spec, s, out)
  {
    PutsEarned(log, n, k, spec, s[0], Condition(DEGRADED, Unknown, "Finalizing", Finalizing));
    if |s| > 1 { PutsEarned(log, n, k, spec, s[1], CLEANED); }
  }

  lemma {:induction false} ClaimHonest(log: seq<Event>, n: nat, k: Key, v: Object, s: seq<Post>, out: Outcome)
    requires Passes(log, n, k, v, s, out) && (v.cr.conditions == [] || FINALIZER !in v.cr.finalizers)
    ensures Sincere(log, n, k, v.spec, s, out)
  {
    if v.cr.conditions == [] {
      PutsEarned(log, n, k, v.spec, s[0], Condition(AVAILABLE, Unknown, "Reconciling", Starting));
    }
  }

  /** For all that a pass can come to. */
  lemma {:induction false} PassesHonest(log: seq<Event>, n: nat, k: Key, v: Object, s: seq<Post>, out: Outcome)
    requires Passes(log, n, k, v, s, out)
    ensures Sincere(log, n, k, v.spec, s, out)
  {
    if v.cr.conditions == [] || FINALIZER !in v.cr.finalizers {
      ClaimHonest(log, n, k, v, s, out);
    } else if v.cr.deleting {
      FinalizesHonest(log, n, k, v.spec, s, out);
    } else {
      WorksHonest(log, n, k, v, s, out);
    }
  }
}
