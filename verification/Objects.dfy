/** The Kubernetes objects the two controllers read and write, and the small
    library helpers (conditions, finalizers) applied to their copies. */
module Objects {
  import opened Text

  newtype uint16 = n: int | 0 <= n < 0x1_0000
  newtype int32 = n: int | -0x8000_0000 <= n < 0x8000_0000

  datatype Option<+T> = None | Some(value: T)

  type Labels = map<string, string>

  const FINALIZER := "villip.carmier.fr/finalizer"
  const CONF := "villip.carmier.fr/conf"
  const RELOADED_AT := "villip-operator/config-reloaded-at"
  const MANAGED_BY := "app.kubernetes.io/managed-by"
  const PROXY_CONTROLLER := "VillipProxyController"
  const AVAILABLE := "Available"
  const DEGRADED := "Degraded"

  // ---- naming -----------------------------------------------------------

  datatype Kind = ProxyKind | RuleKind | DeploymentKind | ServiceKind | ConfigMapKind

  /** A NamespacedName. */
  datatype Key = Key(ns: string, name: Name)

  datatype Ref = Ref(kind: Kind, key: Key)

  function ProxyRef(k: Key): Ref { Ref(ProxyKind, k) }
  function RuleRef(k: Key): Ref { Ref(RuleKind, k) }
  function DepRef(k: Key): Ref { Ref(DeploymentKind, k) }
  function SvcRef(k: Key): Ref { Ref(ServiceKind, k) }
  function CmRef(k: Key): Ref { Ref(ConfigMapKind, k) }

  // ---- custom resources -------------------------------------------------

  datatype ApiError =
    | NotFound | AlreadyExists | Conflict | Forbidden | Invalid
    | Unavailable       // the call failed, or its reply was lost
    | OwnerReference    // SetControllerReference failed
    | Unrendered        // the YAML encoder failed
    | NotRemoved        // RemoveFinalizer found nothing to remove

  datatype ConditionStatus = True | False | Unknown

  /** The formatted condition messages, by what they say. */
  datatype Message =
    | Starting | Finalizing | Finalized | Ready(replicas: int32)
    | CannotCreate(kind: Kind, why: ApiError) | CannotUpdate(kind: Kind, why: ApiError)
    | Updating | Created | Updated

  datatype Condition = Condition(ctype: string, status: ConditionStatus, reason: string, message: Message)

  /** What a VillipProxy and a VillipRules have in common. */
  datatype Resource = Resource(labels: Labels, finalizers: seq<string>, deleting: bool, conditions: seq<Condition>)

  datatype Target = Target(ns: string, name: string, port: uint16, uri: string)

  datatype ProxySpec = ProxySpec(
    debug: bool, imageName: string, imageTag: string, ports: seq<uint16>,
    rulesets: seq<Labels>, target: Target, size: int32)

  datatype RuleSpec = RuleSpec(
    contentTypes: seq<string>, force: bool, insecure: bool, port: int, priority: nat,
    restricted: seq<string>, status: seq<string>, rtype: string, filters: seq<string>)

  // ---- workloads --------------------------------------------------------

  datatype ContainerPort = ContainerPort(port: int32, protocol: string)

  datatype ServicePort = ServicePort(name: string, port: int32, targetPort: int, protocol: string)

  datatype Mount = Mount(name: Name, path: string)

  datatype Volume = Volume(name: Name, configMap: Name)

  /** An annotation on the pod template: text, or the printed time of a rollout. */
  datatype Mark = Words(text: string) | Time(at: nat)

  datatype PodTemplate = PodTemplate(
    labels: Labels, marks: map<string, Mark>, volumes: seq<Volume>, mounts: seq<Mount>,
    ports: seq<ContainerPort>, image: string, env: seq<(string, string)>)

  /** `rolledAt` is kept by the API server: the version at which the pod template
      last changed, that is, when the pods were last replaced. */
  datatype Deployment = Deployment(
    labels: Labels, annotations: map<string, string>, replicas: int32, selector: Labels,
    template: PodTemplate, rolledAt: nat)

  datatype Service = Service(labels: Labels, ports: seq<ServicePort>, selector: Labels)

  datatype ConfigMap = ConfigMap(labels: Labels, data: map<string, string>)

  datatype Object =
    | ProxyObject(cr: Resource, spec: ProxySpec)
    | RuleObject(cr: Resource, rules: RuleSpec, lastSum: string)
    | DeploymentObject(deployment: Deployment)
    | ServiceObject(service: Service)
    | ConfigMapObject(configMap: ConfigMap)
  {
    function Kind(): Kind {
      match this
      case ProxyObject(_, _) => ProxyKind
      case RuleObject(_, _, _) => RuleKind
      case DeploymentObject(_) => DeploymentKind
      case ServiceObject(_) => ServiceKind
      case ConfigMapObject(_) => ConfigMapKind
    }

    predicate IsResource() { ProxyObject? || RuleObject? }

    function With(cr: Resource): (r: Object)
      requires IsResource()
      ensures r.Kind() == Kind() && r.IsResource() && r.cr == cr
    {
      if ProxyObject? then ProxyObject(cr, spec) else RuleObject(cr, rules, lastSum)
    }
  }

  /** An object with its resourceVersion. */
  datatype Versioned = Versioned(obj: Object, rv: nat)

  // ---- conditions -------------------------------------------------------

  function SetCondition(cs: seq<Condition>, c: Condition): seq<Condition> {
    if cs == [] then [c]
    else if cs[0].ctype == c.ctype then [c] + cs[1..]
    else [cs[0]] + SetCondition(cs[1..], c)
  }

  function Report(cr: Resource, ctype: string, status: ConditionStatus, reason: string, message: Message): Resource {
    cr.(conditions := SetCondition(cr.conditions, Condition(ctype, status, reason, message)))
  }

  /** Every condition type occurs once, and is Available or Degraded. */
  predicate TidyConditions(cs: seq<Condition>) {
    && (forall i | 0 <= i < |cs| :: cs[i].ctype in {AVAILABLE, DEGRADED})
    && (forall i, j | 0 <= i < j < |cs| :: cs[i].ctype != cs[j].ctype)
  }

  /** Setting a condition keeps the list tidy, leaves it non-empty, gives the type
      the new value and every other type the value it had. */
  lemma {:induction false} SetConditionKeepsTidy(cs: seq<Condition>, c: Condition)
    requires TidyConditions(cs) && c.ctype in {AVAILABLE, DEGRADED}
    ensures TidyConditions(SetCondition(cs, c)) && SetCondition(cs, c) != []
    ensures forall x :: x in SetCondition(cs, c) <==> x == c || (x in cs && x.ctype != c.ctype)
  {
    if cs != [] {
      assert cs == [cs[0]] + cs[1..];
      var rest := SetCondition(cs[1..], c);
      SetConditionKeepsTidy(cs[1..], c);
      if cs[0].ctype != c.ctype {
        forall j | 0 <= j < |rest| ensures rest[j].ctype != cs[0].ctype {
          assert rest[j] in rest;
        }
      }
    }
  }

  lemma {:induction false} SetConditionHas(cs: seq<Condition>, c: Condition)
    ensures c in SetCondition(cs, c) && forall x | x in SetCondition(cs, c) :: x == c || x in cs
  {
    if cs != [] { SetConditionHas(cs[1..], c); }
  }

  // ---- finalizers -------------------------------------------------------

  function AddFinalizer(fs: seq<string>): seq<string> {
    if FINALIZER in fs then fs else fs + [FINALIZER]
  }

  function RemoveFinalizer(fs: seq<string>): seq<string> {
    if fs == [] then []
    else if fs[0] == FINALIZER then RemoveFinalizer(fs[1..])
    else [fs[0]] + RemoveFinalizer(fs[1..])
  }

  /** Wherever an entry stands, it is dropped if it is our own and otherwise stays
      between what is left of its neighbours: others are kept, in their order. */
  lemma {:induction false} RemoveFinalizerKeepsOthers(before: seq<string>, f: string, after: seq<string>)
    ensures RemoveFinalizer(before + [f] + after)
         == RemoveFinalizer(before) + (if f == FINALIZER then [] else [f]) + RemoveFinalizer(after)
  {
    if before == [] {
      assert before + [f] + after == [f] + after;
    } else {
      assert (before + [f] + after)[1..] == before[1..] + [f] + after;
      RemoveFinalizerKeepsOthers(before[1..], f, after);
    }
  }

  lemma {:induction false} RemoveFinalizerDropsOwn(fs: seq<string>)
    ensures FINALIZER !in RemoveFinalizer(fs)
    ensures forall f | f != FINALIZER :: f in RemoveFinalizer(fs) <==> f in fs
    ensures FINALIZER in fs ==> RemoveFinalizer(fs) != fs
  {
    if fs != [] {
      RemoveFinalizerDropsOwn(fs[1..]);
      assert fs == [fs[0]] + fs[1..];
    }
  }
}
