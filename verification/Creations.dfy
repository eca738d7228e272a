/** What the two controllers create: whom the Deployments and the Services select, and which
    proxies mount a new ConfigMap. */
module Creations {
  import opened Text
  import opened Objects
  import opened Api
  import opened Workloads
  import opened ProxyPasses
  import opened RulesPasses
  import opened Guarantees
  import opened Calmness
  import opened Runs
  import Convergence
  import RulesConvergence
  import RulesSafety

  // ---- selectors --------------------------------------------------------

  ghost predicate Meet(a: Labels, b: Labels) { exists labels: Labels :: Matches(a, labels) && Matches(b, labels) }

  predicate Compatible(a: Labels, b: Labels) { forall l | l in a && l in b :: a[l] == b[l] }

  /** Some object is selected by both if and only if they agree where both have a say. */
  lemma SelectorsMeet(a: Labels, b: Labels)
    ensures Meet(a, b) <==> Compatible(a, b)
  {
    if Compatible(a, b) { assert Matches(a, a + b) && Matches(b, a + b); }
    if Meet(a, b) {
      var labels: Labels :| Matches(a, labels) && Matches(b, labels);
      assert Compatible(a, b);
    }
  }

  /** What a proxy says itself about this label goes before the name of the proxy. */
  function NameLabelOf(k: Key, cr: Resource): string {
    if NAME_LABEL in cr.labels then cr.labels[NAME_LABEL] else k.name
  }

  /** A created Deployment selects its own pods; and no pod is selected by the Deployments of two
      proxies that end up under different names, as two of one namespace do unless one of them
      overrides that label. */
  lemma PodsApart(k: Key, cr: Resource, spec: ProxySpec, d: Deployment, j: Key, cs: Resource, spec': ProxySpec,
                  e: Deployment)
    requires BuiltFor(k, cr, spec, d) && BuiltFor(j, cs, spec', e)
    ensures Matches(d.selector, d.template.labels)
    ensures NameLabelOf(k, cr) != NameLabelOf(j, cs) ==> !Meet(d.selector, e.selector)
    ensures k != j && k.ns == j.ns && NAME_LABEL !in cr.labels && NAME_LABEL !in cs.labels ==>
              !Meet(d.selector, e.selector)
  {
    SelectorsMeet(d.selector, e.selector);
    assert d.selector[NAME_LABEL] == NameLabelOf(k, cr) && e.selector[NAME_LABEL] == NameLabelOf(j, cs);
  }

  /** A created Service selects exactly the pods that bear the name of its proxy. */
  lemma ServiceSelects(k: Key, cr: Resource, spec: ProxySpec, s: Service, labels: Labels)
    requires ServesFor(k, cr, spec, s)
    ensures Matches(s.selector, labels) <==> "villip" in labels && labels["villip"] == k.name
  {
    if "villip" in labels && labels["villip"] == k.name {
      assert forall l | l in s.selector :: l == "villip";
    }
    if Matches(s.selector, labels) { assert "villip" in s.selector; }
  }

  /** So the Services of two proxies of one namespace have no pod in common. */
  lemma ServicesApart(k: Key, cr: Resource, spec: ProxySpec, s: Service, j: Key, cs: Resource, spec': ProxySpec,
                      t: Service)
    requires ServesFor(k, cr, spec, s) && ServesFor(j, cs, spec', t) && k != j && k.ns == j.ns
    ensures !Meet(s.selector, t.selector)
  {
    forall labels: Labels ensures !(Matches(s.selector, labels) && Matches(t.selector, labels)) {
      ServiceSelects(k, cr, spec, s, labels);
      ServiceSelects(j, cs, spec', t, labels);
    }
  }

  /** But the operator gives the pods no such label: the Service of a proxy selects the pods of
      its Deployment if and only if the proxy bears the label itself, with its own name. */
  lemma ServiceFindsPodsIff(k: Key, cr: Resource, spec: ProxySpec, d: Deployment, s: Service)
    requires BuiltFor(k, cr, spec, d) && ServesFor(k, cr, spec, s)
    ensures Matches(s.selector, d.template.labels) <==> "villip" in cr.labels && cr.labels["villip"] == k.name
  {
    ServiceSelects(k, cr, spec, s, d.template.labels);
    assert "villip" !in {NAME_LABEL, VERSION_LABEL, MANAGED_BY};
  }

  // ---- in every run -----------------------------------------------------

  predicate CreatesWorkload(e: Event) {
    e.Wrote? && e.before.None? && e.ref.kind in {DeploymentKind, ServiceKind, ConfigMapKind}
  }

  /** Made for the custom resource `read`, of the same name. */
  predicate MadeFor(read: Object, e: Event)
    requires CreatesWorkload(e)
  {
    && e.after.Some?
    && match e.after.value
       case DeploymentObject(d) => read.ProxyObject? && BuiltFor(e.ref.key, read.cr, read.spec, d)
       case ServiceObject(s) => read.ProxyObject? && ServesFor(e.ref.key, read.cr, read.spec, s)
       case ConfigMapObject(cm) =>
         read.RuleObject? && cm.labels == read.cr.labels && cm.data.Keys == {e.ref.key.name + ".yml"}
       case _ => false
  }

  /** Over every run, whatever fails and whatever others do: each workload that is created was
      made, as above, for a live custom resource that the pass had read before. */
  lemma {:induction false} CreatedAsAsked(o: Oracle, w: World, turns: seq<Turn>, i: nat) returns (j: nat)
    requires Lawful(o) && InOrder(o, w)
    requires |w.log| <= i < |Run(o, w, turns).log| && CreatesWorkload(Run(o, w, turns).log[i])
    ensures var log := Run(o, w, turns).log;
            && |w.log| <= j < i && log[j].Read? && log[j].obj.IsResource() && Live(log[j].obj.cr)
            && log[j].ref.key == log[i].ref.key && MadeFor(log[j].obj, log[i])
  {
    RunIsSafe(o, w, turns);
    var log := Run(o, w, turns).log;
    assert Accounted(log, |w.log|, i);
    var k: Key;
    j, k :| |w.log| <= j < i && Licence(log[j], k, log[i]);
    LicensedIsMade(log[j], k, log[i]);
  }

  lemma {:induction false} LicensedIsMade(read: Event, k: Key, e: Event)
    requires Licence(read, k, e) && CreatesWorkload(e)
    ensures read.ref.key == k == e.ref.key && MadeFor(read.obj, e)
  {
  }

  // ---- the Service of a proxy -------------------------------------------

  /** The fault-free pass that creates the Service. */
  lemma {:induction false} CreatedServiceSelects(o: Oracle, w: World, k: Key)
    requires Calm(o, w.calls) && Convergence.Standing(w.c, k) && SvcRef(k) !in w.c.objs
    requires SvcRef(k) in ProxyPass(o, w, k).0.c.objs
    ensures var cr, s := Convergence.CrOf(w.c, k), ProxyPass(o, w, k).0.c.objs[SvcRef(k)].obj.service;
            && s.labels == cr.labels && s.ports == ServicePorts(Convergence.SpecOf(w.c, k).ports)
            && forall labels: Labels ::
                 Matches(s.selector, labels) <==> "villip" in labels && labels["villip"] == k.name
  {
    Convergence.CalmPass(o, w, k);
    var cr, spec := Convergence.CrOf(w.c, k), Convergence.SpecOf(w.c, k);
    var s := ProxyPass(o, w, k).0.c.objs[SvcRef(k)].obj.service;
    assert ServesFor(k, cr, spec, s);
    forall labels: Labels ensures Matches(s.selector, labels) <==> "villip" in labels && labels["villip"] == k.name {
      ServiceSelects(k, cr, spec, s, labels);
    }
  }

  // ---- the ConfigMap of a rule ------------------------------------------

  ghost predicate Unmade(c: Cluster, j: Key) {
    RuleRef(j) in c.objs && Live(c.objs[RuleRef(j)].obj.cr) && CmRef(j) !in c.objs
  }

  /** The fault-free pass that creates the ConfigMap of a rule: a ruleset entry selects it exactly
      if the rule bears its labels, so it is selected as often as there are such entries. */
  lemma {:induction false} CreatedConfigMapSelected(o: Oracle, w: World, j: Key)
    requires Calm(o, w.calls) && Unmade(w.c, j)
    ensures var x, labels := RulesPass(o, w, j).0.c, w.c.objs[RuleRef(j)].obj.cr.labels;
            && CmRef(j) in x.objs
            && x.objs[CmRef(j)].obj.configMap.data == map[j.name + ".yml" := o.render(w.c.objs[RuleRef(j)].obj.rules)]
            && (forall entry: Labels :: j.name in Matching(x, j.ns, entry) <==> Matches(entry, labels))
            && (forall rulesets: seq<Labels> :: Selected(x, j.ns, rulesets)[j.name] == Hits(rulesets, labels))
  {
    RulesConvergence.CalmRulesPass(o, w, j);
    var x := RulesPass(o, w, j).0.c;
    assert x.objs[CmRef(j)].obj.configMap.labels == w.c.objs[RuleRef(j)].obj.cr.labels;
    forall entry: Labels
      ensures j.name in Matching(x, j.ns, entry) <==> Matches(entry, w.c.objs[RuleRef(j)].obj.cr.labels)
    {
      MatchingHas(x, j.ns, entry, j.name);
    }
    forall rulesets: seq<Labels>
      ensures Selected(x, j.ns, rulesets)[j.name] == Hits(rulesets, w.c.objs[RuleRef(j)].obj.cr.labels)
    {
      SelectedCounts(x, j.ns, rulesets, j.name);
    }
  }

  /** The proxy and its objects are as they were. */
  lemma {:induction false} ProxyAsBefore(o: Oracle, w: World, j: Key, k: Key)
    requires Calm(o, w.calls) && Unmade(w.c, j)
    ensures var x := RulesPass(o, w, j).0.c;
            CopyOf(x, ProxyRef(k)) == CopyOf(w.c, ProxyRef(k)) && CopyOf(x, DepRef(k)) == CopyOf(w.c, DepRef(k))
  {
    RulesConvergence.CalmRulesPass(o, w, j);
  }

  /** The Deployment, if there is one, is the operator's and annotated. */
  ghost predicate Following(c: Cluster, k: Key) {
    DepRef(k) in c.objs ==>
      && CONF in c.objs[DepRef(k)].obj.deployment.annotations && ByOperator(c.objs[DepRef(k)].obj.deployment)
  }

  /** The Deployment of the proxy mounts this ConfigMap so many times. */
  ghost predicate MountsTimes(c: Cluster, k: Key, name: Name, times: nat) {
    Convergence.HasDeployment(c, k) && multiset(VolumeNames(c.objs[DepRef(k)].obj.deployment))[name] == times
  }

  lemma {:induction false} SettlesWithMounts(o: Oracle, w: World, k: Key) returns (n: nat)
    requires Calm(o, w.calls) && Good(w.c) && Convergence.Standing(w.c, k) && Following(w.c, k)
    requires Convergence.SpecOf(w.c, k).ports != []
    ensures var y := ProxyRepeated(o, w, k, n).c;
            && n <= 7 && Convergence.Settled(y, k)
            && forall name: Name :: MountsTimes(y, k, name,
                 Selected(w.c, k.ns, Convergence.SpecOf(w.c, k).rulesets)[name])
  {
    n := Convergence.Distance(w.c, k) + 1;
    var _ := Convergence.SixAtMost(k);
    Convergence.Converges(o, w, k, n, 0);
    Convergence.MountsMatchIffAnnotated(o, w, k);
    var y := ProxyRepeated(o, w, k, n).c;
    assert Convergence.MountsMatch(y, k);
  }

  /** And so a proxy of the namespace, once it has had up to seven passes after that, is settled and
      mounts the new ConfigMap as often as it has ruleset entries all of whose labels the rule bears. */
  lemma {:induction false} CreatedConfigMapMounted(o: Oracle, w: World, j: Key, k: Key) returns (n: nat)
    requires Lawful(o) && InOrder(o, w) && Calm(o, w.calls) && Unmade(w.c, j) && k.ns == j.ns
    requires Convergence.Standing(w.c, k) && Convergence.SpecOf(w.c, k).ports != [] && Following(w.c, k)
    ensures var y := ProxyRepeated(o, RulesPass(o, w, j).0, k, n).c;
            && n <= 7 && Convergence.Settled(y, k)
            && MountsTimes(y, k, j.name,
                 Hits(Convergence.SpecOf(w.c, k).rulesets, w.c.objs[RuleRef(j)].obj.cr.labels))
  {
    var x := RulesPass(o, w, j).0;
    RulesSafety.RulesGuarantee(o, w, j);
    CalmLater(o, w.calls, x.calls);
    CreatedConfigMapSelected(o, w, j);
    ProxyAsBefore(o, w, j, k);
    n := SettlesWithMounts(o, x, k);
  }
}
