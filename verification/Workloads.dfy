/** The workload objects a VillipProxy stands for: which ConfigMaps it mounts, its
    ports, its labels, and the Deployment and Service built from them. */
module Workloads {
  import opened Sorting
  import opened Text
  import opened Objects
  import opened Api

  // ---- ports ------------------------------------------------------------

  const BY_VALUE: (int, int) -> bool := (a, b) => a <= b

  function Widened(ports: seq<uint16>): (r: seq<int>) {
    seq(|ports|, i requires 0 <= i < |ports| => ports[i] as int)
  }

  function SortedPorts(ports: seq<uint16>): (r: seq<int>)
    ensures |r| == |ports| && multiset(r) == multiset(Widened(ports))
    ensures forall i | 0 <= i < |r| :: 0 <= r[i] < 0x1_0000
  {
    var r := Sort(BY_VALUE, Widened(ports));
    SortedPortsAreShort(ports, r);
    r
  }

  lemma SortedPortsAreShort(ports: seq<uint16>, r: seq<int>)
    requires multiset(r) == multiset(Widened(ports))
    ensures forall i | 0 <= i < |r| :: 0 <= r[i] < 0x1_0000
  {
    forall i | 0 <= i < |r| ensures 0 <= r[i] < 0x1_0000 {
      assert r[i] in multiset(r);
      assert r[i] in multiset(Widened(ports));
    }
  }

  function ContainerPortFor(port: int): ContainerPort
    requires 0 <= port < 0x1_0000
  {
    ContainerPort(port as int32, "TCP")
  }

  function ServicePortFor(port: int): ServicePort
    requires 0 <= port < 0x1_0000
  {
    ServicePort("port" + Decimal(port), port as int32, port, "TCP")
  }

  function ContainerPorts(ports: seq<uint16>): (r: seq<ContainerPort>)
    ensures |r| == |ports|
  {
    var s := SortedPorts(ports);
    seq(|s|, i requires 0 <= i < |s| => ContainerPortFor(s[i]))
  }

  function ServicePorts(ports: seq<uint16>): (r: seq<ServicePort>)
    ensures |r| == |ports|
  {
    var s := SortedPorts(ports);
    seq(|s|, i requires 0 <= i < |s| => ServicePortFor(s[i]))
  }

  /** reflect.DeepEqual tells the code's empty list from the nil list the API server
      gives back for it, so an empty list always differs. */
  predicate DeepDiffers<T(==)>(desired: seq<T>, stored: seq<T>) {
    desired != stored || desired == []
  }

  lemma ByValueIsTotal()
    ensures TotalOrder(BY_VALUE)
  {
  }

  lemma {:induction false} WidenedMultiset(a: seq<uint16>)
    ensures forall p: uint16 :: multiset(Widened(a))[p as int] == multiset(a)[p]
    ensures forall q: int | !(0 <= q < 0x1_0000) :: multiset(Widened(a))[q] == 0
  {
    if a != [] {
      WidenedMultiset(a[1..]);
      assert a == [a[0]] + a[1..];
      assert Widened(a) == [a[0] as int] + Widened(a[1..]);
    }
  }

  lemma WidenedCanonical(a: seq<uint16>, b: seq<uint16>)
    ensures multiset(Widened(a)) == multiset(Widened(b)) <==> multiset(a) == multiset(b)
  {
    WidenedMultiset(a);
    WidenedMultiset(b);
    if multiset(a) == multiset(b) {
      forall q: int ensures multiset(Widened(a))[q] == multiset(Widened(b))[q] {
        if 0 <= q < 0x1_0000 {
          assert multiset(Widened(a))[(q as uint16) as int] == multiset(a)[q as uint16];
          assert multiset(Widened(b))[(q as uint16) as int] == multiset(b)[q as uint16];
        }
      }
    }
    if multiset(Widened(a)) == multiset(Widened(b)) {
      forall p: uint16 ensures multiset(a)[p] == multiset(b)[p] {
        assert multiset(Widened(a))[p as int] == multiset(a)[p];
      }
    }
  }

  /** Two specs give equal container lists, and equal service lists, exactly when
      their ports are the same up to order: reordering a spec triggers no write. */
  lemma PortsCanonical(a: seq<uint16>, b: seq<uint16>)
    ensures ContainerPorts(a) == ContainerPorts(b) <==> multiset(a) == multiset(b)
    ensures ServicePorts(a) == ServicePorts(b) <==> multiset(a) == multiset(b)
  {
    ByValueIsTotal();
    SortCanonical(BY_VALUE, Widened(a), Widened(b));
    WidenedCanonical(a, b);
    var s, t := SortedPorts(a), SortedPorts(b);
    if ContainerPorts(a) == ContainerPorts(b) {
      forall i | 0 <= i < |s| ensures s[i] == t[i] {
        assert ContainerPorts(a)[i] == ContainerPorts(b)[i];
      }
    }
    if ServicePorts(a) == ServicePorts(b) {
      forall i | 0 <= i < |s| ensures s[i] == t[i] {
        assert ServicePorts(a)[i] == ServicePorts(b)[i];
      }
    }
  }

  /** The two lists agree element by element, are increasing, and narrowing the
      sorted ints to 32 bits loses nothing. */
  lemma PortListsAgree(ports: seq<uint16>)
    ensures forall i | 0 <= i < |ports| ::
              && ServicePorts(ports)[i].port == ContainerPorts(ports)[i].port
              && ServicePorts(ports)[i].targetPort == ContainerPorts(ports)[i].port as int
              && ServicePorts(ports)[i].targetPort == SortedPorts(ports)[i]
              && ServicePorts(ports)[i].name == "port" + Decimal(SortedPorts(ports)[i])
              && ServicePorts(ports)[i].protocol == ContainerPorts(ports)[i].protocol == "TCP"
    ensures forall i, j | 0 <= i < j < |ports| :: ContainerPorts(ports)[i].port <= ContainerPorts(ports)[j].port
  {
    ByValueIsTotal();
    SortSorts(BY_VALUE, Widened(ports));
  }

  ghost predicate Distinct<T>(s: seq<T>) {
    forall i, j | 0 <= i < j < |s| :: s[i] != s[j]
  }

  lemma {:induction false} DistinctByCount<T>(s: seq<T>)
    ensures Distinct(s) <==> forall x | x in s :: multiset(s)[x] == 1
  {
    if s != [] {
      DistinctByCount(s[1..]);
      assert s == [s[0]] + s[1..];
      if Distinct(s) {
        assert forall j | 0 <= j < |s[1..]| :: s[1..][j] == s[j + 1];
        assert s[0] !in s[1..];
      }
      if forall x | x in s :: multiset(s)[x] == 1 {
        assert multiset(s)[s[0]] == 1 + multiset(s[1..])[s[0]];
        assert s[0] in s && s[0] !in multiset(s[1..]);
        forall x | x in s[1..] ensures multiset(s[1..])[x] == 1 {
          assert x in s && x != s[0];
        }
        forall i, j | 0 <= i < j < |s| ensures s[i] != s[j] {
          if i == 0 { assert s[j] in s[1..]; } else { assert s[i] == s[1..][i - 1] && s[j] == s[1..][j - 1]; }
        }
      }
    }
  }

  ghost function PortNames(ports: seq<uint16>): seq<string> {
    seq(|ports|, i requires 0 <= i < |ports| => ServicePorts(ports)[i].name)
  }

  /** The API server wants the names of service ports pairwise distinct: they are,
      exactly when the ports are. */
  lemma PortNamesDistinct(ports: seq<uint16>)
    ensures Distinct(PortNames(ports)) <==> Distinct(ports)
  {
    var s, names := SortedPorts(ports), PortNames(ports);
    forall i, j | 0 <= i < |s| && 0 <= j < |s| ensures names[i] == names[j] <==> s[i] == s[j] {
      if names[i] == names[j] {
        assert names[i][4..] == Decimal(s[i]) && names[j][4..] == Decimal(s[j]);
        DecimalInjective(s[i], s[j]);
      }
    }
    assert Distinct(names) <==> Distinct(s);
    DistinctByCount(s);
    DistinctByCount(ports);
    WidenedMultiset(ports);
    if Distinct(s) {
      forall p | p in ports ensures multiset(ports)[p] == 1 {
        assert multiset(Widened(ports))[p as int] == multiset(ports)[p];
        assert p as int in multiset(s);
      }
    }
    if Distinct(ports) {
      forall q | q in s ensures multiset(s)[q] == 1 {
        assert q in multiset(Widened(ports));
        assert multiset(Widened(ports))[(q as uint16) as int] == multiset(ports)[q as uint16];
      }
    }
  }

  // ---- selection and mounts ---------------------------------------------

  /** The mount list as a multiset: for every entry of the ruleset, the ConfigMaps of
      the namespace that carry all its labels. */
  ghost function Selected(c: Cluster, ns: string, rulesets: seq<Labels>): multiset<Name> {
    if rulesets == [] then multiset{}
    else multiset(Matching(c, ns, rulesets[0])) + Selected(c, ns, rulesets[1..])
  }

  ghost function Hits(rulesets: seq<Labels>, labels: Labels): nat {
    if rulesets == [] then 0
    else (if Matches(rulesets[0], labels) then 1 else 0) + Hits(rulesets[1..], labels)
  }

  lemma MatchingHas(c: Cluster, ns: string, selector: Labels, n: Name)
    ensures n in Matching(c, ns, selector) <==>
            var r := CmRef(Key(ns, n));
            r in c.objs && Matches(selector, c.objs[r].obj.configMap.labels)
  {
    var r := CmRef(Key(ns, n));
    if r in c.objs && Matches(selector, c.objs[r].obj.configMap.labels) {
      assert r.key.name in Matching(c, ns, selector);
    }
  }

  /** A ConfigMap is mounted once for every entry whose labels it carries: AND inside
      an entry, OR across entries; and nothing outside the namespace ever is. */
  lemma {:induction false} SelectedCounts(c: Cluster, ns: string, rulesets: seq<Labels>, n: Name)
    ensures var r := CmRef(Key(ns, n));
            Selected(c, ns, rulesets)[n]
            == if r in c.objs then Hits(rulesets, c.objs[r].obj.configMap.labels) else 0
  {
    if rulesets != [] {
      SelectedCounts(c, ns, rulesets[1..], n);
      MatchingHas(c, ns, rulesets[0], n);
    }
  }

  lemma {:induction false} SelectedConcat(c: Cluster, ns: string, a: seq<Labels>, b: seq<Labels>)
    ensures Selected(c, ns, a + b) == Selected(c, ns, a) + Selected(c, ns, b)
  {
    if a == [] {
      assert a + b == b;
    } else {
      assert (a + b)[1..] == a[1..] + b;
      SelectedConcat(c, ns, a[1..], b);
    }
  }

  lemma {:induction false} SelectedAround(c: Cluster, ns: string, a: seq<Labels>, entry: Labels, b: seq<Labels>)
    ensures Selected(c, ns, a + [entry] + b)
         == Selected(c, ns, a) + multiset(Matching(c, ns, entry)) + Selected(c, ns, b)
  {
    SelectedConcat(c, ns, a + [entry], b);
    SelectedConcat(c, ns, a, [entry]);
    assert Selected(c, ns, [entry]) == multiset(Matching(c, ns, entry)) + Selected(c, ns, []);
  }

  lemma TighterMatchesLess(entry: Labels, k: string, v: string, labels: Labels)
    requires k !in entry && Matches(entry[k := v], labels)
    ensures Matches(entry, labels)
  {
    forall l | l in entry ensures l in labels && labels[l] == entry[l] {
      assert entry[k := v][l] == entry[l];
    }
  }

  lemma TighterSelectsLess(c: Cluster, ns: string, entry: Labels, k: string, v: string)
    requires k !in entry
    ensures multiset(Matching(c, ns, entry[k := v])) <= multiset(Matching(c, ns, entry))
  {
    forall n | n in Matching(c, ns, entry[k := v]) ensures n in Matching(c, ns, entry) {
      MatchingHas(c, ns, entry[k := v], n);
      MatchingHas(c, ns, entry, n);
      TighterMatchesLess(entry, k, v, c.objs[CmRef(Key(ns, n))].obj.configMap.labels);
    }
  }

  /** Adding an entry never drops a ConfigMap, adding a label to an entry never brings
      one in, and the order of the entries does not matter. */
  lemma {:induction false} SelectionMonotone(c: Cluster, ns: string, a: seq<Labels>, entry: Labels, b: seq<Labels>,
                                             k: string, v: string)
    ensures Selected(c, ns, a + b) <= Selected(c, ns, a + [entry] + b)
    ensures k !in entry ==> Selected(c, ns, a + [entry[k := v]] + b) <= Selected(c, ns, a + [entry] + b)
    ensures Selected(c, ns, b + [entry] + a) == Selected(c, ns, a + [entry] + b)
  {
    SelectedConcat(c, ns, a, b);
    SelectedAround(c, ns, a, entry, b);
    SelectedAround(c, ns, b, entry, a);
    SelectedAround(c, ns, a, entry[k := v], b);
    if k !in entry { TighterSelectsLess(c, ns, entry, k, v); }
  }

  function MountsOf(names: seq<Name>): (r: seq<Mount>)
    ensures |r| == |names|
  {
    seq(|names|, i requires 0 <= i < |names| => Mount(names[i], "/conf/" + names[i]))
  }

  function VolumesOf(names: seq<Name>): (r: seq<Volume>)
    ensures |r| == |names|
  {
    seq(|names|, i requires 0 <= i < |names| => Volume(names[i], names[i]))
  }

  /** A failed List leaves the annotation map empty. */
  function AnnotationsOf(names: seq<Name>, complete: bool): map<string, string> {
    if complete then map[CONF := Digest(names)] else map[]
  }

  /** The List calls of one walk over the ruleset: what was collected, and whether
      every call was answered. */
  ghost function Collect(o: Oracle, w: World, ns: string, rulesets: seq<Labels>,
                         acc: seq<Name>): (World, seq<Name>, bool)
    decreases |rulesets|
  {
    if rulesets == [] then (w, acc, true)
    else
      var (w1, got) := ListConfigMaps(o, w, ns, rulesets[0]);
      if got.Err? then (w1, acc, false)
      else Collect(o, w1, ns, rulesets[1..], acc + got.value)
  }

  /** A Deployment without the annotation is never seen as changed, nor is one whose
      ConfigMaps could not be listed. */
  predicate SeenChanged(d: Deployment, names: seq<Name>, complete: bool) {
    complete && CONF in d.annotations && d.annotations[CONF] != Digest(names)
  }

  // ---- labels and the built objects -------------------------------------

  const COLON: char := ':'

  function ImageOf(spec: ProxySpec): string { spec.imageName + [COLON] + spec.imageTag }

  function VersionLabel(spec: ProxySpec): string {
    SplitAtSeparator(spec.imageName, spec.imageTag, COLON);
    Split(ImageOf(spec), COLON)[1]
  }

  /** The version label is meant to be the image tag. It is, exactly when neither part
      holds a colon, or when the second piece of a name with a colon happens to equal the
      tag: a registry with a port in the image name takes the tag's place. */
  lemma VersionLabelIsTag(spec: ProxySpec)
    ensures VersionLabel(spec) == spec.imageTag <==>
            if COLON in spec.imageName then Split(spec.imageName, COLON)[1] == spec.imageTag
            else COLON !in spec.imageTag
  {
    SplitAtSeparator(spec.imageName, spec.imageTag, COLON);
    var tags := Split(spec.imageTag, COLON);
    if COLON !in spec.imageName {
      SplitWhole(spec.imageName, COLON);
      assert VersionLabel(spec) == tags[0];
      SplitPieceFree(spec.imageTag, COLON);
      if COLON !in spec.imageTag { SplitWhole(spec.imageTag, COLON); }
    }
  }

  lemma {:induction false} SplitPieceFree(s: string, sep: char)
    ensures sep !in Split(s, sep)[0]
  {
    if s != "" && s[0] != sep { SplitPieceFree(s[1..], sep); }
  }

  /** Labels the user put on the proxy override the controller's own, managed-by included. */
  function LabelsOf(k: Key, cr: Resource, spec: ProxySpec): Labels {
    map["app.kubernetes.io/name" := k.name,
        "app.kubernetes.io/version" := VersionLabel(spec),
        MANAGED_BY := PROXY_CONTROLLER] + cr.labels
  }

  const DOT: char := '.'
  const SLASH: char := '/'

  function TargetOf(t: Target): string {
    "http://" + (t.name + [DOT] + (t.ns + [DOT] + (":" + Decimal(t.port as int) + t.uri)))
  }

  /** Names and namespaces are DNS labels, without a dot: the URL of a target is an http URL whose
      host has the service and its namespace as its first two labels; port and path follow. */
  lemma TargetReadsBack(t: Target)
    requires DOT !in t.name && DOT !in t.ns
    ensures var url := TargetOf(t);
            && |url| >= 7 && url[..7] == "http://"
            && var host := Split(url[7..], DOT);
               |host| >= 3 && host[0] == t.name && host[1] == t.ns
               && Join(host[2..], DOT) == ":" + Decimal(t.port as int) + t.uri
  {
    var rest := ":" + Decimal(t.port as int) + t.uri;
    var url := t.name + [DOT] + (t.ns + [DOT] + rest);
    assert TargetOf(t) == "http://" + url && TargetOf(t)[7..] == url;
    SplitAtSeparator(t.name, t.ns + [DOT] + rest, DOT);
    SplitAtSeparator(t.ns, rest, DOT);
    SplitWhole(t.name, DOT);
    SplitWhole(t.ns, DOT);
    JoinSplit(rest, DOT);
    assert Split(url, DOT) == [t.name] + ([t.ns] + Split(rest, DOT));
    assert Split(url, DOT)[2..] == Split(rest, DOT);
  }

  predicate IsPath(uri: string) { uri == "" || uri[0] == SLASH }

  lemma {:induction false} PortReadsBack(port: nat, uri: string)
    requires IsPath(uri)
    ensures Split(Decimal(port) + uri, SLASH)[0] == Decimal(port)
  {
    DecimalDenotes(port);
    SplitWhole(Decimal(port), SLASH);
    if uri == "" {
      assert Decimal(port) + uri == Decimal(port);
    } else {
      assert Decimal(port) + uri == Decimal(port) + [SLASH] + uri[1..];
      SplitAtSeparator(Decimal(port), uri[1..], SLASH);
    }
  }

  lemma {:induction false} PathInjective(m: nat, a: string, n: nat, b: string)
    requires IsPath(a) && IsPath(b) && ":" + Decimal(m) + a == ":" + Decimal(n) + b
    ensures m == n && a == b
  {
    var s, t := Decimal(m) + a, Decimal(n) + b;
    assert s == (":" + Decimal(m) + a)[1..] && t == (":" + Decimal(n) + b)[1..];
    PortReadsBack(m, a);
    PortReadsBack(n, b);
    DecimalInjective(m, n);
    assert a == s[|Decimal(m)|..] && b == t[|Decimal(n)|..];
  }

  /** So two targets have the same URL only if they are the same. */
  lemma {:induction false} TargetInjective(t: Target, u: Target)
    requires DOT !in t.name && DOT !in t.ns && DOT !in u.name && DOT !in u.ns && IsPath(t.uri) && IsPath(u.uri)
    requires TargetOf(t) == TargetOf(u)
    ensures t == u
  {
    TargetReadsBack(t);
    TargetReadsBack(u);
    PathInjective(t.port as int, t.uri, u.port as int, u.uri);
  }

  /** Where the proxy reads its rules: in the environment of every pod the operator defines. */
  const RULES_FOLDER := ("VILLIP_FOLDER", "/conf")

  function EnvOf(spec: ProxySpec): seq<(string, string)> {
    [RULES_FOLDER, ("VILLIP_FOLDER_RECURSE", "1"), ("VILLIP_URL", TargetOf(spec.target))]
    + if spec.debug then [("VILLIP_DEBUG", "1")] else []
  }

  function DeploymentFor(k: Key, cr: Resource, spec: ProxySpec, names: seq<Name>): Deployment {
    var labels := LabelsOf(k, cr, spec);
    Deployment(labels, AnnotationsOf(names, true), spec.size, labels,
               PodTemplate(labels, map[], VolumesOf(names), MountsOf(names), ContainerPorts(spec.ports),
                           ImageOf(spec), EnvOf(spec)), 0)
  }

  function ServiceFor(k: Key, cr: Resource, spec: ProxySpec): Service {
    Service(cr.labels, ServicePorts(spec.ports), map["villip" := k.name])
  }
}
