/** Passes of the rules controller with a fixed spec: they bring the ConfigMap to the
    rendered spec after finitely many faults, and what the recorded checksum is worth. */
module RulesConvergence {
  import opened Text
  import opened Objects
  import opened Api
  import opened ProxyPasses
  import opened RulesPasses
  import opened Guarantees
  import opened Calmness

  /** The rule exists, is not being deleted, and has this spec. */
  ghost predicate Stands(c: Cluster, k: Key, rules: RuleSpec) {
    && RuleRef(k) in c.objs && !c.objs[RuleRef(k)].obj.cr.deleting
    && c.objs[RuleRef(k)].obj.rules == rules
  }

  // ---- whatever fails, the rule stays what it is ------------------------

  ghost predicate Keeps(w: World, x: World, k: Key, rules: RuleSpec) {
    (Stands(w.c, k, rules) ==> Stands(x.c, k, rules)) && x.calls >= w.calls
  }

  lemma UpdateKeeps(o: Oracle, w: World, r: Ref, part: Part, sent: Versioned, k: Key, rules: RuleSpec)
    requires Quiet(o) && sent.obj.Kind() == r.kind
    requires r == RuleRef(k) ==> part.Status? || sent.obj.rules == rules
    ensures Keeps(w, Update(o, w, r, part, sent).0, k, rules)
  {
    assert o.interfere(w.calls, w.c) == w.c;
  }

  lemma {:induction false} RollPartsKeep(o: Oracle, w: World, item: Item, ns: string, name: Name, parts: seq<string>,
                                         k: Key, rules: RuleSpec)
    requires Quiet(o) && item.v.obj.DeploymentObject?
    ensures Keeps(w, RollParts(o, w, item, ns, name, parts), k, rules)
    decreases |parts|
  {
    if parts != [] {
      if parts[0] != name {
        RollPartsKeep(o, w, item, ns, name, parts[1..], k, rules);
      } else {
        var sent := Sending(item.v, Marked(item.v.obj.deployment, o.now(w.calls)));
        var r := DepRef(Key(ns, item.name));
        var (x, told) := Update(o, w, r, Main, sent);
        UpdateKeeps(o, w, r, Main, sent, k, rules);
        RollPartsKeep(o, x, item.(v := if told.Ok? then told.value else sent), ns, name, parts[1..], k, rules);
      }
    }
  }

  lemma {:induction false} RollItemsKeep(o: Oracle, w: World, items: seq<Item>, ns: string, name: Name, k: Key,
                                         rules: RuleSpec)
    requires Quiet(o) && forall i | i in items :: i.v.obj.DeploymentObject?
    ensures Keeps(w, RollItems(o, w, items, ns, name), k, rules)
    decreases |items|
  {
    if items != [] {
      RollPartsKeep(o, w, items[0], ns, name, PartsOf(items[0].v.obj.deployment), k, rules);
      RollItemsKeep(o, RollItem(o, w, items[0], ns, name), items[1..], ns, name, k, rules);
    }
  }

  lemma ConcludeKeeps(o: Oracle, w: World, k: Key, v: Versioned, sum: string, rules: RuleSpec)
    requires Quiet(o) && v.obj.RuleObject?
    ensures Keeps(w, Conclude(o, w, k, v, sum).0, k, rules)
  {
    var (x, told) := Update(o, w, RuleRef(k), Status, Summed(v, sum, Updated));
    UpdateKeeps(o, w, RuleRef(k), Status, Summed(v, sum, Updated), k, rules);
    if told.Ok? {
      assert o.interfere(x.calls, x.c) == x.c;
      var (y, listed) := ListDeployments(o, x, k.ns);
      if listed.Ok? { RollItemsKeep(o, y, listed.value, k.ns, k.name, k, rules); }
    }
  }

  lemma UpdateConfigMapKeeps(o: Oracle, w: World, k: Key, v: Versioned, found: Versioned, sum: string, rules: RuleSpec)
    requires Quiet(o) && v.obj.RuleObject? && found.obj.ConfigMapObject?
    ensures Keeps(w, UpdateConfigMap(o, w, k, v, found, sum).0, k, rules)
  {
    var sent := Reporting(v, DEGRADED, False, "Updating", Updating);
    var (w1, told) := Update(o, w, RuleRef(k), Status, sent);
    UpdateKeeps(o, w, RuleRef(k), Status, sent, k, rules);
    if told.Ok? {
      var (w2, put) := Update(o, w1, CmRef(k), Main, found);
      UpdateKeeps(o, w1, CmRef(k), Main, found, k, rules);
      if put.Ok? { ConcludeKeeps(o, w2, k, told.value, sum, rules); }
      else { ExcuseKeeps(o, w2, k, put.error, sum, rules); }
    }
  }

  lemma ExcuseKeeps(o: Oracle, w: World, k: Key, why: ApiError, sum: string, rules: RuleSpec)
    requires Quiet(o)
    ensures Keeps(w, Excuse(o, w, k, why, sum).0, k, rules)
  {
    assert o.interfere(w.calls, w.c) == w.c;
    var (x, again) := Get(o, w, RuleRef(k));
    if again.Ok? {
      var report := Reporting(again.value, AVAILABLE, False, "Updating", CannotUpdate(ConfigMapKind, why));
      var (y, reported) := Update(o, x, RuleRef(k), Status, report);
      UpdateKeeps(o, x, RuleRef(k), Status, report, k, rules);
      if reported.Ok? { ConcludeKeeps(o, y, k, reported.value, sum, rules); }
    }
  }

  lemma CreateConfigMapKeeps(o: Oracle, w: World, k: Key, v: Versioned, rules: RuleSpec)
    requires Quiet(o) && v.obj.RuleObject?
    ensures Keeps(w, CreateConfigMap(o, w, k, v).0, k, rules)
  {
    var w2 := Local(o, Local(o, w).0).0;
    var cm := ConfigMapObject(ConfigMapFor(k, v.obj.cr, o.render(v.obj.rules)));
    var (w3, made) := Create(o, w2, CmRef(k), cm);
    assert w2.c == w.c && Keeps(w, w3, k, rules);
    if made.Err? {
      UpdateKeeps(o, w3, RuleRef(k), Status,
        Reporting(v, AVAILABLE, False, "Reconciling", CannotCreate(ConfigMapKind, made.error)), k, rules);
    } else {
      UpdateKeeps(o, Local(o, w3).0, RuleRef(k), Status, Summed(v, o.hash(o.render(v.obj.rules)), Created), k, rules);
    }
  }

  /** A pass on a standing rule, whatever fails, makes a call and leaves the rule standing
      with its spec. */
  lemma PassKeeps(o: Oracle, w: World, k: Key, rules: RuleSpec)
    requires Quiet(o) && Stands(w.c, k, rules)
    ensures var x := RulesPass(o, w, k).0; Stands(x.c, k, rules) && x.calls > w.calls
  {
    var r := RuleRef(k);
    assert o.interfere(w.calls, w.c) == w.c;
    var (x, got) := Get(o, w, r);
    if got.Ok? {
      var v, cr := got.value, got.value.obj.cr;
      if cr.conditions == [] {
        UpdateKeeps(o, x, r, Status, Reporting(v, AVAILABLE, Unknown, "Reconciling", Starting), k, rules);
      } else if FINALIZER !in cr.finalizers {
        UpdateKeeps(o, x, r, Main, WithFinalizers(v, AddFinalizer(cr.finalizers)), k, rules);
      } else {
        KeepKeeps(o, x, k, v, rules);
      }
    }
  }

  lemma KeepKeeps(o: Oracle, w: World, k: Key, v: Versioned, rules: RuleSpec)
    requires Quiet(o) && v.obj.RuleObject?
    ensures Keeps(w, Keep(o, w, k, v).0, k, rules)
  {
    assert o.interfere(w.calls, w.c) == w.c;
    var (x, got) := Get(o, w, CmRef(k));
    if got.Err? {
      if got.error.NotFound? { CreateConfigMapKeeps(o, x, k, v, rules); }
    } else {
      assert o.interfere(x.calls, x.c) == x.c;
      var y := Local(o, x).0;
      var data := o.render(v.obj.rules);
      var sent := WithData(got.value, k, data);
      UpdateConfigMapKeeps(o, y, k, v, sent, o.hash(data), rules);
    }
  }

  // ---- calm passes ------------------------------------------------------

  /** The ConfigMap holds the rendered spec. */
  ghost predicate Rendered(o: Oracle, c: Cluster, k: Key, rules: RuleSpec) {
    CmRef(k) in c.objs && DataOf(k, c.objs[CmRef(k)].obj.configMap) == o.render(rules)
  }

  ghost function Distance(o: Oracle, c: Cluster, k: Key): nat
    requires RuleRef(k) in c.objs
  {
    var cr := c.objs[RuleRef(k)].obj.cr;
    One(cr.conditions == []) + One(FINALIZER !in cr.finalizers)
    + One(!Rendered(o, c, k, c.objs[RuleRef(k)].obj.rules))
  }

  /** A rollout writes Deployments only. */
  ghost predicate SameButDeployments(c: Cluster, d: Cluster) {
    forall r: Ref | r.kind != DeploymentKind :: CopyOf(d, r) == CopyOf(c, r)
  }

  lemma {:induction false} RollPartsFrame(o: Oracle, w: World, item: Item, ns: string, name: Name, parts: seq<string>)
    requires Calm(o, w.calls) && item.v.obj.DeploymentObject?
    ensures var x := RollParts(o, w, item, ns, name, parts); SameButDeployments(w.c, x.c) && x.calls >= w.calls
    decreases |parts|
  {
    if parts != [] {
      if parts[0] != name {
        RollPartsFrame(o, w, item, ns, name, parts[1..]);
      } else {
        assert o.fate(w.calls).Fine? && o.interfere(w.calls, w.c) == w.c;
        var sent := Sending(item.v, Marked(item.v.obj.deployment, o.now(w.calls)));
        var (x, told) := Update(o, w, DepRef(Key(ns, item.name)), Main, sent);
        CalmLater(o, w.calls, x.calls);
        RollPartsFrame(o, x, item.(v := if told.Ok? then told.value else sent), ns, name, parts[1..]);
      }
    }
  }

  lemma {:induction false} RollItemsFrame(o: Oracle, w: World, items: seq<Item>, ns: string, name: Name)
    requires Calm(o, w.calls) && forall i | i in items :: i.v.obj.DeploymentObject?
    ensures var x := RollItems(o, w, items, ns, name); SameButDeployments(w.c, x.c) && x.calls >= w.calls
    decreases |items|
  {
    if items != [] {
      var x := RollItem(o, w, items[0], ns, name);
      RollPartsFrame(o, w, items[0], ns, name, PartsOf(items[0].v.obj.deployment));
      CalmLater(o, w.calls, x.calls);
      RollItemsFrame(o, x, items[1..], ns, name);
    }
  }

  lemma RolloutFrame(o: Oracle, w: World, ns: string, name: Name)
    requires Calm(o, w.calls)
    ensures var (x, out) := Rollout(o, w, ns, name);
            SameButDeployments(w.c, x.c) && x.calls >= w.calls && out == Requeue
  {
    assert o.fate(w.calls).Fine? && o.interfere(w.calls, w.c) == w.c;
    var (x, listed) := ListDeployments(o, w, ns);
    CalmLater(o, w.calls, x.calls);
    RollItemsFrame(o, x, listed.value, ns, name);
  }

  /** A rule with another status: its conditions, and perhaps the checksum. */
  ghost predicate Restated(b: Object, d: Object) {
    && b.RuleObject? && d.RuleObject? && d.rules == b.rules
    && d.cr == b.cr.(conditions := d.cr.conditions) && d.cr.conditions != []
  }

  ghost predicate UpToDate(o: Oracle, c: Cluster, k: Key)
    requires RuleRef(k) in c.objs
  {
    CmRef(k) in c.objs
    && o.hash(DataOf(k, c.objs[CmRef(k)].obj.configMap)) == o.hash(o.render(c.objs[RuleRef(k)].obj.rules))
  }

  /** What a calm pass does to a live rule whose ConfigMap is missing or has another checksum:
      the ConfigMap gets the rendered data, the rule the checksum and Available=True. */
  ghost predicate Refreshes(o: Oracle, c: Cluster, k: Key, x: Cluster)
    requires RuleRef(k) in c.objs
  {
    var rule := c.objs[RuleRef(k)].obj;
    var data := o.render(rule.rules);
    && RuleRef(k) in x.objs && Restated(rule, x.objs[RuleRef(k)].obj)
    && x.objs[RuleRef(k)].obj.lastSum == o.hash(data)
    && Condition(AVAILABLE, True, "Reconciled", if CmRef(k) in c.objs then Updated else Created)
         in x.objs[RuleRef(k)].obj.cr.conditions
    && CmRef(k) in x.objs && x.objs[CmRef(k)].rv >= c.next
    && x.objs[CmRef(k)].obj.configMap ==
         (if CmRef(k) in c.objs then c.objs[CmRef(k)].obj.configMap.(data := map[FileOf(k) := data])
          else ConfigMapFor(k, rule.cr, data))
    && (forall r: Ref | r.kind != DeploymentKind && r != RuleRef(k) && r != CmRef(k) :: CopyOf(x, r) == CopyOf(c, r))
    && (CmRef(k) !in c.objs ==> forall r: Ref | r.kind == DeploymentKind :: CopyOf(x, r) == CopyOf(c, r))
  }

  /** A calm status write of a standing rule. */
  lemma CalmStatus(o: Oracle, w: World, k: Key, v: Versioned, sent: Versioned)
    requires Calm(o, w.calls) && RuleRef(k) in w.c.objs && w.c.objs[RuleRef(k)] == v && !v.obj.cr.deleting
    requires sent.rv == v.rv && sent.obj.RuleObject?
    requires Merged(v.obj, sent.obj, Status, w.c.next) == sent.obj
    ensures var (x, told) := Update(o, w, RuleRef(k), Status, sent);
            && Calm(o, x.calls) && x.calls == w.calls + 1 && x.c == Put(w.c, RuleRef(k), sent.obj)
            && told == Ok(x.c.objs[RuleRef(k)]) && x.c.objs[RuleRef(k)].obj == sent.obj
            && (forall r | r != RuleRef(k) :: CopyOf(x.c, r) == CopyOf(w.c, r)) && x.c.next >= w.c.next
  {
    CalmUpdate(o, w, RuleRef(k), Status, sent);
  }

  lemma CalmConclude(o: Oracle, w: World, k: Key, v: Versioned, sum: string) returns (y: World)
    requires Calm(o, w.calls) && RuleRef(k) in w.c.objs && w.c.objs[RuleRef(k)] == v && !v.obj.cr.deleting
    ensures var (x, out) := Conclude(o, w, k, v, sum);
            && RuleRef(k) in x.c.objs && x.c.objs[RuleRef(k)].obj == Summed(v, sum, Updated).obj
            && (forall r: Ref | r.kind != DeploymentKind && r != RuleRef(k) :: CopyOf(x.c, r) == CopyOf(w.c, r))
            && x.calls >= w.calls && out == Requeue
    ensures Conclude(o, w, k, v, sum) == Rollout(o, y, k.ns, k.name)
    ensures Calm(o, y.calls) && y.calls >= w.calls && y.c.next >= w.c.next
    ensures forall r | r != RuleRef(k) :: CopyOf(y.c, r) == CopyOf(w.c, r)
  {
    var sent := Summed(v, sum, Updated);
    CalmStatus(o, w, k, v, sent);
    y := Update(o, w, RuleRef(k), Status, sent).0;
    RolloutFrame(o, y, k.ns, k.name);
    assert CopyOf(Rollout(o, y, k.ns, k.name).0.c, RuleRef(k)) == CopyOf(y.c, RuleRef(k));
  }

  /** The ConfigMap has been written, the Deployments have not; all that is left is the rollout. */
  ghost predicate BeforeRollout(o: Oracle, w: World, k: Key, y: World) {
    && Calm(o, y.calls) && y.calls >= w.calls && y.c.next >= w.c.next
    && CmRef(k) in y.c.objs && w.c.next <= y.c.objs[CmRef(k)].rv < y.c.next
    && (forall r: Ref | r.kind !in {RuleKind, ConfigMapKind} || r.key != k :: CopyOf(y.c, r) == CopyOf(w.c, r))
  }

  /** After the put the rule has the status `v2`, the ConfigMap the rendered data, and the rest is as before. */
  ghost predicate AfterPut(o: Oracle, c: Cluster, k: Key, v2: Versioned, d: Cluster)
    requires RuleRef(k) in c.objs && CmRef(k) in c.objs
  {
    && v2.obj == Reporting(c.objs[RuleRef(k)], DEGRADED, False, "Updating", Updating).obj
    && RuleRef(k) in d.objs && d.objs[RuleRef(k)] == v2
    && CmRef(k) in d.objs
    && d.objs[CmRef(k)].obj == WithData(c.objs[CmRef(k)], k, o.render(c.objs[RuleRef(k)].obj.rules)).obj
    && c.next <= d.objs[CmRef(k)].rv < d.next
    && (forall r | r !in {RuleRef(k), CmRef(k)} :: CopyOf(d, r) == CopyOf(c, r))
  }

  /** The two writes that come before the last status and the rollout. */
  lemma CalmUntilPut(o: Oracle, w: World, k: Key, sum: string) returns (w2: World, v2: Versioned)
    requires Calm(o, w.calls) && RuleRef(k) in w.c.objs && !w.c.objs[RuleRef(k)].obj.cr.deleting
    requires CmRef(k) in w.c.objs && !UpToDate(o, w.c, k)
    ensures var v, found := w.c.objs[RuleRef(k)], w.c.objs[CmRef(k)];
            && AfterPut(o, w.c, k, v2, w2.c) && v2.obj.RuleObject? && Calm(o, w2.calls) && w2.calls >= w.calls
            && UpdateConfigMap(o, w, k, v, WithData(found, k, o.render(v.obj.rules)), sum) ==
                 Conclude(o, w2, k, v2, sum)
  {
    var v, found := w.c.objs[RuleRef(k)], w.c.objs[CmRef(k)];
    var sent := WithData(found, k, o.render(v.obj.rules));
    CalmStatus(o, w, k, v, Reporting(v, DEGRADED, False, "Updating", Updating));
    var (w1, told) := Update(o, w, RuleRef(k), Status, Reporting(v, DEGRADED, False, "Updating", Updating));
    assert CopyOf(w1.c, CmRef(k)) == CopyOf(w.c, CmRef(k));
    CalmPut(o, w1, k, sent);
    w2, v2 := Update(o, w1, CmRef(k), Main, sent).0, told.value;
    assert CopyOf(w2.c, RuleRef(k)) == CopyOf(w1.c, RuleRef(k));
  }

  /** Between the put and the end, only the rule and the Deployments change. */
  lemma ConcludedRefreshes(o: Oracle, c: Cluster, k: Key, v2: Versioned, d: Cluster, x: Cluster)
    requires RuleRef(k) in c.objs && CmRef(k) in c.objs && AfterPut(o, c, k, v2, d)
    requires RuleRef(k) in x.objs
    requires x.objs[RuleRef(k)].obj == Summed(v2, o.hash(o.render(c.objs[RuleRef(k)].obj.rules)), Updated).obj
    requires forall r: Ref | r.kind != DeploymentKind && r != RuleRef(k) :: CopyOf(x, r) == CopyOf(d, r)
    ensures Refreshes(o, c, k, x)
  {
    SetConditionHas(v2.obj.cr.conditions, Condition(AVAILABLE, True, "Reconciled", Updated));
    assert CopyOf(x, CmRef(k)) == CopyOf(d, CmRef(k));
    forall r: Ref | r.kind != DeploymentKind && r != RuleRef(k) && r != CmRef(k) ensures CopyOf(x, r) == CopyOf(c, r) {
      assert CopyOf(x, r) == CopyOf(d, r) == CopyOf(c, r);
    }
  }

  lemma CalmUpdateConfigMap(o: Oracle, w: World, k: Key) returns (y: World)
    requires Calm(o, w.calls) && RuleRef(k) in w.c.objs && !w.c.objs[RuleRef(k)].obj.cr.deleting
    requires CmRef(k) in w.c.objs && !UpToDate(o, w.c, k)
    ensures var v, found := w.c.objs[RuleRef(k)], w.c.objs[CmRef(k)];
            var data := o.render(v.obj.rules);
            var (x, out) := UpdateConfigMap(o, w, k, v, WithData(found, k, data), o.hash(data));
            && Refreshes(o, w.c, k, x.c) && x.calls >= w.calls
            && BeforeRollout(o, w, k, y) && (x, out) == Rollout(o, y, k.ns, k.name)
  {
    var sum := o.hash(o.render(w.c.objs[RuleRef(k)].obj.rules));
    var w2, v2 := CalmUntilPut(o, w, k, sum);
    y := CalmConcludeUpdate(o, w, k, w2, v2, sum);
  }

  lemma CalmConcludeUpdate(o: Oracle, w: World, k: Key, w2: World, v2: Versioned, sum: string) returns (y: World)
    requires RuleRef(k) in w.c.objs && !w.c.objs[RuleRef(k)].obj.cr.deleting && CmRef(k) in w.c.objs
    requires AfterPut(o, w.c, k, v2, w2.c) && Calm(o, w2.calls) && w2.calls >= w.calls
    requires sum == o.hash(o.render(w.c.objs[RuleRef(k)].obj.rules))
    ensures var (x, out) := Conclude(o, w2, k, v2, sum);
            && Refreshes(o, w.c, k, x.c) && x.calls >= w.calls
            && BeforeRollout(o, w, k, y) && (x, out) == Rollout(o, y, k.ns, k.name)
  {
    y := CalmConclude(o, w2, k, v2, sum);
    ConcludedRefreshes(o, w.c, k, v2, w2.c, Conclude(o, w2, k, v2, sum).0.c);
    assert CopyOf(w2.c, CmRef(k)) == CopyOf(y.c, CmRef(k));
  }

  /** The update of the ConfigMap with other data. */
  lemma CalmPut(o: Oracle, w: World, k: Key, sent: Versioned)
    requires Calm(o, w.calls) && CmRef(k) in w.c.objs && sent.obj.ConfigMapObject?
    requires w.c.objs[CmRef(k)].rv == sent.rv && w.c.objs[CmRef(k)].obj != sent.obj
    ensures var (x, put) := Update(o, w, CmRef(k), Main, sent);
            && put.Ok? && Calm(o, x.calls) && x.calls == w.calls + 1 && x.c.next == w.c.next + 1
            && CmRef(k) in x.c.objs && x.c.objs[CmRef(k)] == Versioned(sent.obj, w.c.next)
            && (forall r | r != CmRef(k) :: CopyOf(x.c, r) == CopyOf(w.c, r))
  {
    CalmUpdate(o, w, CmRef(k), Main, sent);
  }

  lemma CalmCreateConfigMap(o: Oracle, w: World, k: Key)
    requires Calm(o, w.calls) && RuleRef(k) in w.c.objs && !w.c.objs[RuleRef(k)].obj.cr.deleting
    requires CmRef(k) !in w.c.objs
    ensures var (x, out) := CreateConfigMap(o, w, k, w.c.objs[RuleRef(k)]);
            Refreshes(o, w.c, k, x.c) && x.calls >= w.calls && out == Done
  {
    var v := w.c.objs[RuleRef(k)];
    var data := o.render(v.obj.rules);
    var cm := ConfigMapObject(ConfigMapFor(k, v.obj.cr, data));
    CalmLocal(o, w);
    var w1 := Local(o, w).0;
    CalmLocal(o, w1);
    var w2 := Local(o, w1).0;
    CalmCreate(o, w2, CmRef(k), cm);
    var w3 := Create(o, w2, CmRef(k), cm).0;
    CalmLater(o, w.calls, w3.calls);
    CalmLocal(o, w3);
    var w4 := Local(o, w3).0;
    assert forall r: Ref | r != CmRef(k) :: CopyOf(w4.c, r) == CopyOf(w.c, r);
    assert CopyOf(w4.c, RuleRef(k)) == Some(v);
    CalmStatus(o, w4, k, v, Summed(v, o.hash(data), Created));
    SetConditionHas(v.obj.cr.conditions, Condition(AVAILABLE, True, "Reconciled", Created));
  }

  /** A calm pass on a standing rule. */
  ghost predicate StepTo(o: Oracle, c: Cluster, k: Key, x: Cluster)
    requires RuleRef(k) in c.objs
  {
    var v, cr := c.objs[RuleRef(k)], c.objs[RuleRef(k)].obj.cr;
    if cr.conditions == [] then
      x == Put(c, RuleRef(k), Reporting(v, AVAILABLE, Unknown, "Reconciling", Starting).obj)
    else if FINALIZER !in cr.finalizers then
      x == Put(c, RuleRef(k), v.obj.With(cr.(finalizers := cr.finalizers + [FINALIZER])))
    else if UpToDate(o, c, k) then x == c
    else Refreshes(o, c, k, x)
  }

  lemma CalmRulesPass(o: Oracle, w: World, k: Key)
    requires Calm(o, w.calls) && RuleRef(k) in w.c.objs && !w.c.objs[RuleRef(k)].obj.cr.deleting
    ensures var (x, out) := RulesPass(o, w, k);
            && StepTo(o, w.c, k, x.c) && x.calls >= w.calls && Calm(o, x.calls)
            && out == (if Live(w.c.objs[RuleRef(k)].obj.cr) && CmRef(k) !in w.c.objs then Done else Requeue)
  {
    var v := w.c.objs[RuleRef(k)];
    CalmGet(o, w, RuleRef(k));
    var y := Get(o, w, RuleRef(k)).0;
    if v.obj.cr.conditions == [] {
      CalmStatus(o, y, k, v, Reporting(v, AVAILABLE, Unknown, "Reconciling", Starting));
    } else if FINALIZER !in v.obj.cr.finalizers {
      CalmUpdate(o, y, RuleRef(k), Main, WithFinalizers(v, AddFinalizer(v.obj.cr.finalizers)));
    } else {
      CalmGet(o, y, CmRef(k));
      var z := Get(o, y, CmRef(k)).0;
      if CmRef(k) !in w.c.objs {
        CalmCreateConfigMap(o, z, k);
      } else {
        CalmLocal(o, z);
        if !UpToDate(o, w.c, k) { var _ := CalmUpdateConfigMap(o, Local(o, z).0, k); }
      }
    }
    CalmLater(o, w.calls, RulesPass(o, w, k).0.calls);
  }

  /** A calm pass that updates the ConfigMap ends with a rollout. */
  lemma CalmPassRolls(o: Oracle, w: World, k: Key) returns (y: World)
    requires Calm(o, w.calls) && RuleRef(k) in w.c.objs && Live(w.c.objs[RuleRef(k)].obj.cr)
    requires CmRef(k) in w.c.objs && !UpToDate(o, w.c, k)
    ensures BeforeRollout(o, w, k, y) && RulesPass(o, w, k) == Rollout(o, y, k.ns, k.name)
  {
    CalmGet(o, w, RuleRef(k));
    var u := Get(o, w, RuleRef(k)).0;
    CalmGet(o, u, CmRef(k));
    var z := Get(o, u, CmRef(k)).0;
    CalmLocal(o, z);
    y := CalmUpdateConfigMap(o, Local(o, z).0, k);
  }

  // ---- convergence ------------------------------------------------------

  ghost predicate Injective(hash: string -> string) {
    forall a, b | hash(a) == hash(b) :: a == b
  }

  /** A calm pass does one unit of what is left, and with nothing left it is the identity. */
  lemma PassApproaches(o: Oracle, w: World, k: Key, rules: RuleSpec)
    requires Calm(o, w.calls) && Stands(w.c, k, rules) && Injective(o.hash)
    ensures var x := RulesPass(o, w, k).0;
            && Calm(o, x.calls) && Stands(x.c, k, rules)
            && (Distance(o, w.c, k) > 0 ==> Distance(o, x.c, k) == Distance(o, w.c, k) - 1)
            && (Distance(o, w.c, k) == 0 ==> x.c == w.c)
  {
    CalmRulesPass(o, w, k);
    SetConditionHas(w.c.objs[RuleRef(k)].obj.cr.conditions, Condition(AVAILABLE, Unknown, "Reconciling", Starting));
  }

  /** With n passes to go: no more than that many units are left to do. */
  ghost predicate Within(o: Oracle, k: Key, rules: RuleSpec, n: nat, x: World) {
    Calm(o, x.calls) && Stands(x.c, k, rules) && Distance(o, x.c, k) <= n
  }

  lemma {:induction false} ConvergesIn(o: Oracle, w: World, k: Key, rules: RuleSpec, passes: nat)
    requires Within(o, k, rules, passes, w) && Injective(o.hash)
    ensures Within(o, k, rules, 0, RulesRepeated(o, w, k, passes))
  {
    var claim := (n: nat, x: World) => Within(o, k, rules, n, x);
    forall n: nat, x: World | n > 0 && claim(n, x) ensures claim(n - 1, RulesPass(o, x, k).0) {
      PassApproaches(o, x, k, rules);
    }
    RulesThroughout(o, k, claim, w, passes, 0);
  }

  ghost predicate RestsAt(o: Oracle, k: Key, rules: RuleSpec, c: Cluster, x: World) {
    Within(o, k, rules, 0, x) && x.c == c
  }

  lemma {:induction false} Rests(o: Oracle, w: World, k: Key, rules: RuleSpec, passes: nat)
    requires Within(o, k, rules, 0, w) && Injective(o.hash)
    ensures RulesRepeated(o, w, k, passes).c == w.c
  {
    var c := w.c;
    var claim := (n: nat, x: World) => RestsAt(o, k, rules, c, x);
    forall n: nat, x: World | n > 0 && claim(n, x) ensures claim(n - 1, RulesPass(o, x, k).0) {
      PassApproaches(o, x, k, rules);
    }
    RulesThroughout(o, k, claim, w, passes, 0);
  }

  /** From a calm start: at most three passes change anything. After them the ConfigMap holds
      the rendered spec, and every later pass leaves the whole cluster as it is. */
  lemma ConvergesInThree(o: Oracle, w: World, k: Key, rules: RuleSpec, passes: nat, extra: nat)
    requires Calm(o, w.calls) && Stands(w.c, k, rules) && Injective(o.hash) && passes >= Distance(o, w.c, k)
    ensures Distance(o, w.c, k) <= 3
    ensures Stands(RulesRepeated(o, w, k, passes).c, k, rules)
            && Rendered(o, RulesRepeated(o, w, k, passes).c, k, rules)
    ensures RulesRepeated(o, w, k, passes + extra).c == RulesRepeated(o, w, k, passes).c
  {
    ConvergesIn(o, w, k, rules, passes);
    RepeatedSum(o, w, k, passes, extra);
    Rests(o, RulesRepeated(o, w, k, passes), k, rules, extra);
  }

  lemma {:induction false} FaultsRunOut(o: Oracle, w: World, k: Key, rules: RuleSpec, passes: nat)
    requires Quiet(o) && Stands(w.c, k, rules)
    ensures var x := RulesRepeated(o, w, k, passes); Stands(x.c, k, rules) && x.calls >= w.calls + passes
    decreases passes
  {
    if passes > 0 {
      PassKeeps(o, w, k, rules);
      FaultsRunOut(o, RulesPass(o, w, k).0, k, rules, passes - 1);
    }
  }

  lemma {:induction false} RepeatedSum(o: Oracle, w: World, k: Key, m: nat, n: nat)
    ensures RulesRepeated(o, w, k, m + n) == RulesRepeated(o, RulesRepeated(o, w, k, m), k, n)
    decreases m
  {
    if m > 0 {
      RepeatedSum(o, RulesPass(o, w, k).0, k, m - 1, n);
    }
  }

  /** Despite finitely many faults: whatever the first `faulty` calls do, and whatever state
      the rule, the ConfigMap and the recorded checksum are in, after `faulty` + 3 passes the
      ConfigMap holds the rendered spec, and it stays so. */
  lemma ConvergesDespiteFaults(o: Oracle, w: World, k: Key, rules: RuleSpec, faulty: nat, more: nat)
    requires Quiet(o) && Stands(w.c, k, rules) && Injective(o.hash)
    requires forall i: nat | i >= faulty :: o.fate(i).Fine?
    requires more >= 3
    ensures Rendered(o, RulesRepeated(o, w, k, faulty + more).c, k, rules)
  {
    FaultsRunOut(o, w, k, rules, faulty);
    RepeatedSum(o, w, k, faulty, more);
    var x := RulesRepeated(o, w, k, faulty);
    assert Calm(o, x.calls);
    ConvergesInThree(o, x, k, rules, more, 0);
  }
}
