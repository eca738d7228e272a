/** What a VillipRules pass guarantees, whichever calls fail, whatever order lists come
    in, and whatever others do between its calls. */
module RulesSafety {
  import opened Text
  import opened Objects
  import opened Api
  import opened ProxyPasses
  import opened RulesPasses
  import opened Guarantees

  ghost predicate Acts(o: Oracle, k: Key, read: Object, w: World, x: World) {
    Leads(o, w, x) && RulesActs(k, true, read, w, x)
  }

  lemma ActsTransitive(o: Oracle, k: Key, read: Object, w: World, x: World, y: World)
    requires Acts(o, k, read, w, x) && Acts(o, k, read, x, y)
    ensures Acts(o, k, read, w, y)
  {
    LeadsTransitive(o, w, x, y);
  }

  /** A patch is not guarded by a version, but all it can do is drop one finalizer. */
  lemma PatchLeads(o: Oracle, w: World, r: Ref, i: nat)
    requires Lawful(o) && InOrder(o, w) && r.kind == RuleKind
    ensures var x := PatchFinalizer(o, w, r, i).0; Leads(o, w, x) && ResourceOnly(r, w, x)
  {
    var told := PatchFinalizer(o, w, r, i).1;
    var error := if told.Ok? then None else Some(told.error);
    var a := Send(o, w, ToPatch(r, i), error);
    SendLeads(o, w, ToPatch(r, i), error);
    if !o.fate(w.calls).Rejected? && r in a.c.objs && i < |a.c.objs[r].obj.cr.finalizers| {
      CutLeads(o, w, a, r, i);
    }
  }

  lemma CutLeads(o: Oracle, w: World, a: World, r: Ref, i: nat)
    requires Lawful(o) && Leads(o, w, a) && a.log == w.log
    requires r.kind == RuleKind && r in a.c.objs && i < |a.c.objs[r].obj.cr.finalizers|
    ensures var stored := a.c.objs[r].obj;
            var x := Commit(a, r, Kept(stored.With(stored.cr.(finalizers := Without(stored.cr.finalizers, i)))));
            Leads(o, w, x) && ResourceOnly(r, w, x)
  {
    var stored := a.c.objs[r].obj;
    var cut := stored.With(stored.cr.(finalizers := Without(stored.cr.finalizers, i)));
    CommitLeads(o, a, r, Kept(cut));
    LeadsTransitive(o, w, a, Commit(a, r, Kept(cut)));
    assert ResourceEdit(Some(stored), Kept(cut));
  }

  lemma {:induction false} StripLeads(o: Oracle, w: World, r: Ref, i: nat, n: nat)
    requires Lawful(o) && InOrder(o, w) && r.kind == RuleKind
    ensures var x := Strip(o, w, r, i, n).0; Leads(o, w, x) && ResourceOnly(r, w, x)
    decreases n - i
  {
    if i < n {
      var (x, told) := PatchFinalizer(o, w, r, i);
      PatchLeads(o, w, r, i);
      if told.Ok? {
        StripLeads(o, x, r, i + 1, n);
        LeadsTransitive(o, w, x, Strip(o, x, r, i + 1, n).0);
      }
    }
  }

  lemma ReleaseLeads(o: Oracle, w: World, k: Key)
    requires Lawful(o) && InOrder(o, w)
    ensures var x := Release(o, w, k).0; Leads(o, w, x) && ResourceOnly(RuleRef(k), w, x)
  {
    var (x, again) := Get(o, w, RuleRef(k));
    GetLeads(o, w, RuleRef(k));
    if again.Ok? {
      var n := |again.value.obj.cr.finalizers|;
      StripLeads(o, x, RuleRef(k), 0, n);
      LeadsTransitive(o, w, x, Strip(o, x, RuleRef(k), 0, n).0);
    }
  }

  lemma SummedUpdate(o: Oracle, w: World, k: Key, read: Object, v: Versioned, sum: string, message: Message)
    requires Lawful(o) && InOrder(o, w) && Held(w.c, RuleRef(k), v)
    ensures var (x, told) := Update(o, w, RuleRef(k), Status, Summed(v, sum, message));
            Acts(o, k, read, w, x)
  {
    var sent := Summed(v, sum, message);
    SetConditionKeepsTidy(v.obj.cr.conditions, Condition(AVAILABLE, True, "Reconciled", message));
    assert Merged(v.obj, sent.obj, Status, 0) == sent.obj;
    ResourceUpdate(o, w, RuleRef(k), Status, v, sent.obj);
    assert v.(obj := sent.obj) == sent;
  }

  lemma CreateConfigMapActs(o: Oracle, w: World, k: Key, read: Object, v: Versioned)
    requires Lawful(o) && InOrder(o, w) && Held(w.c, RuleRef(k), v) && read == v.obj
    ensures Acts(o, k, read, w, CreateConfigMap(o, w, k, v).0)
  {
    var r := RuleRef(k);
    var data := o.render(v.obj.rules);
    var (w1, rendered) := Local(o, w);
    ArriveLeads(o, w);
    if rendered {
      var (w2, owned) := Local(o, w1);
      ArriveLeads(o, w1);
      LeadsTransitive(o, w, w1, w2);
      if owned {
        var cm := ConfigMapObject(ConfigMapFor(k, v.obj.cr, data));
        var (w3, made) := Create(o, w2, CmRef(k), cm);
        CreateLeads(o, w2, CmRef(k), cm);
        assert Acts(o, k, read, w2, w3);
        ActsTransitive(o, k, read, w, w2, w3);
        if made.Err? {
          HeldLater(o, w, w3, r, v);
          StatusUpdate(o, w3, r, v, AVAILABLE, False, "Reconciling", CannotCreate(ConfigMapKind, made.error));
          ActsTransitive(o, k, read, w, w3, CreateConfigMap(o, w, k, v).0);
        } else {
          var (w4, again) := Local(o, w3);
          ArriveLeads(o, w3);
          LeadsTransitive(o, w, w3, w4);
          if again {
            HeldLater(o, w, w4, r, v);
            SummedUpdate(o, w4, k, read, v, o.hash(data), Created);
            ActsTransitive(o, k, read, w, w4, CreateConfigMap(o, w, k, v).0);
          }
        }
      }
    }
  }

  lemma PutActs(o: Oracle, w: World, k: Key, read: Object, found: Versioned, data: string)
    requires Lawful(o) && InOrder(o, w) && Held(w.c, CmRef(k), found)
    ensures var sent := WithData(found, k, data);
            Acts(o, k, read, w, Update(o, w, CmRef(k), Main, sent).0)
  {
    UpdateLeads(o, w, CmRef(k), Main, found,
                WithData(found, k, data).obj);
  }

  lemma UpdateConfigMapActs(o: Oracle, w: World, k: Key, read: Object, v: Versioned, found: Versioned, data: string,
                            sum: string)
    requires Lawful(o) && InOrder(o, w) && Held(w.c, RuleRef(k), v) && Held(w.c, CmRef(k), found)
    ensures var sent := WithData(found, k, data);
            Acts(o, k, read, w, UpdateConfigMap(o, w, k, v, sent, sum).0)
  {
    var r, cm := RuleRef(k), CmRef(k);
    var obj := WithData(found, k, data).obj;
    var sent := found.(obj := obj);
    var (w1, told) := Update(o, w, r, Status, Reporting(v, DEGRADED, False, "Updating", Updating));
    StatusUpdate(o, w, r, v, DEGRADED, False, "Updating", Updating);
    assert Acts(o, k, read, w, w1);
    if told.Ok? {
      HeldLater(o, w, w1, cm, found);
      var (w2, put) := Update(o, w1, cm, Main, sent);
      PutActs(o, w1, k, read, found, data);
      ActsTransitive(o, k, read, w, w1, w2);
      if put.Ok? {
        HeldLater(o, w1, w2, r, told.value);
        ConcludeActs(o, w2, k, read, told.value, sum);
        ActsTransitive(o, k, read, w, w2, Conclude(o, w2, k, told.value, sum).0);
      } else {
        ExcuseActs(o, w2, k, read, put.error, sum);
        ActsTransitive(o, k, read, w, w2, UpdateConfigMap(o, w, k, v, sent, sum).0);
      }
    }
  }

  lemma ExcuseActs(o: Oracle, w: World, k: Key, read: Object, why: ApiError, sum: string)
    requires Lawful(o) && InOrder(o, w)
    ensures Acts(o, k, read, w, Excuse(o, w, k, why, sum).0)
  {
    var r := RuleRef(k);
    var (x, again) := Get(o, w, r);
    GetLeads(o, w, r);
    if again.Ok? {
      var sent := Reporting(again.value, AVAILABLE, False, "Updating", CannotUpdate(ConfigMapKind, why));
      var (y, reported) := Update(o, x, r, Status, sent);
      StatusUpdate(o, x, r, again.value, AVAILABLE, False, "Updating", CannotUpdate(ConfigMapKind, why));
      ActsTransitive(o, k, read, w, x, y);
      if reported.Ok? {
        ConcludeActs(o, y, k, read, reported.value, sum);
        ActsTransitive(o, k, read, w, y, Conclude(o, y, k, reported.value, sum).0);
      }
    }
  }

  lemma ConcludeActs(o: Oracle, w: World, k: Key, read: Object, v: Versioned, sum: string)
    requires Lawful(o) && InOrder(o, w) && Held(w.c, RuleRef(k), v)
    ensures Acts(o, k, read, w, Conclude(o, w, k, v, sum).0)
  {
    var (x, told) := Update(o, w, RuleRef(k), Status, Summed(v, sum, Updated));
    SummedUpdate(o, w, k, read, v, sum, Updated);
    if told.Ok? {
      RolloutActs(o, x, k, read);
      ActsTransitive(o, k, read, w, x, Rollout(o, x, k.ns, k.name).0);
    }
  }

  /** A listed Deployment: managed, and unchanged as long as its version is. */
  ghost predicate Listed(o: Oracle, w: World, k: Key, item: Item) {
    && item.v.obj.DeploymentObject?
    && Held(w.c, DepRef(Key(k.ns, item.name)), item.v)
    && Managed(item.v.obj.deployment)
    && StampedBefore(item.v.obj.deployment, o.now(w.calls))
  }

  lemma ListedLater(o: Oracle, w: World, x: World, k: Key, item: Item)
    requires Lawful(o) && Leads(o, w, x) && Listed(o, w, k, item)
    ensures Listed(o, x, k, item)
  {
    assert w.calls < x.calls ==> o.now(w.calls) < o.now(x.calls);
    HeldLater(o, w, x, DepRef(Key(k.ns, item.name)), item.v);
  }

  lemma RolloutActs(o: Oracle, w: World, k: Key, read: Object)
    requires Lawful(o) && InOrder(o, w)
    ensures Acts(o, k, read, w, Rollout(o, w, k.ns, k.name).0)
  {
    var (x, listed) := ListDeployments(o, w, k.ns);
    ArriveLeads(o, w);
    if listed.Ok? {
      var names := o.order(w.calls, ManagedNames(x.c, k.ns));
      OrderKeeps(o.order, w.calls, ManagedNames(x.c, k.ns));
      forall i | i in listed.value ensures Listed(o, x, k, i) {
        var j :| 0 <= j < |listed.value| && listed.value[j] == i;
        assert names[j] in names;
      }
      RollItemsActs(o, x, k, read, listed.value);
      ActsTransitive(o, k, read, w, x, RollItems(o, x, listed.value, k.ns, k.name));
    }
  }

  lemma {:induction false} RollItemsActs(o: Oracle, w: World, k: Key, read: Object, items: seq<Item>)
    requires Lawful(o) && InOrder(o, w)
    requires forall i | i in items :: i.v.obj.DeploymentObject? && Listed(o, w, k, i)
    ensures Acts(o, k, read, w, RollItems(o, w, items, k.ns, k.name))
    decreases |items|
  {
    if items != [] {
      var x := RollItem(o, w, items[0], k.ns, k.name);
      RollPartsActs(o, w, k, read, items[0], items[0], PartsOf(items[0].v.obj.deployment));
      forall i | i in items[1..] ensures Listed(o, x, k, i) { ListedLater(o, w, x, k, i); }
      RollItemsActs(o, x, k, read, items[1..]);
      ActsTransitive(o, k, read, w, x, RollItems(o, x, items[1..], k.ns, k.name));
    }
  }

  /** `base` is the copy the server knows; `item` may carry, besides, a mark that was not taken. */
  ghost predicate Carries(item: Item, base: Item) {
    && item.name == base.name && item.v.rv == base.v.rv && item.v.obj.DeploymentObject? && base.v.obj.DeploymentObject?
    && exists marks :: item.v.obj.deployment
         == base.v.obj.deployment.(template := base.v.obj.deployment.template.(marks := marks))
  }

  lemma {:induction false} RollPartsActs(o: Oracle, w: World, k: Key, read: Object, item: Item, base: Item,
                                         parts: seq<string>)
    requires Lawful(o) && InOrder(o, w) && Listed(o, w, k, base)
    requires item == base || Carries(item, base)
    requires k.name in parts ==> k.name in PartsOf(base.v.obj.deployment)
    ensures Acts(o, k, read, w, RollParts(o, w, item, k.ns, k.name, parts))
    decreases |parts|
  {
    if parts != [] {
      if parts[0] != k.name {
        RollPartsActs(o, w, k, read, item, base, parts[1..]);
      } else {
        var r, b := DepRef(Key(k.ns, item.name)), base.v.obj.deployment;
        var d := Marked(item.v.obj.deployment, o.now(w.calls));
        var sent := Sending(item.v, d);
        assert d == Marked(b, o.now(w.calls));
        var (x, told) := Update(o, w, r, Main, sent);
        MarkActs(o, w, k, read, base);
        assert base.v.(obj := DeploymentObject(d)) == sent;
        if told.Ok? {
          var next := item.(v := told.value);
          assert k.name in PartsOf(next.v.obj.deployment);
          RollPartsActs(o, x, k, read, next, next, parts[1..]);
        } else {
          ListedLater(o, w, x, k, base);
          assert d == b.(template := b.template.(marks := d.template.marks));
          assert Carries(item.(v := sent), base);
          RollPartsActs(o, x, k, read, item.(v := sent), base, parts[1..]);
        }
        ActsTransitive(o, k, read, w, x, RollParts(o, w, item, k.ns, k.name, parts));
      }
    }
  }

  /** The Deployment that a rollout makes of a listed one. */
  lemma MarkAllowed(o: Oracle, w: World, k: Key, read: Object, base: Item, n: nat)
    requires Lawful(o) && InOrder(o, w) && Listed(o, w, k, base) && k.name in PartsOf(base.v.obj.deployment)
    requires n >= w.c.next
    ensures var b := base.v.obj.deployment;
            var m := Merged(base.v.obj, DeploymentObject(Marked(b, o.now(w.calls))), Main, n);
            && Sound(m, n + 1) && Managed(m.deployment) && m.deployment.annotations == b.annotations
            && StampedBefore(m.deployment, o.now(w.calls + 1))
            && RulesEvent(k, true, read, Wrote(DepRef(Key(k.ns, base.name)), Some(base.v.obj), Kept(m)))
  {
    var b := base.v.obj.deployment;
    var placed := Placed(Some(b), Marked(b, o.now(w.calls)), n);
    assert o.now(w.calls) < o.now(w.calls + 1);
    assert VolumeNames(placed) == VolumeNames(b);
    assert placed == Marked(b, o.now(w.calls)).(rolledAt := placed.rolledAt);
    assert RolloutEdit(b, placed, k.name);
  }

  lemma MarkSendable(o: Oracle, w: World, k: Key, read: Object, base: Item)
    requires Lawful(o) && InOrder(o, w) && Listed(o, w, k, base) && k.name in PartsOf(base.v.obj.deployment)
    ensures Sendable(o, w, base.v.obj, Main, DeploymentObject(Marked(base.v.obj.deployment, o.now(w.calls))))
  {
    var b := base.v.obj.deployment;
    var d := Marked(b, o.now(w.calls));
    assert o.now(w.calls) < o.now(w.calls + 1);
    assert VolumeNames(d) == VolumeNames(b);
    forall n: nat | n >= w.c.next ensures Sound(Merged(base.v.obj, DeploymentObject(d), Main, n), n + 1) {
      MarkAllowed(o, w, k, read, base, n);
    }
  }

  lemma MarkLogged(o: Oracle, w: World, x: World, k: Key, read: Object, base: Item)
    requires Lawful(o) && InOrder(o, w) && Listed(o, w, k, base) && k.name in PartsOf(base.v.obj.deployment)
    requires var r := DepRef(Key(k.ns, base.name));
             var sent := DeploymentObject(Marked(base.v.obj.deployment, o.now(w.calls)));
             Leads(o, w, x) && (x.log == w.log || exists n: nat ::
               n >= w.c.next && x.log == w.log + [Wrote(r, Some(base.v.obj), Kept(Merged(base.v.obj, sent, Main, n)))])
    ensures Acts(o, k, read, w, x)
  {
    var r, sent := DepRef(Key(k.ns, base.name)), DeploymentObject(Marked(base.v.obj.deployment, o.now(w.calls)));
    if x.log != w.log {
      var n: nat :| n >= w.c.next
          && x.log == w.log + [Wrote(r, Some(base.v.obj), Kept(Merged(base.v.obj, sent, Main, n)))];
      MarkAllowed(o, w, k, read, base, n);
    }
  }

  lemma MarkListed(o: Oracle, w: World, x: World, k: Key, read: Object, base: Item, v: Versioned)
    requires Lawful(o) && InOrder(o, w) && Listed(o, w, k, base) && k.name in PartsOf(base.v.obj.deployment)
    requires Leads(o, w, x) && x.calls == w.calls + 1 && Held(x.c, DepRef(Key(k.ns, base.name)), v)
    requires var sent := DeploymentObject(Marked(base.v.obj.deployment, o.now(w.calls)));
             exists n: nat :: n >= w.c.next && v.obj == Merged(base.v.obj, sent, Main, n)
    ensures v.obj.DeploymentObject? && Listed(o, x, k, base.(v := v))
    ensures v.obj.deployment.annotations == base.v.obj.deployment.annotations
  {
    var sent := DeploymentObject(Marked(base.v.obj.deployment, o.now(w.calls)));
    var n: nat :| n >= w.c.next && v.obj == Merged(base.v.obj, sent, Main, n);
    MarkAllowed(o, w, k, read, base, n);
  }

  /** One rollout of one listed Deployment. */
  lemma MarkActs(o: Oracle, w: World, k: Key, read: Object, base: Item)
    requires Lawful(o) && InOrder(o, w) && Listed(o, w, k, base) && k.name in PartsOf(base.v.obj.deployment)
    ensures var b := base.v.obj.deployment;
            var (x, told) := Update(o, w, DepRef(Key(k.ns, base.name)), Main,
                                    Sending(base.v, Marked(b, o.now(w.calls))));
            && Acts(o, k, read, w, x)
            && (told.Ok? ==> told.value.obj.DeploymentObject? && Listed(o, x, k, base.(v := told.value))
                             && told.value.obj.deployment.annotations == b.annotations)
  {
    var r, sent := DepRef(Key(k.ns, base.name)), DeploymentObject(Marked(base.v.obj.deployment, o.now(w.calls)));
    MarkSendable(o, w, k, read, base);
    UpdateLeads(o, w, r, Main, base.v, sent);
    var (x, told) := Update(o, w, r, Main, base.v.(obj := sent));
    MarkLogged(o, w, x, k, read, base);
    if told.Ok? { MarkListed(o, w, x, k, read, base, told.value); }
  }

  lemma KeepActs(o: Oracle, w: World, k: Key, read: Object, v: Versioned)
    requires Lawful(o) && InOrder(o, w) && Held(w.c, RuleRef(k), v) && read == v.obj
    ensures Acts(o, k, read, w, Keep(o, w, k, v).0)
  {
    var (x, got) := Get(o, w, CmRef(k));
    GetLeads(o, w, CmRef(k));
    HeldLater(o, w, x, RuleRef(k), v);
    if got.Err? {
      if got.error.NotFound? { CreateConfigMapActs(o, x, k, read, v); }
    } else {
      var (y, rendered) := Local(o, x);
      ArriveLeads(o, x);
      HeldLater(o, x, y, RuleRef(k), v);
      HeldLater(o, x, y, CmRef(k), got.value);
      var data := o.render(v.obj.rules);
      UpdateConfigMapActs(o, y, k, read, v, got.value, data, o.hash(data));
      ActsTransitive(o, k, read, x, y, Keep(o, w, k, v).0);
    }
    ActsTransitive(o, k, read, w, x, Keep(o, w, k, v).0);
  }

  /** One pass of the rules controller under any faults and any interference: the cluster
      keeps its invariants; every write is one of the allowed ones; Deployments are touched
      only where they are managed and name the rule, and only by a later rollout time; and
      unless the rule that was fetched is initialised, claimed and not being deleted,
      nothing but that rule is written. */
  lemma RulesGuarantee(o: Oracle, w: World, k: Key)
    requires Lawful(o) && InOrder(o, w)
    ensures var x := RulesPass(o, w, k).0;
            && Leads(o, w, x) && x.calls > w.calls
            && (x.log != w.log ==>
                  && |x.log| > |w.log| && x.log[|w.log|].Read? && x.log[|w.log|].ref == RuleRef(k)
                  && x.log[|w.log|].obj.RuleObject?
                  && RulesActs(k, Live(x.log[|w.log|].obj.cr), x.log[|w.log|].obj, w, x))
  {
    var r := RuleRef(k);
    var (x, got) := Get(o, w, r);
    GetLeads(o, w, r);
    if got.Ok? {
      var y := RulesPass(o, w, k).0;
      var cr := got.value.obj.cr;
      if cr.conditions == [] { InitStatusLeads(o, x, r, got.value); }
      else if FINALIZER !in cr.finalizers { ClaimFinalizerLeads(o, x, r, got.value); }
      else if cr.deleting { ReleaseLeads(o, x, k); }
      else { KeepActs(o, x, k, got.value.obj, got.value); }
      LeadsTransitive(o, w, x, y);
      assert y.log[|w.log|] == x.log[|w.log|] == Read(r, got.value.obj);
    }
  }
}
