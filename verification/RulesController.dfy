/** The VillipRules reconciler: it keeps a ConfigMap at the rendered spec of the rule, restarts
    the Deployments that name it, and releases a rule that is being deleted. Each method
    computes what `RulesPasses` says. */
module RulesController {
  import opened Text
  import opened Objects
  import opened Api
  import opened ProxyPasses
  import opened Claims
  import opened RulesPasses

  class VillipRulesReconciler {
    const api: ApiServer

    constructor (api: ApiServer)
      ensures this.api == api
    {
      this.api := api;
    }

    method Reconcile(req: Key) returns (result: Outcome)
      modifies api
      ensures (api.View(), result) == RulesPass(api.oracle, old(api.View()), req)
    {
      var r := RuleRef(req);
      var got := api.Gets(r);
      if got.Err? {
        if got.error.NotFound? { return Done; }
        return Failed(got.error);
      }
      var rule := got.value;
      if |rule.obj.cr.conditions| == 0 {
        result := InitsStatus(api, r, rule);
        return;
      }
      if FINALIZER !in rule.obj.cr.finalizers {
        result := AddsFinalizer(api, r, rule);
        return;
      }
      if rule.obj.cr.deleting {
        result := MarkedToBeDeleted(req);
        return;
      }
      result := Keeps(req, rule);
    }

    method MarkedToBeDeleted(req: Key) returns (result: Outcome)
      modifies api
      ensures (api.View(), result) == Release(api.oracle, old(api.View()), req)
    {
      var r := RuleRef(req);
      var again := api.Gets(r);
      if again.Err? { return Failed(again.error); }
      var f := again.value.obj.cr.finalizers;
      ghost var start := api.View();
      for i := 0 to |f|
        invariant Strip(api.oracle, start, r, 0, |f|) == Strip(api.oracle, api.View(), r, i, |f|)
      {
        var told := api.PatchesFinalizer(r, i);
        if told.Err? { return Failed(told.error); }
      }
      return Done;
    }

    /** The part of Reconcile that a live, initialised rule reaches. */
    method Keeps(req: Key, rule: Versioned) returns (result: Outcome)
      requires rule.obj.RuleObject?
      modifies api
      ensures (api.View(), result) == Keep(api.oracle, old(api.View()), req, rule)
    {
      var got := api.Gets(CmRef(req));
      if got.Err? {
        if got.error.NotFound? {
          result := CreatesConfigMap(req, rule);
          return;
        }
        return Failed(got.error);
      }
      var found := got.value.obj.configMap;
      var rendered := api.Locally();
      if !rendered { return Failed(Unrendered); }
      var data := api.oracle.render(rule.obj.rules);
      var sumRule := api.oracle.hash(data);
      var sumFound := api.oracle.hash(DataOf(req, found));
      if sumFound != sumRule {
        found := found.(data := map[FileOf(req) := data]);
        result := UpdatesConfigMap(req, rule, got.value.(obj := ConfigMapObject(found)), sumRule);
        return;
      }
      return Requeue;
    }

    method CreatesConfigMap(req: Key, v: Versioned) returns (result: Outcome)
      requires v.obj.RuleObject?
      modifies api
      ensures (api.View(), result) == CreateConfigMap(api.oracle, old(api.View()), req, v)
    {
      var r, rule := RuleRef(req), v;
      var data := api.oracle.render(rule.obj.rules);
      var rendered := api.Locally();
      if !rendered { return Failed(Unrendered); }
      var cm := ConfigMap(rule.obj.cr.labels, map[FileOf(req) := data]);
      var owned := api.Locally();
      if !owned { return Failed(OwnerReference); }
      var sum := api.oracle.hash(DataOf(req, cm));
      var made := api.Creates(CmRef(req), ConfigMapObject(cm));
      if made.Err? {
        rule := Reporting(rule, AVAILABLE, False, "Reconciling", CannotCreate(ConfigMapKind, made.error));
        var told := api.Updates(r, Status, rule);
        if told.Err? { return Failed(told.error); }
        return Failed(made.error);
      }
      var again := api.Locally();
      if !again { return Failed(OwnerReference); }
      rule := Summed(rule, sum, Created);
      var told := api.Updates(r, Status, rule);
      if told.Err? { return Failed(told.error); }
      return Done;
    }

    method UpdatesConfigMap(req: Key, v: Versioned, found: Versioned, sumRule: string) returns (result: Outcome)
      requires v.obj.RuleObject? && found.obj.ConfigMapObject?
      modifies api
      ensures (api.View(), result) == UpdateConfigMap(api.oracle, old(api.View()), req, v, found, sumRule)
    {
      var r := RuleRef(req);
      var rule := Reporting(v, DEGRADED, False, "Updating", Updating);
      var told := api.Updates(r, Status, rule);
      if told.Err? { return Failed(told.error); }
      rule := told.value;

      var put := api.Updates(CmRef(req), Main, found);
      if put.Err? {
        result := Excuses(req, put.error, sumRule);
        return;
      }
      result := Concludes(req, rule, sumRule);
    }

    /** A failed write of the ConfigMap is reported on a fresh copy of the rule, and then the
        update ends as if it had succeeded. */
    method Excuses(req: Key, why: ApiError, sumRule: string) returns (result: Outcome)
      modifies api
      ensures (api.View(), result) == Excuse(api.oracle, old(api.View()), req, why, sumRule)
    {
      var again := api.Gets(RuleRef(req));
      if again.Err? { return Failed(again.error); }
      var rule := Reporting(again.value, AVAILABLE, False, "Updating", CannotUpdate(ConfigMapKind, why));
      var told := api.Updates(RuleRef(req), Status, rule);
      if told.Err? { return Failed(told.error); }
      result := Concludes(req, told.value, sumRule);
    }

    /** The end of the update, with the checksum, Available=True and the rollout. */
    method Concludes(req: Key, v: Versioned, sumRule: string) returns (result: Outcome)
      requires v.obj.RuleObject?
      modifies api
      ensures (api.View(), result) == Conclude(api.oracle, old(api.View()), req, v, sumRule)
    {
      var told := api.Updates(RuleRef(req), Status, Summed(v, sumRule, Updated));
      if told.Err? { return Failed(told.error); }

      var failed := RolloutDependentProxies(req.ns, req.name);
      if failed.Some? { return Failed(failed.value); }
      return Requeue;
    }

    method RolloutDependentProxies(ns: string, name: Name) returns (err: Option<ApiError>)
      modifies api
      ensures (api.View(), if err.Some? then Failed(err.value) else Requeue)
           == Rollout(api.oracle, old(api.View()), ns, name)
    {
      var deplList := api.ListsDeployments(ns);
      if deplList.Err? { return Some(deplList.error); }
      var items := deplList.value;
      ghost var start := api.View();
      for i := 0 to |items|
        invariant RollItems(api.oracle, start, items, ns, name)
               == RollItems(api.oracle, api.View(), items[i..], ns, name)
      {
        assert items[i..][0] == items[i] && items[i..][1..] == items[i + 1..];
        RollsItem(items[i], ns, name);
      }
      return None;
    }

    method RollsItem(item: Item, ns: string, name: Name)
      requires item.v.obj.DeploymentObject?
      modifies api
      ensures api.View() == RollItem(api.oracle, old(api.View()), item, ns, name)
    {
      var dep := item;
      var annotations := dep.v.obj.deployment.annotations;
      if CONF in annotations {
        var parts := Split(annotations[CONF], COMMA);
        ghost var start := api.View();
        for j := 0 to |parts|
          invariant dep.v.obj.DeploymentObject? && dep.name == item.name
          invariant RollParts(api.oracle, start, item, ns, name, parts)
                 == RollParts(api.oracle, api.View(), dep, ns, name, parts[j..])
        {
          assert parts[j..][0] == parts[j] && parts[j..][1..] == parts[j + 1..];
          if parts[j] == name {
            var d := dep.v.obj.deployment;
            d := d.(template := d.template.(marks := map[RELOADED_AT := Time(api.oracle.now(api.calls))]));
            dep := dep.(v := dep.v.(obj := DeploymentObject(d)));
            var told := api.Updates(DepRef(Key(ns, dep.name)), Main, dep.v);
            if told.Ok? { dep := dep.(v := told.value); }
          }
        }
      }
    }
  }
}
