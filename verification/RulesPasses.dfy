/** One reconciliation pass of the VillipRules controller, as a function of the oracle
    and of the world it starts in. `RulesController` has the code that computes it. */
module RulesPasses {
  import opened Text
  import opened Objects
  import opened Api
  import opened ProxyPasses

  ghost function RulesPass(o: Oracle, w: World, k: Key): (World, Outcome) {
    var r := RuleRef(k);
    var (w1, got) := Get(o, w, r);
    if got.Err? then (w1, if got.error.NotFound? then Done else Failed(got.error))
    else if got.value.obj.cr.conditions == [] then InitStatus(o, w1, r, got.value)
    else if FINALIZER !in got.value.obj.cr.finalizers then ClaimFinalizer(o, w1, r, got.value)
    else if got.value.obj.cr.deleting then Release(o, w1, k)
    else Keep(o, w1, k, got.value)
  }

  /** The re-fetched list gives the number of patches; each names an index of what is left. */
  ghost function Release(o: Oracle, w: World, k: Key): (World, Outcome) {
    var (w1, again) := Get(o, w, RuleRef(k));
    if again.Err? then (w1, Failed(again.error))
    else Strip(o, w1, RuleRef(k), 0, |again.value.obj.cr.finalizers|)
  }

  ghost function Strip(o: Oracle, w: World, r: Ref, i: nat, n: nat): (World, Outcome)
    requires r.kind == RuleKind
    decreases n - i
  {
    if i >= n then (w, Done)
    else
      var (w1, told) := PatchFinalizer(o, w, r, i);
      if told.Err? then (w1, Failed(told.error)) else Strip(o, w1, r, i + 1, n)
  }

  function FileOf(k: Key): string { k.name + ".yml" }

  /** Reading a missing entry of a Go map gives the empty string. */
  function DataOf(k: Key, cm: ConfigMap): string {
    if FileOf(k) in cm.data then cm.data[FileOf(k)] else ""
  }

  /** The ConfigMap with the data replaced: the rendered spec under the rule's file name, and no other entry. */
  function WithData(found: Versioned, k: Key, data: string): (sent: Versioned)
    requires found.obj.ConfigMapObject?
    ensures sent.obj.ConfigMapObject? && sent.rv == found.rv && DataOf(k, sent.obj.configMap) == data
  {
    found.(obj := ConfigMapObject(found.obj.configMap.(data := map[FileOf(k) := data])))
  }

  ghost function Keep(o: Oracle, w: World, k: Key, v: Versioned): (World, Outcome)
    requires v.obj.RuleObject?
  {
    var (w1, got) := Get(o, w, CmRef(k));
    if got.Err? then
      if got.error.NotFound? then CreateConfigMap(o, w1, k, v) else (w1, Failed(got.error))
    else
      var (w2, rendered) := Local(o, w1);
      var data := o.render(v.obj.rules);
      var cm := got.value.obj.configMap;
      if !rendered then (w2, Failed(Unrendered))
      else if o.hash(DataOf(k, cm)) != o.hash(data) then
        UpdateConfigMap(o, w2, k, v, WithData(got.value, k, data), o.hash(data))
      else (w2, Requeue)
  }

  function Summed(v: Versioned, sum: string, message: Message): (r: Versioned)
    requires v.obj.RuleObject?
    ensures r.obj.RuleObject?
  {
    v.(obj := RuleObject(Report(v.obj.cr, AVAILABLE, True, "Reconciled", message), v.obj.rules, sum))
  }

  function ConfigMapFor(k: Key, cr: Resource, data: string): ConfigMap {
    ConfigMap(cr.labels, map[FileOf(k) := data])
  }

  ghost function CreateConfigMap(o: Oracle, w: World, k: Key, v: Versioned): (World, Outcome)
    requires v.obj.RuleObject?
  {
    var r := RuleRef(k);
    var data := o.render(v.obj.rules);
    var (w1, rendered) := Local(o, w);
    if !rendered then (w1, Failed(Unrendered))
    else
      var (w2, owned) := Local(o, w1);
      if !owned then (w2, Failed(OwnerReference))
      else
        var (w3, made) := Create(o, w2, CmRef(k), ConfigMapObject(ConfigMapFor(k, v.obj.cr, data)));
        if made.Err? then
          Finish(o, w3, r, Status,
                 Reporting(v, AVAILABLE, False, "Reconciling", CannotCreate(ConfigMapKind, made.error)),
                 Failed(made.error))
        else
          var (w4, again) := Local(o, w3);
          if !again then (w4, Failed(OwnerReference))
          else Finish(o, w4, r, Status, Summed(v, o.hash(data), Created), Done)
  }

  /** A failed update of the ConfigMap is reported, and then the pass goes on as after a
      successful one. */
  ghost function UpdateConfigMap(o: Oracle, w: World, k: Key, v: Versioned, found: Versioned,
                                 sum: string): (World, Outcome)
    requires v.obj.RuleObject? && found.obj.ConfigMapObject?
  {
    var r := RuleRef(k);
    var (w1, told) := Update(o, w, r, Status, Reporting(v, DEGRADED, False, "Updating", Updating));
    if told.Err? then (w1, Failed(told.error))
    else
      var (w2, put) := Update(o, w1, CmRef(k), Main, found);
      if put.Ok? then Conclude(o, w2, k, told.value, sum) else Excuse(o, w2, k, put.error, sum)
  }

  ghost function Excuse(o: Oracle, w: World, k: Key, why: ApiError, sum: string): (World, Outcome) {
    var (w1, again) := Get(o, w, RuleRef(k));
    if again.Err? then (w1, Failed(again.error))
    else
      var (w2, reported) := Update(o, w1, RuleRef(k), Status,
        Reporting(again.value, AVAILABLE, False, "Updating", CannotUpdate(ConfigMapKind, why)));
      if reported.Err? then (w2, Failed(reported.error)) else Conclude(o, w2, k, reported.value, sum)
  }

  ghost function Conclude(o: Oracle, w: World, k: Key, v: Versioned, sum: string): (World, Outcome)
    requires v.obj.RuleObject?
  {
    var (w1, told) := Update(o, w, RuleRef(k), Status, Summed(v, sum, Updated));
    if told.Err? then (w1, Failed(told.error)) else Rollout(o, w1, k.ns, k.name)
  }

  ghost function Rollout(o: Oracle, w: World, ns: string, name: Name): (World, Outcome) {
    var (w1, listed) := ListDeployments(o, w, ns);
    if listed.Err? then (w1, Failed(listed.error))
    else (RollItems(o, w1, listed.value, ns, name), Requeue)
  }

  ghost function RollItems(o: Oracle, w: World, items: seq<Item>, ns: string, name: Name): World
    requires forall i | i in items :: i.v.obj.DeploymentObject?
    decreases |items|
  {
    if items == [] then w
    else RollItems(o, RollItem(o, w, items[0], ns, name), items[1..], ns, name)
  }

  function PartsOf(d: Deployment): seq<string> {
    if CONF in d.annotations then Split(d.annotations[CONF], COMMA) else []
  }

  ghost function RollItem(o: Oracle, w: World, item: Item, ns: string, name: Name): World
    requires item.v.obj.DeploymentObject?
  {
    RollParts(o, w, item, ns, name, PartsOf(item.v.obj.deployment))
  }

  /** The rollout replaces all annotations of the pod template by its time. */
  function Marked(d: Deployment, time: nat): Deployment {
    d.(template := d.template.(marks := map[RELOADED_AT := Time(time)]))
  }

  ghost function RollParts(o: Oracle, w: World, item: Item, ns: string, name: Name, parts: seq<string>): World
    requires item.v.obj.DeploymentObject?
    decreases |parts|
  {
    if parts == [] then w
    else if parts[0] != name then RollParts(o, w, item, ns, name, parts[1..])
    else
      var sent := Sending(item.v, Marked(item.v.obj.deployment, o.now(w.calls)));
      var (w1, told) := Update(o, w, DepRef(Key(ns, item.name)), Main, sent);
      RollParts(o, w1, item.(v := if told.Ok? then told.value else sent), ns, name, parts[1..])
  }

  /** The same pass again and again. */
  ghost function RulesRepeated(o: Oracle, w: World, k: Key, passes: nat): World
    decreases passes
  {
    if passes == 0 then w else RulesRepeated(o, RulesPass(o, w, k).0, k, passes - 1)
  }

  /** What each pass does to a claim about n passes left, all of them do. */
  ghost predicate RulesCarries(o: Oracle, k: Key, claim: (nat, World) -> bool) {
    forall n: nat, x: World | n > 0 && claim(n, x) :: claim(n - 1, RulesPass(o, x, k).0)
  }

  lemma {:induction false} RulesThroughout(o: Oracle, k: Key, claim: (nat, World) -> bool, w: World, passes: nat,
                                           rest: nat)
    requires claim(passes + rest, w) && RulesCarries(o, k, claim)
    ensures claim(rest, RulesRepeated(o, w, k, passes))
    decreases passes
  {
    if passes > 0 { RulesThroughout(o, k, claim, RulesPass(o, w, k).0, passes - 1, rest); }
  }
}
