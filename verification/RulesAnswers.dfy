/** What a pass of the rules controller sends and what it answers, for any oracle whatever, so
    with any faults and anybody acting in between. */
module RulesAnswers {
  import opened Text
  import opened Objects
  import opened Api
  import opened ProxyPasses
  import opened RulesPasses
  import opened Guarantees
  import opened Answers

  // ---- what is sent, and what is answered -------------------------------

  /** The rendered spec under the name of the rule, and nothing else. */
  function Rendering(k: Key, data: string): map<string, string> { map[k.name + ".yml" := data] }

  /** The success that the status claims, with the checksum. */
  predicate Sums(p: Post, k: Key, sum: string, message: Message) {
    && StatusOf(p, RuleRef(k)) && p.call.sent.obj.RuleObject? && p.call.sent.obj.lastSum == sum
    && Condition(AVAILABLE, True, "Reconciled", message) in p.call.sent.obj.cr.conditions
  }

  /** A step failed that comes before the first write. */
  predicate Unstarted(s: seq<Post>, out: Outcome) {
    s == [] && out.Failed? && out.error in {Unavailable, Unrendered, OwnerReference}
  }

  /** The ConfigMap was read with the checksum of the rendered spec. */
  ghost predicate Steady(o: Oracle, log: seq<Event>, n: nat, k: Key, rules: RuleSpec, s: seq<Post>, out: Outcome) {
    && s == [] && out == Requeue
    && exists cm :: Seen(log, n, CmRef(k), ConfigMapObject(cm)) && o.hash(DataOf(k, cm)) == o.hash(o.render(rules))
  }

  /** The ConfigMap is created with the labels of the rule and the rendered spec. A failure is
      reported and answered; after a success the checksum is recorded. */
  ghost predicate Creates(o: Oracle, log: seq<Event>, n: nat, k: Key, v: Object, s: seq<Post>, out: Outcome) {
    && v.RuleObject? && s != []
    && s[0].call == ToCreate(CmRef(k), ConfigMapObject(ConfigMap(v.cr.labels, Rendering(k, o.render(v.rules)))))
    && (s[0].error.Some? ==>
          && |s| == 2 && Puts(log, n, s[1], RuleRef(k), Uncreated(ConfigMapKind, s[0].error.value))
          && out == Ended(s[1], Failed(s[0].error.value)))
    && (s[0].error.None? && |s| == 1 ==> out == Failed(OwnerReference))
    && (s[0].error.None? && |s| > 1 ==>
          |s| == 2 && Sums(s[1], k, o.hash(o.render(v.rules)), Created) && out == Ended(s[1], Done))
  }

  /** A restart of a Deployment of the namespace: the time replaces all marks of its pods. */
  predicate Restarts(p: Post, k: Key) {
    && p.call.ToUpdate? && p.call.ref.kind == DeploymentKind && p.call.ref.key.ns == k.ns && p.call.part.Main?
    && p.call.sent.obj.DeploymentObject?
    && var marks := p.call.sent.obj.deployment.template.marks;
       marks.Keys == {RELOADED_AT} && marks[RELOADED_AT].Time?
  }

  predicate AllRestart(s: seq<Post>, k: Key) { forall p | p in s :: Restarts(p, k) }

  /** Checksum and Available=True, and then the rollout, whose errors are ignored. */
  predicate Concludes(s: seq<Post>, k: Key, sum: string, out: Outcome) {
    && s != [] && Sums(s[0], k, sum, Updated) && AllRestart(s[1..], k)
    && (s[0].error.Some? ==> |s| == 1 && out == Failed(s[0].error.value))
    && (s[0].error.None? ==> out == Requeue || (|s| == 1 && out == Failed(Unavailable)))
  }

  /** A failed update of the ConfigMap is told of on a copy that is read again, and if that
      succeeds the pass goes on as after a success. */
  ghost predicate Excuses(log: seq<Event>, n: nat, k: Key, why: ApiError, sum: string, s: seq<Post>, out: Outcome) {
    if s == [] then out.Failed?
    else
      && Puts(log, n, s[0], RuleRef(k), Condition(AVAILABLE, False, "Updating", CannotUpdate(ConfigMapKind, why)))
      && if s[0].error.Some? then |s| == 1 && out == Failed(s[0].error.value) else Concludes(s[1..], k, sum, out)
  }

  predicate Writes(p: Post, k: Key, cm: ConfigMap, data: string) {
    && p.call.ToUpdate? && p.call.ref == CmRef(k) && p.call.part.Main?
    && p.call.sent.obj == ConfigMapObject(cm.(data := Rendering(k, data)))
  }

  /** The ConfigMap was read with another checksum: the status says that it is being updated,
      the data are replaced, and then the one end or the other. */
  ghost predicate Updates(o: Oracle, log: seq<Event>, n: nat, k: Key, rules: RuleSpec, s: seq<Post>, out: Outcome) {
    && (exists cm ::
          && Seen(log, n, CmRef(k), ConfigMapObject(cm)) && o.hash(DataOf(k, cm)) != o.hash(o.render(rules))
          && (|s| > 1 ==> Writes(s[1], k, cm, o.render(rules))))
    && s != [] && Puts(log, n, s[0], RuleRef(k), Condition(DEGRADED, False, "Updating", Updating))
    && if s[0].error.Some? then |s| == 1 && out == Failed(s[0].error.value)
       else
         && |s| > 1
         && if s[1].error.None? then Concludes(s[2..], k, o.hash(o.render(rules)), out)
            else Excuses(log, n, k, s[1].error.value, o.hash(o.render(rules)), s[2..], out)
  }

  /** All that a pass on a live rule can come to. */
  ghost predicate Keeps(o: Oracle, log: seq<Event>, n: nat, k: Key, v: Object, s: seq<Post>, out: Outcome) {
    && v.RuleObject?
    && (|| Unstarted(s, out)
        || Steady(o, log, n, k, v.rules, s, out)
        || Creates(o, log, n, k, v, s, out)
        || Updates(o, log, n, k, v.rules, s, out))
  }

  /** One removal after the other, by index, until one fails or there have been as many as the
      list, read once more, had entries. */
  ghost predicate Releases(log: seq<Event>, n: nat, k: Key, s: seq<Post>, out: Outcome) {
    && (forall i | 0 <= i < |s| :: s[i].call == ToPatch(RuleRef(k), i))
    && (forall i | 0 <= i < |s| - 1 :: s[i].error.None?)
    && (out == Done || out.Failed?)
    && (s != [] && s[|s| - 1].error.Some? ==> out == Failed(s[|s| - 1].error.value))
    && (s != [] && s[|s| - 1].error.None? ==> out == Done)
    && (out == Done ==>
          exists was :: Seen(log, n, RuleRef(k), was) && was.IsResource() && |was.cr.finalizers| == |s|)
  }

  /** All that a pass can come to, by the rule that it read first. */
  ghost predicate Passes(o: Oracle, log: seq<Event>, n: nat, k: Key, v: Object, s: seq<Post>, out: Outcome) {
    && v.RuleObject?
    && if v.cr.conditions == [] then
         && |s| == 1 && out == Ended(s[0], Requeue)
         && Puts(log, n, s[0], RuleRef(k), Condition(AVAILABLE, Unknown, "Reconciling", Starting))
       else if FINALIZER !in v.cr.finalizers then
         |s| == 1 && out == Ended(s[0], Requeue) && Claims(s[0], RuleRef(k))
       else if v.cr.deleting then Releases(log, n, k, s, out)
       else Keeps(o, log, n, k, v, s, out)
  }

  // ---- that it does -----------------------------------------------------

  lemma {:induction false} RestartsJoin(w: World, x: World, y: World, k: Key, a: seq<Post>, b: seq<Post>, s: seq<Post>)
    requires Sends(w, x, a) && Sends(x, y, b) && AllRestart(a, k) && AllRestart(b, k) && s == a + b
    ensures Sends(w, y, s) && AllRestart(s, k)
  {
  }

  lemma {:induction false} RestartSends(o: Oracle, w: World, item: Item, k: Key) returns (p: Post)
    requires item.v.obj.DeploymentObject?
    ensures var sent := Sending(item.v, Marked(item.v.obj.deployment, o.now(w.calls)));
            Sends(w, Update(o, w, DepRef(Key(k.ns, item.name)), Main, sent).0, [p]) && Restarts(p, k)
  {
    var sent := Sending(item.v, Marked(item.v.obj.deployment, o.now(w.calls)));
    var r := DepRef(Key(k.ns, item.name));
    UpdateSends(o, w, r, Main, sent);
    p := Posted(o, w, ToUpdate(r, Main, sent), Update(o, w, r, Main, sent).1);
  }

  /** Every element that is the name is one update, whatever became of those before. */
  lemma {:induction false} PartsRestart(o: Oracle, w: World, item: Item, k: Key,
                                        parts: seq<string>) returns (s: seq<Post>)
    requires item.v.obj.DeploymentObject?
    ensures Sends(w, RollParts(o, w, item, k.ns, k.name, parts), s) && AllRestart(s, k)
    ensures |s| == multiset(parts)[k.name]
    decreases |parts|
  {
    s := [];
    if parts != [] {
      assert parts == [parts[0]] + parts[1..];
      if parts[0] != k.name {
        s := PartsRestart(o, w, item, k, parts[1..]);
      } else {
        var sent := Sending(item.v, Marked(item.v.obj.deployment, o.now(w.calls)));
        var (x, told) := Update(o, w, DepRef(Key(k.ns, item.name)), Main, sent);
        var next := item.(v := if told.Ok? then told.value else sent);
        var p := RestartSends(o, w, item, k);
        var t := PartsRestart(o, x, next, k, parts[1..]);
        s := [p] + t;
        RestartsJoin(w, x, RollParts(o, x, next, k.ns, k.name, parts[1..]), k, [p], t, s);
      }
    }
  }

  /** How often the listed Deployments name it. */
  function Named(items: seq<Item>, name: Name): nat
    requires forall i | i in items :: i.v.obj.DeploymentObject?
  {
    if items == [] then 0 else multiset(PartsOf(items[0].v.obj.deployment))[name] + Named(items[1..], name)
  }

  /** Whatever becomes of them, there are as many updates as the listed Deployments name it. */
  lemma {:induction false} ItemsRestart(o: Oracle, w: World, items: seq<Item>, k: Key) returns (s: seq<Post>)
    requires forall i | i in items :: i.v.obj.DeploymentObject?
    ensures Sends(w, RollItems(o, w, items, k.ns, k.name), s) && AllRestart(s, k)
    ensures |s| == Named(items, k.name)
    decreases |items|
  {
    s := [];
    if items != [] {
      var x := RollItem(o, w, items[0], k.ns, k.name);
      var a := PartsRestart(o, w, items[0], k, PartsOf(items[0].v.obj.deployment));
      var b := ItemsRestart(o, x, items[1..], k);
      s := a + b;
      RestartsJoin(w, x, RollItems(o, x, items[1..], k.ns, k.name), k, a, b, s);
    }
  }

  lemma {:induction false} Concluded(w: World, x: World, z: World, p: Post, t: seq<Post>, k: Key, sum: string,
                                     s: seq<Post>, out: Outcome)
    requires Sends(w, x, [p]) && Sends(x, z, t) && s == [p] + t
    requires Sums(p, k, sum, Updated) && p.error.None? && AllRestart(t, k)
    requires out == Requeue || (t == [] && out == Failed(Unavailable))
    ensures Sends(w, z, s) && Concludes(s, k, sum, out)
  {
    assert s[0] == p && s[1..] == t;
  }

  lemma {:induction false} SummedSends(o: Oracle, w: World, k: Key, v: Versioned, sum: string, message: Message)
    returns (p: Post)
    requires v.obj.RuleObject?
    ensures var (x, told) := Update(o, w, RuleRef(k), Status, Summed(v, sum, message));
            Sends(w, x, [p]) && Sums(p, k, sum, message) && p.error == ErrorOf(told)
  {
    var sent := Summed(v, sum, message);
    UpdateSends(o, w, RuleRef(k), Status, sent);
    SetConditionHas(v.obj.cr.conditions, Condition(AVAILABLE, True, "Reconciled", message));
    p := Posted(o, w, ToUpdate(RuleRef(k), Status, sent), Update(o, w, RuleRef(k), Status, sent).1);
  }

  lemma {:induction false} ConcludeSends(o: Oracle, w: World, k: Key, v: Versioned, sum: string) returns (s: seq<Post>)
    requires v.obj.RuleObject?
    ensures var (x, out) := Conclude(o, w, k, v, sum); Sends(w, x, s) && Concludes(s, k, sum, out)
  {
    var (x, told) := Update(o, w, RuleRef(k), Status, Summed(v, sum, Updated));
    var p := SummedSends(o, w, k, v, sum, Updated);
    s := [p];
    if told.Ok? {
      var t := RolloutSends(o, x, k);
      s := [p] + t;
      var (z, out) := Rollout(o, x, k.ns, k.name);
      Concluded(w, x, z, p, t, k, sum, s, out);
    }
  }

  lemma {:induction false} RolloutSends(o: Oracle, w: World, k: Key) returns (s: seq<Post>)
    ensures var (x, out) := Rollout(o, w, k.ns, k.name);
            && Sends(w, x, s) && AllRestart(s, k) && (out == Requeue || (s == [] && out == Failed(Unavailable)))
    ensures var listed := ListDeployments(o, w, k.ns).1;
            && |s| == (if listed.Ok? then Named(listed.value, k.name) else 0)
            && (Rollout(o, w, k.ns, k.name).1 == Requeue <==> listed.Ok?)
  {
    var (x, listed) := ListDeployments(o, w, k.ns);
    s := [];
    if listed.Ok? { s := ItemsRestart(o, x, listed.value, k); }
  }

  lemma {:induction false} ExcuseSends(o: Oracle, w: World, k: Key, why: ApiError, sum: string,
                                       n: nat) returns (s: seq<Post>)
    requires n <= |w.log|
    ensures var (x, out) := Excuse(o, w, k, why, sum); Sends(w, x, s) && Excuses(x.log, n, k, why, sum, s, out)
  {
    var r, c := RuleRef(k), Condition(AVAILABLE, False, "Updating", CannotUpdate(ConfigMapKind, why));
    var (x, again) := Get(o, w, r);
    GetSees(o, w, r, n);
    s := [];
    if again.Ok? {
      var (y, reported) := Update(o, x, r, Status,
            Reporting(again.value, AVAILABLE, False, "Updating", CannotUpdate(ConfigMapKind, why)));
      var p := ReportSends(o, x, r, again.value, c, n);
      s := [p];
      if reported.Ok? {
        var (z, out) := Conclude(o, y, k, reported.value, sum);
        var t := ConcludeSends(o, y, k, reported.value, sum);
        s := [p] + t;
        Excused(w, x, y, z, n, k, why, sum, p, t, s, out);
      }
    }
  }

  lemma {:induction false} Excused(w: World, x: World, y: World, z: World, n: nat, k: Key, why: ApiError, sum: string,
                                   p: Post, t: seq<Post>, s: seq<Post>, out: Outcome)
    requires Sends(w, x, []) && Sends(x, y, [p]) && Sends(y, z, t) && s == [p] + t && p.error.None?
    requires Puts(y.log, n, p, RuleRef(k), Condition(AVAILABLE, False, "Updating", CannotUpdate(ConfigMapKind, why)))
    requires Concludes(t, k, sum, out)
    ensures Sends(w, z, s) && Excuses(z.log, n, k, why, sum, s, out)
  {
    PutsLater(y, z, n, p, RuleRef(k), Condition(AVAILABLE, False, "Updating", CannotUpdate(ConfigMapKind, why)));
    assert s[0] == p && s[1..] == t;
  }

  lemma {:induction false} UpdateConfigMapSends(o: Oracle, w: World, k: Key, v: Versioned, found: Versioned, n: nat)
    returns (s: seq<Post>)
    requires n <= |w.log| && v.obj.RuleObject? && Seen(w.log, n, RuleRef(k), v.obj)
    requires found.obj.ConfigMapObject? && Seen(w.log, n, CmRef(k), found.obj)
    requires o.hash(DataOf(k, found.obj.configMap)) != o.hash(o.render(v.obj.rules))
    ensures var data := o.render(v.obj.rules);
            var (x, out) := UpdateConfigMap(o, w, k, v, WithData(found, k, data), o.hash(data));
            Sends(w, x, s) && Updates(o, x.log, n, k, v.obj.rules, s, out)
  {
    var r, data := RuleRef(k), o.render(v.obj.rules);
    var sent := WithData(found, k, data);
    var (x, told) := Update(o, w, r, Status, Reporting(v, DEGRADED, False, "Updating", Updating));
    var p := ReportSends(o, w, r, v, Condition(DEGRADED, False, "Updating", Updating), n);
    s := [p];
    if told.Ok? {
      var (y, put) := Update(o, x, CmRef(k), Main, sent);
      UpdateSends(o, x, CmRef(k), Main, sent);
      var q := Posted(o, x, ToUpdate(CmRef(k), Main, sent), put);
      var (z, out) := UpdateConfigMap(o, w, k, v, sent, o.hash(data));
      var t: seq<Post>;
      if put.Ok? {
        t := ConcludeSends(o, y, k, told.value, o.hash(data));
      } else {
        t := ExcuseSends(o, y, k, put.error, o.hash(data), n);
      }
      s := [p, q] + t;
      PutGoesOn(o, w, x, y, z, n, k, v.obj.rules, found.obj.configMap, p, q, t, s, out);
    } else {
      SeenLater(w, x, n, CmRef(k), found.obj);
    }
  }

  lemma {:induction false} PutGoesOn(o: Oracle, w: World, x: World, y: World, z: World, n: nat, k: Key, rules: RuleSpec,
                                    cm: ConfigMap, p: Post, q: Post, t: seq<Post>, s: seq<Post>, out: Outcome)
    requires Sends(w, x, [p]) && Sends(x, y, [q]) && Sends(y, z, t) && s == [p, q] + t && p.error.None?
    requires Seen(w.log, n, CmRef(k), ConfigMapObject(cm)) && o.hash(DataOf(k, cm)) != o.hash(o.render(rules))
    requires Puts(x.log, n, p, RuleRef(k), Condition(DEGRADED, False, "Updating", Updating))
    requires Writes(q, k, cm, o.render(rules))
    requires if q.error.None? then Concludes(t, k, o.hash(o.render(rules)), out)
             else Excuses(z.log, n, k, q.error.value, o.hash(o.render(rules)), t, out)
    ensures Sends(w, z, s) && Updates(o, z.log, n, k, rules, s, out)
  {
    SendsTransitive(x, y, z, [q], t);
    SendsTransitive(w, x, z, [p], [q] + t);
    assert [p] + ([q] + t) == s;
    PutsLater(x, z, n, p, RuleRef(k), Condition(DEGRADED, False, "Updating", Updating));
    SeenLater(w, z, n, CmRef(k), ConfigMapObject(cm));
    PutIsUpdate(o, z.log, n, k, rules, cm, p, q, t, s, out);
  }

  lemma {:induction false} PutIsUpdate(o: Oracle, log: seq<Event>, n: nat, k: Key, rules: RuleSpec, cm: ConfigMap,
                                       p: Post,
                                       q: Post, t: seq<Post>, s: seq<Post>, out: Outcome)
    requires Seen(log, n, CmRef(k), ConfigMapObject(cm)) && o.hash(DataOf(k, cm)) != o.hash(o.render(rules))
    requires Puts(log, n, p, RuleRef(k), Condition(DEGRADED, False, "Updating", Updating)) && p.error.None?
    requires Writes(q, k, cm, o.render(rules)) && s == [p, q] + t
    requires if q.error.None? then Concludes(t, k, o.hash(o.render(rules)), out)
             else Excuses(log, n, k, q.error.value, o.hash(o.render(rules)), t, out)
    ensures Updates(o, log, n, k, rules, s, out)
  {
    assert s[0] == p && s[1] == q && s[2..] == t;
  }

  lemma {:induction false} ConfigMapCreates(o: Oracle, w: World, k: Key, v: Versioned, n: nat) returns (s: seq<Post>)
    requires n <= |w.log| && v.obj.RuleObject? && Seen(w.log, n, RuleRef(k), v.obj)
    ensures var (x, out) := CreateConfigMap(o, w, k, v);
            Sends(w, x, s) && (Unstarted(s, out) || Creates(o, x.log, n, k, v.obj, s, out))
  {
    var (w1, rendered) := Local(o, w);
    s := [];
    if rendered {
      var (w2, owned) := Local(o, w1);
      if owned { s := ConfigMapMade(o, w2, k, v, n); }
    }
  }

  /** From the call that creates it on. */
  ghost function CreateFrom(o: Oracle, w: World, k: Key, v: Versioned): (World, Outcome)
    requires v.obj.RuleObject?
  {
    var r, data := RuleRef(k), o.render(v.obj.rules);
    var (w3, made) := Create(o, w, CmRef(k), ConfigMapObject(ConfigMapFor(k, v.obj.cr, data)));
    if made.Err? then
      Finish(o, w3, r, Status, Reporting(v, AVAILABLE, False, "Reconciling", CannotCreate(ConfigMapKind, made.error)),
             Failed(made.error))
    else
      var (w4, again) := Local(o, w3);
      if !again then (w4, Failed(OwnerReference)) else Finish(o, w4, r, Status, Summed(v, o.hash(data), Created), Done)
  }

  lemma {:induction false} ConfigMapMade(o: Oracle, w: World, k: Key, v: Versioned, n: nat) returns (s: seq<Post>)
    requires n <= |w.log| && v.obj.RuleObject? && Seen(w.log, n, RuleRef(k), v.obj)
    ensures var (x, out) := CreateFrom(o, w, k, v); Sends(w, x, s) && Creates(o, x.log, n, k, v.obj, s, out)
  {
    var r, data := RuleRef(k), o.render(v.obj.rules);
    var obj := ConfigMapObject(ConfigMapFor(k, v.obj.cr, data));
    var (w3, made) := Create(o, w, CmRef(k), obj);
    CreateSends(o, w, CmRef(k), obj);
    var p := Posted(o, w, ToCreate(CmRef(k), obj), made);
    s := [p];
    if made.Err? {
      SeenLater(w, w3, n, r, v.obj);
      var q := ReportSends(o, w3, r, v, Uncreated(ConfigMapKind, made.error), n);
      s := [p, q];
    } else {
      var (w4, again) := Local(o, w3);
      if again {
        var q := SummedSends(o, w4, k, v, o.hash(data), Created);
        s := [p, q];
      }
    }
  }

  lemma {:induction false} KeepKeeps(o: Oracle, w: World, k: Key, v: Versioned, n: nat) returns (s: seq<Post>)
    requires n <= |w.log| && v.obj.RuleObject? && Seen(w.log, n, RuleRef(k), v.obj)
    ensures var (x, out) := Keep(o, w, k, v); Sends(w, x, s) && Keeps(o, x.log, n, k, v.obj, s, out)
  {
    var (x, got) := Get(o, w, CmRef(k));
    GetSees(o, w, CmRef(k), n);
    SeenLater(w, x, n, RuleRef(k), v.obj);
    s := [];
    if got.Err? {
      if got.error.NotFound? { s := ConfigMapCreates(o, x, k, v, n); }
    } else {
      var (y, rendered) := Local(o, x);
      if rendered && o.hash(DataOf(k, got.value.obj.configMap)) != o.hash(o.render(v.obj.rules)) {
        s := UpdateConfigMapSends(o, y, k, v, got.value, n);
      }
    }
  }

  lemma {:induction false} PatchSends(o: Oracle, w: World, r: Ref, i: nat) returns (p: Post)
    requires r.kind == RuleKind
    ensures var (x, told) := PatchFinalizer(o, w, r, i);
            Sends(w, x, [p]) && p.call == ToPatch(r, i) && p.error == ErrorOf(told)
  {
    p := Post(ToPatch(r, i), o.now(w.calls) + 1, ErrorOf(PatchFinalizer(o, w, r, i).1));
  }

  /** The turns of the loop from the `i`-th on. */
  ghost predicate Patches(s: seq<Post>, r: Ref, i: nat, n: nat, out: Outcome) {
    && (forall j | 0 <= j < |s| :: s[j].call == ToPatch(r, i + j))
    && (forall j | 0 <= j < |s| - 1 :: s[j].error.None?)
    && (s == [] ==> out == Done)
    && (s != [] ==> out == Ended(s[|s| - 1], Done))
    && (out == Done ==> i + |s| == if i <= n then n else i)
  }

  lemma {:induction false} PatchesOn(w: World, x: World, y: World, r: Ref, i: nat, n: nat, p: Post, t: seq<Post>,
                                     s: seq<Post>, out: Outcome)
    requires Sends(w, x, [p]) && Sends(x, y, t) && s == [p] + t && i < n
    requires p.call == ToPatch(r, i) && p.error.None? && Patches(t, r, i + 1, n, out)
    ensures Sends(w, y, s) && Patches(s, r, i, n, out)
  {
    assert s[0] == p && forall j | 0 < j < |s| :: s[j] == t[j - 1];
  }

  lemma {:induction false} StripSends(o: Oracle, w: World, r: Ref, i: nat, n: nat) returns (s: seq<Post>)
    requires r.kind == RuleKind
    ensures Sends(w, Strip(o, w, r, i, n).0, s) && Patches(s, r, i, n, Strip(o, w, r, i, n).1)
    decreases n - i
  {
    s := [];
    if i < n {
      var (x, told) := PatchFinalizer(o, w, r, i);
      var p := PatchSends(o, w, r, i);
      s := [p];
      if told.Ok? {
        var t := StripSends(o, x, r, i + 1, n);
        s := [p] + t;
        PatchesOn(w, x, Strip(o, x, r, i + 1, n).0, r, i, n, p, t, s, Strip(o, x, r, i + 1, n).1);
      }
    }
  }

  lemma {:induction false} ReleaseSends(o: Oracle, w: World, k: Key, n: nat) returns (s: seq<Post>)
    requires n <= |w.log|
    ensures var (x, out) := Release(o, w, k); Sends(w, x, s) && Releases(x.log, n, k, s, out)
  {
    var (x, again) := Get(o, w, RuleRef(k));
    GetSees(o, w, RuleRef(k), n);
    s := [];
    if again.Ok? {
      s := StripSends(o, x, RuleRef(k), 0, |again.value.obj.cr.finalizers|);
      SeenLater(x, Release(o, w, k).0, n, RuleRef(k), again.value.obj);
    }
  }

  /** From the first read on. */
  ghost function PassFrom(o: Oracle, w: World, k: Key, v: Versioned): (World, Outcome)
    requires v.obj.RuleObject?
  {
    var cr := v.obj.cr;
    if cr.conditions == [] then InitStatus(o, w, RuleRef(k), v)
    else if FINALIZER !in cr.finalizers then ClaimFinalizer(o, w, RuleRef(k), v)
    else if cr.deleting then Release(o, w, k)
    else Keep(o, w, k, v)
  }

  lemma {:induction false} ReadPasses(o: Oracle, w: World, k: Key, v: Versioned, n: nat) returns (s: seq<Post>)
    requires n <= |w.log| && v.obj.RuleObject? && Seen(w.log, n, RuleRef(k), v.obj)
    ensures var (x, out) := PassFrom(o, w, k, v); Sends(w, x, s) && Passes(o, x.log, n, k, v.obj, s, out)
  {
    var r, cr := RuleRef(k), v.obj.cr;
    if cr.conditions == [] {
      var p := ReportSends(o, w, r, v, Condition(AVAILABLE, Unknown, "Reconciling", Starting), n);
      s := [p];
    } else if FINALIZER !in cr.finalizers {
      var p := FinishSends(o, w, r, Main, WithFinalizers(v, AddFinalizer(cr.finalizers)), Requeue);
      s := [p];
    } else if cr.deleting {
      s := ReleaseSends(o, w, k, n);
    } else {
      s := KeepKeeps(o, w, k, v, n);
    }
  }

  /** For any oracle: a pass whose first read is not answered fails, one that finds no rule is
      done, and neither sends or changes anything; any other is one of those listed above, for
      the rule that it has read. */
  lemma {:induction false} PassAnswers(o: Oracle, w: World, k: Key) returns (s: seq<Post>)
    ensures var (x, out) := RulesPass(o, w, k);
            && Sends(w, x, s)
            && if x.log == w.log then
                 x == Arrive(o, w) && NothingRead(o.fate(w.calls), o.interfere(w.calls, w.c), RuleRef(k), s, out)
               else
                 && x.log[|w.log|].Read? && x.log[|w.log|].ref == RuleRef(k)
                 && Passes(o, x.log, |w.log|, k, x.log[|w.log|].obj, s, out)
  {
    var r, n := RuleRef(k), |w.log|;
    var (y, got) := Get(o, w, r);
    GetSees(o, w, r, n);
    s := [];
    if got.Ok? {
      var v := got.value;
      s := ReadPasses(o, y, k, v, n);
      SendsTransitive(w, y, RulesPass(o, w, k).0, [], s);
      assert [] + s == s && y.log[n] == Read(r, v.obj);
    }
  }

  // ---- what that is worth -----------------------------------------------

  /** Whatever the write says of Available=True was so in a copy of the rule that the pass has
      read; or the checksum goes with it, of the spec that was read. */
  ghost predicate Earned(o: Oracle, log: seq<Event>, n: nat, k: Key, rules: RuleSpec, p: Post) {
    StatusOf(p, RuleRef(k)) ==>
      || Sums(p, k, o.hash(o.render(rules)), Created) || Sums(p, k, o.hash(o.render(rules)), Updated)
      || forall c | c in p.call.sent.obj.cr.conditions && c.ctype == AVAILABLE && c.status == True ::
           exists was :: Seen(log, n, RuleRef(k), was) && was.IsResource() && c in was.cr.conditions
  }

  predicate ForConfigMap(p: Post, k: Key) { !p.call.ToPatch? && p.call.ref == CmRef(k) }

  /** The next write says, with success, that this one has failed, and why. */
  predicate Told(k: Key, s: seq<Post>, i: nat) {
    && i + 1 < |s| && s[i].error.Some? && StatusOf(s[i + 1], RuleRef(k)) && s[i + 1].error.None?
    && Condition(AVAILABLE, False, "Updating", CannotUpdate(ConfigMapKind, s[i].error.value))
         in s[i + 1].call.sent.obj.cr.conditions
  }

  /** A failed write of the ConfigMap is told of, unless the answer is an error. */
  predicate Candid(k: Key, s: seq<Post>, out: Outcome) {
    forall i | 0 <= i < |s| && ForConfigMap(s[i], k) && s[i].error.Some? && !out.Failed? :: Told(k, s, i)
  }

  /** Done is answered only after every write has succeeded, the last of them the checksum of a
      new ConfigMap or the removal of a finalizer; to be called again, only if the ConfigMap was
      read with the right checksum, or the checksum has been recorded, or the rule has been
      given its first condition or its finalizer. */
  ghost predicate AnswersWell(o: Oracle, log: seq<Event>, n: nat, k: Key, v: Object, s: seq<Post>, out: Outcome)
    requires v.RuleObject?
  {
    var sum := o.hash(o.render(v.rules));
    && (out == Done ==>
          && (forall p | p in s :: p.error.None?)
          && (Releases(log, n, k, s, out) || (s != [] && Sums(s[|s| - 1], k, sum, Created))))
    && (out == Requeue ==>
          || Steady(o, log, n, k, v.rules, s, out)
          || (exists p :: p in s && p.error.None? && Sums(p, k, sum, Updated))
          || (|s| == 1 && s[0].error.None? && (v.cr.conditions == [] || FINALIZER !in v.cr.finalizers)))
  }

  ghost predicate Within(k: Key, s: seq<Post>) {
    forall p | p in s :: p.call.ref in {RuleRef(k), CmRef(k)} || p.call.ref.kind == DeploymentKind
  }

  ghost predicate Sincere(o: Oracle, log: seq<Event>, n: nat, k: Key, v: Object, s: seq<Post>, out: Outcome)
    requires v.RuleObject?
  {
    && (forall p | p in s :: Earned(o, log, n, k, v.rules, p))
    && Candid(k, s, out) && AnswersWell(o, log, n, k, v, s, out) && Within(k, s)
  }

  lemma {:induction false} PutsEarned(o: Oracle, log: seq<Event>, n: nat, k: Key, rules: RuleSpec, p: Post,
                                      c: Condition)
    requires Puts(log, n, p, RuleRef(k), c) && !(c.ctype == AVAILABLE && c.status == True)
    ensures Earned(o, log, n, k, rules, p) && c in p.call.sent.obj.cr.conditions
  {
    var was :| Seen(log, n, RuleRef(k), was) && was.IsResource()
      && p.call.sent.obj.cr.conditions == SetCondition(was.cr.conditions, c);
    SetConditionHas(was.cr.conditions, c);
  }

  /** What the writes of an update have in common, from one of them on. */
  ghost predicate GoesOn(o: Oracle, log: seq<Event>, n: nat, k: Key, rules: RuleSpec, s: seq<Post>, out: Outcome) {
    && (forall p | p in s :: Earned(o, log, n, k, rules, p))
    && Candid(k, s, out) && Within(k, s) && out != Done
    && (out == Requeue ==> exists p :: p in s && p.error.None? && Sums(p, k, o.hash(o.render(rules)), Updated))
  }

  lemma {:induction false} OneMore(o: Oracle, log: seq<Event>, n: nat, k: Key, rules: RuleSpec, p: Post, t: seq<Post>,
                                   s: seq<Post>, out: Outcome)
    requires s == [p] + t && GoesOn(o, log, n, k, rules, t, out) && Earned(o, log, n, k, rules, p)
    requires p.call.ref in {RuleRef(k), CmRef(k)}
    requires ForConfigMap(p, k) && p.error.Some? && !out.Failed? ==> Told(k, s, 0)
    ensures GoesOn(o, log, n, k, rules, s, out)
  {
    assert s[0] == p && forall i | 0 < i < |s| :: s[i] == t[i - 1];
    forall i | 0 <= i < |s| && ForConfigMap(s[i], k) && s[i].error.Some? && !out.Failed? ensures Told(k, s, i) {
      if i > 0 { assert Told(k, t, i - 1); }
    }
    if out == Requeue {
      var q :| q in t && q.error.None? && Sums(q, k, o.hash(o.render(rules)), Updated);
      assert q in s;
    }
  }

  lemma {:induction false} ConcludesGoesOn(o: Oracle, log: seq<Event>, n: nat, k: Key, rules: RuleSpec, s: seq<Post>,
                                           out: Outcome)
    requires Concludes(s, k, o.hash(o.render(rules)), out)
    ensures GoesOn(o, log, n, k, rules, s, out)
  {
    assert s == [s[0]] + s[1..];
    assert forall i | 0 < i < |s| :: s[i] == s[1..][i - 1];
    assert forall i | 0 < i < |s| :: Restarts(s[i], k);
    if out == Requeue { assert s[0] in s && s[0].error.None?; }
  }

  lemma {:induction false} ExcusesGoesOn(o: Oracle, log: seq<Event>, n: nat, k: Key, rules: RuleSpec, why: ApiError,
                                         s: seq<Post>, out: Outcome)
    requires Excuses(log, n, k, why, o.hash(o.render(rules)), s, out)
    ensures GoesOn(o, log, n, k, rules, s, out)
    ensures !out.Failed? ==>
              && s != [] && StatusOf(s[0], RuleRef(k)) && s[0].error.None?
              && Condition(AVAILABLE, False, "Updating",
                   CannotUpdate(ConfigMapKind, why)) in s[0].call.sent.obj.cr.conditions
  {
    if s != [] {
      PutsEarned(o, log, n, k, rules, s[0], Condition(AVAILABLE, False, "Updating", CannotUpdate(ConfigMapKind, why)));
      if s[0].error.None? { ConcludesGoesOn(o, log, n, k, rules, s[1..], out); }
      OneMore(o, log, n, k, rules, s[0], s[1..], s, out);
    }
  }

  lemma {:induction false} UpdatesGoesOn(o: Oracle, log: seq<Event>, n: nat, k: Key, rules: RuleSpec, s: seq<Post>,
                                         out: Outcome)
    requires Updates(o, log, n, k, rules, s, out)
    ensures GoesOn(o, log, n, k, rules, s, out)
  {
    PutsEarned(o, log, n, k, rules, s[0], Condition(DEGRADED, False, "Updating", Updating));
    if s[0].error.None? {
      var t := s[1..];
      assert t == [s[1]] + s[2..];
      if s[1].error.None? {
        ConcludesGoesOn(o, log, n, k, rules, s[2..], out);
      } else {
        ExcusesGoesOn(o, log, n, k, rules, s[1].error.value, s[2..], out);
        assert !out.Failed? ==> t[1] == s[2..][0];
      }
      OneMore(o, log, n, k, rules, s[1], s[2..], t, out);
    }
    OneMore(o, log, n, k, rules, s[0], s[1..], s, out);
  }

  lemma {:induction false} CreatesSincere(o: Oracle, log: seq<Event>, n: nat, k: Key, v: Object, s: seq<Post>,
                                          out: Outcome)
    requires Creates(o, log, n, k, v, s, out)
    ensures Sincere(o, log, n, k, v, s, out)
  {
    if |s| == 2 && s[0].error.Some? {
      PutsEarned(o, log, n, k, v.rules, s[1], Uncreated(ConfigMapKind, s[0].error.value));
    }
  }

  lemma {:induction false} ReleasesSincere(o: Oracle, log: seq<Event>, n: nat, k: Key, v: Object, s: seq<Post>,
                                           out: Outcome)
    requires v.RuleObject? && Releases(log, n, k, s, out)
    ensures Sincere(o, log, n, k, v, s, out)
  {
    assert forall i | 0 <= i < |s| :: s[i].call.ToPatch?;
    forall p | p in s && out == Done ensures p.error.None? {
      var i :| 0 <= i < |s| && s[i] == p;
    }
  }

  lemma {:induction false} ClaimSincere(o: Oracle, log: seq<Event>, n: nat, k: Key, v: Object, s: seq<Post>,
                                        out: Outcome)
    requires Passes(o, log, n, k, v, s, out) && (v.cr.conditions == [] || FINALIZER !in v.cr.finalizers)
    ensures Sincere(o, log, n, k, v, s, out)
  {
    if v.cr.conditions == [] {
      PutsEarned(o, log, n, k, v.rules, s[0], Condition(AVAILABLE, Unknown, "Reconciling", Starting));
    }
  }

  /** For all that a pass can come to. */
  lemma {:induction false} PassesSincere(o: Oracle, log: seq<Event>, n: nat, k: Key, v: Object, s: seq<Post>,
                                         out: Outcome)
    requires Passes(o, log, n, k, v, s, out)
    ensures Sincere(o, log, n, k, v, s, out)
  {
    if v.cr.conditions == [] || FINALIZER !in v.cr.finalizers {
      ClaimSincere(o, log, n, k, v, s, out);
    } else if v.cr.deleting {
      ReleasesSincere(o, log, n, k, v, s, out);
    } else if Creates(o, log, n, k, v, s, out) {
      CreatesSincere(o, log, n, k, v, s, out);
    } else if Updates(o, log, n, k, v.rules, s, out) {
      UpdatesGoesOn(o, log, n, k, v.rules, s, out);
    }
  }
}
