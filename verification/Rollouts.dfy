/** What a fault-free rollout does, Deployment by Deployment. */
module Rollouts {
  import opened Text
  import opened Objects
  import opened Api
  import opened Workloads
  import opened ProxyPasses
  import opened RulesPasses
  import opened Guarantees
  import opened Calmness

  function Count(parts: seq<string>, name: string): nat {
    if parts == [] then 0 else (if parts[0] == name then 1 else 0) + Count(parts[1..], name)
  }

  lemma {:induction false} CountIsMultiplicity(parts: seq<string>, name: string)
    ensures Count(parts, name) == multiset(parts)[name]
  {
    if parts != [] {
      CountIsMultiplicity(parts[1..], name);
      assert parts == [parts[0]] + parts[1..];
    }
  }

  /** How often the record says that an object was written. */
  ghost function WritesOf(log: seq<Event>, r: Ref): nat {
    if log == [] then 0
    else
      var last := log[|log| - 1];
      WritesOf(log[..|log| - 1], r) + if last.Wrote? && last.ref == r then 1 else 0
  }

  lemma {:induction false} WritesOfOneMore(log: seq<Event>, e: Event, r: Ref)
    ensures WritesOf(log + [e], r) == WritesOf(log, r) + if e.Wrote? && e.ref == r then 1 else 0
  {
    assert (log + [e])[..|log|] == log;
  }

  /** Restarted at a time not before `since`, by a change not older than version `next`:
      everything but the marks of the pod template is what it was. */
  ghost predicate Restarted(b: Deployment, d: Deployment, since: nat, next: nat) {
    && d.rolledAt >= next
    && exists t: nat :: t >= since && d == Stamped(b, t).(rolledAt := d.rolledAt)
  }

  /** The outcome for one Deployment: as many writes as the name occurs in its annotation. */
  ghost predicate RolledOut(o: Oracle, w: World, x: World, r: Ref, times: nat) {
    && r in w.c.objs && w.c.objs[r].obj.DeploymentObject?
    && WritesOf(x.log, r) == WritesOf(w.log, r) + times
    && (times == 0 ==> CopyOf(x.c, r) == CopyOf(w.c, r))
    && (times > 0 ==>
          && r in x.c.objs && x.c.objs[r].obj.DeploymentObject?
          && Restarted(w.c.objs[r].obj.deployment, x.c.objs[r].obj.deployment, o.now(w.calls), w.c.next))
  }

  ghost predicate Spares(w: World, x: World, r: Ref) {
    CopyOf(x.c, r) == CopyOf(w.c, r) && WritesOf(x.log, r) == WritesOf(w.log, r)
  }

  ghost predicate Bears(d: Deployment, time: nat) {
    RELOADED_AT in d.template.marks && d.template.marks[RELOADED_AT] == Time(time)
  }

  lemma RestartOnce(o: Oracle, w: World, ns: string, item: Item)
    requires Calm(o, w.calls) && Clock(o) && item.v.obj.DeploymentObject?
    requires var r := DepRef(Key(ns, item.name)); r in w.c.objs && w.c.objs[r] == item.v
    requires StampedBefore(item.v.obj.deployment, o.now(w.calls))
    ensures var r, b := DepRef(Key(ns, item.name)), item.v.obj.deployment;
            var (x, told) := Update(o, w, r, Main, Sending(item.v, Marked(b, o.now(w.calls))));
            && told.Ok? && r in x.c.objs && x.c.objs[r] == told.value && x.calls == w.calls + 1
            && x.c.next == w.c.next + 1
            && told.value.obj.DeploymentObject?
            && told.value.obj.deployment == Marked(b, o.now(w.calls)).(rolledAt := w.c.next)
            && WritesOf(x.log, r) == WritesOf(w.log, r) + 1
            && (forall q | q != r :: Spares(w, x, q))
  {
    var r, b := DepRef(Key(ns, item.name)), item.v.obj.deployment;
    assert o.fate(w.calls).Fine? && o.interfere(w.calls, w.c) == w.c;
    var d := Marked(b, o.now(w.calls));
    assert Bears(d, o.now(w.calls)) && !Bears(b, o.now(w.calls));
    var placed := DeploymentObject(Placed(Some(b), d, w.c.next));
    forall q ensures WritesOf(w.log + [Wrote(r, Some(item.v.obj), Some(placed))], q)
                  == WritesOf(w.log, q) + if q == r then 1 else 0
    {
      WritesOfOneMore(w.log, Wrote(r, Some(item.v.obj), Some(placed)), q);
    }
  }

  lemma {:induction false} RollPartsExact(o: Oracle, w: World, item: Item, ns: string, name: Name, parts: seq<string>)
    requires Calm(o, w.calls) && Clock(o) && item.v.obj.DeploymentObject?
    requires var r := DepRef(Key(ns, item.name)); r in w.c.objs && w.c.objs[r] == item.v
    requires StampedBefore(item.v.obj.deployment, o.now(w.calls))
    ensures var r, x := DepRef(Key(ns, item.name)), RollParts(o, w, item, ns, name, parts);
            && RolledOut(o, w, x, r, Count(parts, name))
            && (forall q | q != r :: Spares(w, x, q))
            && x.calls >= w.calls && x.c.next >= w.c.next
            && (r in x.c.objs && x.c.objs[r].obj.DeploymentObject? ==>
                  StampedBefore(x.c.objs[r].obj.deployment, o.now(x.calls)))
    decreases |parts|
  {
    if parts != [] {
      if parts[0] != name {
        RollPartsExact(o, w, item, ns, name, parts[1..]);
      } else {
        var r, b := DepRef(Key(ns, item.name)), item.v.obj.deployment;
        RestartOnce(o, w, ns, item);
        var (x, told) := Update(o, w, r, Main, Sending(item.v, Marked(b, o.now(w.calls))));
        CalmLater(o, w.calls, x.calls);
        assert o.now(w.calls) < o.now(x.calls);
        var next := item.(v := told.value);
        var y := RollParts(o, x, next, ns, name, parts[1..]);
        RollPartsExact(o, x, next, ns, name, parts[1..]);
        RestartTwice(o, w, x, y, r, Count(parts[1..], name));
        forall q | q != r ensures Spares(w, y, q) { assert Spares(w, x, q) && Spares(x, y, q); }
      }
    }
  }

  lemma {:induction false} RestartTwice(o: Oracle, w: World, x: World, y: World, r: Ref, times: nat)
    requires Clock(o) && w.calls < x.calls && w.c.next <= x.c.next
    requires r in w.c.objs && w.c.objs[r].obj.DeploymentObject? && r in x.c.objs && x.c.objs[r].obj.DeploymentObject?
    requires x.c.objs[r].obj.deployment == Marked(w.c.objs[r].obj.deployment, o.now(w.calls)).(rolledAt := w.c.next)
    requires WritesOf(x.log, r) == WritesOf(w.log, r) + 1 && RolledOut(o, x, y, r, times)
    ensures RolledOut(o, w, y, r, times + 1)
  {
    var b, m := w.c.objs[r].obj.deployment, x.c.objs[r].obj.deployment;
    assert o.now(w.calls) < o.now(x.calls);
    if times > 0 {
      var d := y.c.objs[r].obj.deployment;
      var t: nat :| t >= o.now(x.calls) && d == Stamped(m, t).(rolledAt := d.rolledAt);
      assert d == Stamped(b, t).(rolledAt := d.rolledAt);
    } else {
      assert m == Stamped(b, o.now(w.calls)).(rolledAt := m.rolledAt);
    }
  }

  ghost predicate Current(w: World, ns: string, items: seq<Item>) {
    && (forall i | 0 <= i < |items| ::
          && items[i].v.obj.DeploymentObject?
          && DepRef(Key(ns, items[i].name)) in w.c.objs && w.c.objs[DepRef(Key(ns, items[i].name))] == items[i].v)
    && (forall i, j | 0 <= i < j < |items| :: items[i].name != items[j].name)
  }

  ghost predicate Lists(items: seq<Item>, ns: string, r: Ref) {
    exists i | 0 <= i < |items| :: r == DepRef(Key(ns, items[i].name))
  }

  lemma {:induction false} RollItemsExact(o: Oracle, w: World, items: seq<Item>, ns: string, name: Name)
    requires Calm(o, w.calls) && Clock(o) && Current(w, ns, items)
    requires StampsBefore(w.c, o.now(w.calls)) && forall i | i in items :: i.v.obj.DeploymentObject?
    ensures var x := RollItems(o, w, items, ns, name);
            && (forall i | 0 <= i < |items| ::
                  RolledOut(o, w, x, DepRef(Key(ns, items[i].name)), Count(PartsOf(items[i].v.obj.deployment), name)))
            && (forall q | !Lists(items, ns, q) :: Spares(w, x, q))
            && x.calls >= w.calls && x.c.next >= w.c.next
    decreases |items|
  {
    if items != [] {
      var first, rest := items[0], items[1..];
      var r0 := DepRef(Key(ns, first.name));
      var y := RollItem(o, w, first, ns, name);
      RollPartsExact(o, w, first, ns, name, PartsOf(first.v.obj.deployment));
      CalmLater(o, w.calls, y.calls);
      assert w.calls < y.calls ==> o.now(w.calls) < o.now(y.calls);
      forall i | 0 <= i < |rest|
        ensures var q := DepRef(Key(ns, rest[i].name)); q != r0 && q in y.c.objs && y.c.objs[q] == rest[i].v
      {
        assert rest[i] == items[i + 1];
        assert Spares(w, y, DepRef(Key(ns, rest[i].name)));
      }
      forall q | q in y.c.objs && y.c.objs[q].obj.DeploymentObject?
        ensures StampedBefore(y.c.objs[q].obj.deployment, o.now(y.calls))
      {
        if q != r0 { assert Spares(w, y, q); }
      }
      RollItemsExact(o, y, rest, ns, name);
      RollItemsJoin(o, w, y, RollItems(o, y, rest, ns, name), items, ns, name);
    }
  }

  /** The outcome for the rest of a list, seen from before its first item was done. */
  lemma {:induction false} RollItemsJoin(o: Oracle, w: World, y: World, x: World, items: seq<Item>, ns: string,
                                         name: Name)
    requires Clock(o) && items != [] && Current(w, ns, items)
    requires w.calls <= y.calls <= x.calls && w.c.next <= y.c.next <= x.c.next
    requires var r0 := DepRef(Key(ns, items[0].name));
             && RolledOut(o, w, y, r0, Count(PartsOf(items[0].v.obj.deployment), name))
             && (forall q | q != r0 :: Spares(w, y, q))
    requires forall i | 0 <= i < |items[1..]| ::
               RolledOut(o, y, x, DepRef(Key(ns, items[1..][i].name)),
                 Count(PartsOf(items[1..][i].v.obj.deployment), name))
    requires forall q | !Lists(items[1..], ns, q) :: Spares(y, x, q)
    ensures forall i | 0 <= i < |items| ::
              RolledOut(o, w, x, DepRef(Key(ns, items[i].name)), Count(PartsOf(items[i].v.obj.deployment), name))
    ensures forall q | !Lists(items, ns, q) :: Spares(w, x, q)
  {
    NotListedAgain(items, ns);
    forall i | 0 <= i < |items|
      ensures RolledOut(o, w, x, DepRef(Key(ns, items[i].name)), Count(PartsOf(items[i].v.obj.deployment), name))
    {
      var r := DepRef(Key(ns, items[i].name));
      if i > 0 {
        assert items[1..][i - 1] == items[i];
        RolledLater(o, w, y, x, r, Count(PartsOf(items[i].v.obj.deployment), name));
      } else {
        RolledBefore(o, w, y, x, r, Count(PartsOf(items[i].v.obj.deployment), name));
      }
    }
    forall q | !Lists(items, ns, q) ensures Spares(w, x, q) {
      ListsFirst(items, ns, q);
      assert Spares(w, y, q) && Spares(y, x, q);
    }
  }

  lemma RolledLater(o: Oracle, w: World, y: World, x: World, r: Ref, times: nat)
    requires Clock(o) && w.calls <= y.calls && w.c.next <= y.c.next && Spares(w, y, r) && RolledOut(o, y, x, r, times)
    ensures RolledOut(o, w, x, r, times)
  {
    assert w.calls < y.calls ==> o.now(w.calls) < o.now(y.calls);
  }

  lemma RolledBefore(o: Oracle, w: World, y: World, x: World, r: Ref, times: nat)
    requires RolledOut(o, w, y, r, times) && Spares(y, x, r)
    ensures RolledOut(o, w, x, r, times)
  {
  }

  lemma ListsFirst(items: seq<Item>, ns: string, q: Ref)
    requires items != []
    ensures Lists(items, ns, q) <==> q == DepRef(Key(ns, items[0].name)) || Lists(items[1..], ns, q)
  {
    if i :| 0 <= i < |items[1..]| && q == DepRef(Key(ns, items[1..][i].name)) {
      assert items[1..][i] == items[i + 1];
    }
    if i :| 0 < i < |items| && q == DepRef(Key(ns, items[i].name)) {
      assert items[1..][i - 1] == items[i];
    }
  }

  lemma NotListedAgain(items: seq<Item>, ns: string)
    requires items != [] && forall i, j | 0 <= i < j < |items| :: items[i].name != items[j].name
    ensures !Lists(items[1..], ns, DepRef(Key(ns, items[0].name)))
  {
    forall i | 0 <= i < |items[1..]| ensures items[1..][i].name != items[0].name {
      assert items[1..][i] == items[i + 1];
    }
  }

  /** How often a rollout for `name` writes this object: never, unless it is a managed
      Deployment of the namespace; and then as often as the name is a whole element of its
      annotation. */
  ghost function Occurrences(c: Cluster, r: Ref, ns: string, name: Name): nat {
    if r in c.objs && r.kind == DeploymentKind && r.key.ns == ns && Managed(c.objs[r].obj.deployment)
    then Count(PartsOf(c.objs[r].obj.deployment), name) else 0
  }

  /** A fault-free rollout, exactly: whatever order the list comes in, every managed
      Deployment of the namespace is restarted if it names the ConfigMap, with one write for
      every time it does, and nothing else in the cluster is touched. */
  lemma RolloutExact(o: Oracle, w: World, ns: string, name: Name)
    requires Calm(o, w.calls) && Clock(o) && StampsBefore(w.c, o.now(w.calls))
    ensures var (x, out) := Rollout(o, w, ns, name);
            && out == Requeue
            && (forall r | Occurrences(w.c, r, ns, name) == 0 :: Spares(w, x, r))
            && (forall r | Occurrences(w.c, r, ns, name) > 0 :: RolledOut(o, w, x, r, Occurrences(w.c, r, ns, name)))
  {
    assert o.fate(w.calls).Fine? && o.interfere(w.calls, w.c) == w.c;
    var (y, listed) := ListDeployments(o, w, ns);
    var s := ManagedNames(w.c, ns);
    var names := o.order(w.calls, s);
    OrderKeeps(o.order, w.calls, s);
    DistinctByCount(names);
    var items := listed.value;
    assert o.now(w.calls) < o.now(y.calls);
    CalmLater(o, w.calls, y.calls);
    forall r | r in y.c.objs && y.c.objs[r].obj.DeploymentObject?
      ensures StampedBefore(y.c.objs[r].obj.deployment, o.now(y.calls)) {}
    forall i | 0 <= i < |items|
      ensures var q := DepRef(Key(ns, items[i].name));
              && items[i].v.obj.DeploymentObject? && q in y.c.objs && y.c.objs[q] == items[i].v
              && Managed(items[i].v.obj.deployment)
    {
      assert names[i] in names;
    }
    RollItemsExact(o, y, items, ns, name);
    var x := RollItems(o, y, items, ns, name);
    forall r ensures Occurrences(w.c, r, ns, name) == 0 ==> Spares(w, x, r)
             ensures Occurrences(w.c, r, ns, name) > 0 ==> RolledOut(o, w, x, r, Occurrences(w.c, r, ns, name))
    {
      if Occurrences(w.c, r, ns, name) > 0 { ManagedIsListed(w.c, r, ns, name, names, items); }
      if i :| 0 <= i < |items| && r == DepRef(Key(ns, items[i].name)) {
        assert RolledOut(o, y, x, r, Count(PartsOf(items[i].v.obj.deployment), name));
        RolledLater(o, w, y, x, r, Count(PartsOf(items[i].v.obj.deployment), name));
      } else {
        assert Spares(y, x, r);
      }
    }
  }

  lemma ManagedIsListed(c: Cluster, r: Ref, ns: string, name: Name, names: seq<Name>, items: seq<Item>)
    requires Occurrences(c, r, ns, name) > 0 && multiset(names) == multiset(ManagedNames(c, ns))
    requires |items| == |names| && forall i | 0 <= i < |items| :: items[i].name == names[i]
    ensures Lists(items, ns, r)
  {
    assert r.key.name in ManagedNames(c, ns);
    assert r.key.name in multiset(names);
    var i :| 0 <= i < |names| && names[i] == r.key.name;
    assert r == DepRef(Key(ns, items[i].name));
  }

  /** On an annotation the operator wrote, a name is an element exactly if it was written, and
      as often; so a name that is only a part of another never matches. */
  lemma {:induction false} DigestElements(names: seq<Name>, name: Name)
    ensures Count(Split(Digest(names), COMMA), name) == multiset(names)[name]
  {
    NamedDigest(names);
    AsStringsMultiset(names);
    CountIsMultiplicity(Split(Digest(names), COMMA), name);
    if Digest(names) == "" {
      assert multiset(names)[name] == multiset(Named(Digest(names)))[name] == 0;
      assert Split("", COMMA) == [""];
    }
  }
}
