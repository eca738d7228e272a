/** Calls that do not fail, with nobody else acting: what a pass then amounts to. */
module Calmness {
  import opened Text
  import opened Objects
  import opened Api
  import opened Workloads
  import opened ProxyPasses
  import opened Guarantees

  /** From call `n` on, no call fails and nobody else acts. */
  ghost predicate Calm(o: Oracle, n: nat) {
    && (forall i: nat | i >= n :: o.fate(i).Fine?)
    && (forall i: nat, c: Cluster | i >= n :: o.interfere(i, c) == c)
  }

  /** Nobody but the controller acts; its calls may fail. */
  ghost predicate Quiet(o: Oracle) {
    forall n: nat, c: Cluster :: o.interfere(n, c) == c
  }

  lemma CalmLater(o: Oracle, m: nat, n: nat)
    requires Calm(o, m) && m <= n
    ensures Calm(o, n)
  {
  }

  /** A run without faults and without interference meets all that is asked of the others. */
  lemma CalmIsLawful(o: Oracle)
    requires Clock(o) && Calm(o, 0)
    ensures Lawful(o)
  {
    forall n: nat, c: Cluster ensures Behaves(o, n, c) {
      assert o.interfere(n, c) == c && o.now(n) < o.now(n + 1);
    }
  }

  function One(b: bool): nat { if b then 1 else 0 }

  /** The cluster with one object written. */
  ghost function Put(c: Cluster, r: Ref, obj: Object): Cluster
    requires obj.Kind() == r.kind
  {
    if Stored(c, r) == Some(obj) then c else Cluster(c.objs[r := Versioned(obj, c.next)], c.next + 1)
  }

  lemma CalmUpdate(o: Oracle, w: World, r: Ref, part: Part, sent: Versioned)
    requires Calm(o, w.calls) && sent.obj.Kind() == r.kind
    requires r in w.c.objs && w.c.objs[r].rv == sent.rv
    requires var m := Merged(w.c.objs[r].obj, sent.obj, part, w.c.next);
             !Forbids(w.c.objs[r].obj, m) && Kept(m) == Some(m)
    ensures var m := Merged(w.c.objs[r].obj, sent.obj, part, w.c.next);
            var (x, told) := Update(o, w, r, part, sent);
            && x.c == Put(w.c, r, m) && x.calls == w.calls + 1 && Calm(o, x.calls)
            && told == Ok(Versioned(m, x.c.objs[r].rv))
  {
    assert o.fate(w.calls).Fine? && o.interfere(w.calls, w.c) == w.c;
  }

  lemma CalmGet(o: Oracle, w: World, r: Ref)
    requires Calm(o, w.calls)
    ensures var (x, got) := Get(o, w, r);
            && x.c == w.c && x.calls == w.calls + 1 && Calm(o, x.calls)
            && got == (if r in w.c.objs then Ok(w.c.objs[r]) else Err(NotFound))
  {
    assert o.fate(w.calls).Fine? && o.interfere(w.calls, w.c) == w.c;
  }

  lemma CalmLocal(o: Oracle, w: World)
    requires Calm(o, w.calls)
    ensures Local(o, w) == (World(w.c, w.calls + 1, w.log, w.posts), true) && Calm(o, w.calls + 1)
  {
    assert o.fate(w.calls).Fine? && o.interfere(w.calls, w.c) == w.c;
  }

  lemma CalmCreate(o: Oracle, w: World, r: Ref, obj: Object)
    requires Calm(o, w.calls) && obj.Kind() == r.kind && r !in w.c.objs
    ensures var (x, told) := Create(o, w, r, obj);
            x.c == Put(w.c, r, Made(obj, w.c.next)) && x.calls == w.calls + 1 && told.Ok?
  {
    assert o.fate(w.calls).Fine? && o.interfere(w.calls, w.c) == w.c;
  }

  /** Whatever order the lists come in, one calm walk collects the selected ConfigMaps. */
  lemma {:induction false} CalmCollect(o: Oracle, w: World, ns: string, rulesets: seq<Labels>, acc: seq<Name>)
    requires Calm(o, w.calls)
    ensures var (x, names, complete) := Collect(o, w, ns, rulesets, acc);
            && complete && x.c == w.c && x.calls >= w.calls && Calm(o, x.calls)
            && multiset(names) == multiset(acc) + Selected(w.c, ns, rulesets)
    decreases |rulesets|
  {
    if rulesets != [] {
      assert o.fate(w.calls).Fine? && o.interfere(w.calls, w.c) == w.c;
      var (x, got) := ListConfigMaps(o, w, ns, rulesets[0]);
      assert multiset(got.value) == multiset(Matching(w.c, ns, rulesets[0]));
      CalmCollect(o, x, ns, rulesets[1..], acc + got.value);
    }
  }
}
