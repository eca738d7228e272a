/** Deleting a rule: the finalizer loop patches a list that shrinks under it. */
module Deletion {
  import opened Text
  import opened Objects
  import opened Api
  import opened ProxyPasses
  import opened RulesPasses
  import opened Guarantees
  import opened Calmness

  /** Nothing but the object `r` has changed. */
  ghost predicate SameBut(c: Cluster, x: Cluster, r: Ref) {
    forall q | q != r :: CopyOf(x, q) == CopyOf(c, q)
  }

  // ---- the list ---------------------------------------------------------

  /** The entries at positions 1, 3, 5, ... */
  function OddEntries<T>(s: seq<T>): (r: seq<T>)
    ensures |r| == |s| / 2
    ensures forall i | 0 <= i < |r| :: r[i] == s[2 * i + 1]
  {
    seq(|s| / 2, i requires 0 <= i < |s| / 2 => s[2 * i + 1])
  }

  /** What is left after removing index 0, then 1, ..., then i - 1. */
  ghost function Stripped<T>(s: seq<T>, i: nat): (r: seq<T>)
    requires 2 * i <= |s| + 1
    ensures |r| == |s| - i
    ensures forall j | 0 <= j < |r| :: r[j] == if j < i then s[2 * j + 1] else s[i + j]
  {
    seq(|s| - i, j requires 0 <= j < |s| - i => if j < i then s[2 * j + 1] else s[i + j])
  }

  lemma StrippedStep<T>(s: seq<T>, i: nat)
    requires 2 * i < |s|
    ensures Without(Stripped(s, i), i) == Stripped(s, i + 1)
  {
  }

  /** With its finalizers replaced, as a patch leaves it. */
  ghost function Cut(obj: Object, finalizers: seq<string>): Object
    requires obj.RuleObject?
  {
    obj.With(obj.cr.(finalizers := finalizers))
  }

  /** Before its `j`-th turn the loop, started in `w` on the rule `obj`, has made `j` removals. */
  ghost predicate Turn(since: nat, w: World, r: Ref, obj: Object, j: nat, x: World) {
    && r.kind == RuleKind && obj.RuleObject? && since <= x.calls
    && 2 * j <= |obj.cr.finalizers| + 1
    && |x.log| == |w.log| + j && SameBut(w.c, x.c, r)
    && Stored(x.c, r) == if j == 0 then Some(obj) else Kept(Cut(obj, Stripped(obj.cr.finalizers, j)))
  }

  /** What the loop amounts to: on a list of n entries it makes ceil(n/2) removals, leaves
      exactly the entries at odd positions, and fails when there is one. */
  ghost predicate Leaves(w: World, r: Ref, obj: Object, res: (World, Outcome))
    requires obj.RuleObject?
  {
    var f, x := obj.cr.finalizers, res.0;
    && res.1 == (if |f| <= 1 then Done else Failed(Invalid))
    && |x.log| == |w.log| + (|f| + 1) / 2
    && SameBut(w.c, x.c, r)
    && Stored(x.c, r) == (if f == [] then Some(obj) else Kept(Cut(obj, OddEntries(f))))
  }

  lemma TurnPatches(o: Oracle, since: nat, w: World, r: Ref, obj: Object, j: nat, x: World)
    requires Calm(o, since) && Turn(since, w, r, obj, j, x) && 2 * j < |obj.cr.finalizers|
    ensures var (y, told) := PatchFinalizer(o, x, r, j); told.Ok? && Turn(since, w, r, obj, j + 1, y)
  {
    var f := obj.cr.finalizers;
    var stored, less := Cut(obj, Stripped(f, j)), Cut(obj, Stripped(f, j + 1));
    StrippedStep(f, j);
    assert o.fate(x.calls).Fine? && o.interfere(x.calls, x.c) == x.c;
    if j == 0 { assert Stripped(f, 0) == f; }
    assert stored.With(stored.cr.(finalizers := Without(stored.cr.finalizers, j))) == less;
    assert less != stored by { assert |less.cr.finalizers| < |stored.cr.finalizers|; }
  }

  /** The turn after the last removal finds no entry at its index. */
  lemma TurnFails(o: Oracle, since: nat, w: World, r: Ref, obj: Object, j: nat, x: World)
    requires Calm(o, since) && Turn(since, w, r, obj, j, x) && j < |obj.cr.finalizers| <= 2 * j
    ensures var (y, told) := PatchFinalizer(o, x, r, j); told.Err? && Leaves(w, r, obj, (y, Failed(told.error)))
  {
    assert o.fate(x.calls).Fine? && o.interfere(x.calls, x.c) == x.c;
    assert Stripped(obj.cr.finalizers, j) == OddEntries(obj.cr.finalizers) != [];
  }

  lemma TurnEnds(since: nat, w: World, r: Ref, obj: Object, j: nat, x: World)
    requires Turn(since, w, r, obj, j, x) && j >= |obj.cr.finalizers|
    ensures Leaves(w, r, obj, (x, Done))
  {
    if j > 0 { assert Stripped(obj.cr.finalizers, j) == OddEntries(obj.cr.finalizers); }
  }

  /** This is what the loop comes to from `x`, which is before its `j`-th turn. */
  ghost predicate ComesTo(o: Oracle, r: Ref, n: nat, j: nat, x: World, res: (World, Outcome))
    requires r.kind == RuleKind
  {
    res == Strip(o, x, r, j, n)
  }

  /** One turn, whatever it comes to. */
  lemma TurnGoesOn(o: Oracle, since: nat, w: World, r: Ref, obj: Object, j: nat, x: World, res: (World, Outcome))
    returns (y: World)
    requires Calm(o, since) && Turn(since, w, r, obj, j, x) && 2 * j < |obj.cr.finalizers|
    requires ComesTo(o, r, |obj.cr.finalizers|, j, x, res)
    ensures Turn(since, w, r, obj, j + 1, y) && ComesTo(o, r, |obj.cr.finalizers|, j + 1, y, res)
  {
    TurnPatches(o, since, w, r, obj, j, x);
    y := PatchFinalizer(o, x, r, j).0;
  }

  lemma {:induction false} LastTurn(o: Oracle, since: nat, w: World, r: Ref, obj: Object, j: nat, x: World,
                                    res: (World, Outcome))
    requires Calm(o, since) && Turn(since, w, r, obj, j, x) && 2 * j >= |obj.cr.finalizers|
    requires ComesTo(o, r, |obj.cr.finalizers|, j, x, res)
    ensures Leaves(w, r, obj, res)
  {
    if j >= |obj.cr.finalizers| { TurnEnds(since, w, r, obj, j, x); } else { TurnFails(o, since, w, r, obj, j, x); }
  }

  lemma {:induction false} TurnsLeave(o: Oracle, since: nat, w: World, r: Ref, obj: Object, j: nat, x: World,
                                      res: (World, Outcome))
    requires Calm(o, since) && Turn(since, w, r, obj, j, x) && ComesTo(o, r, |obj.cr.finalizers|, j, x, res)
    ensures Leaves(w, r, obj, res)
    decreases |obj.cr.finalizers| - j
  {
    if 2 * j >= |obj.cr.finalizers| {
      LastTurn(o, since, w, r, obj, j, x, res);
    } else {
      var y := TurnGoesOn(o, since, w, r, obj, j, x, res);
      TurnsLeave(o, since, w, r, obj, j + 1, y, res);
    }
  }

  lemma {:induction false} StripLeaves(o: Oracle, w: World, r: Ref)
    requires Calm(o, w.calls) && r.kind == RuleKind && r in w.c.objs
    ensures var obj := w.c.objs[r].obj; Leaves(w, r, obj, Strip(o, w, r, 0, |obj.cr.finalizers|))
  {
    var obj := w.c.objs[r].obj;
    TurnsLeave(o, w.calls, w, r, obj, 0, w, Strip(o, w, r, 0, |obj.cr.finalizers|));
  }

  /** A fault-free pass on a rule being deleted: with a single finalizer it succeeds and the
      rule is gone; otherwise it fails, after dropping the finalizers at even positions,
      whoever owns them. Nothing else changes. */
  lemma DeletingPass(o: Oracle, w: World, k: Key)
    requires Calm(o, w.calls)
    requires var r := RuleRef(k);
             r in w.c.objs && var cr := w.c.objs[r].obj.cr;
             cr.deleting && cr.conditions != [] && FINALIZER in cr.finalizers
    ensures var r := RuleRef(k);
            var obj, (x, out) := w.c.objs[r].obj, RulesPass(o, w, k);
            && out == (if |obj.cr.finalizers| == 1 then Done else Failed(Invalid))
            && Stored(x.c, r) == Kept(Cut(obj, OddEntries(obj.cr.finalizers)))
            && SameBut(w.c, x.c, r)
            && |x.log| == |w.log| + 2 + (|obj.cr.finalizers| + 1) / 2
            && x.calls >= w.calls
  {
    var r := RuleRef(k);
    var obj := w.c.objs[r].obj;
    assert o.fate(w.calls).Fine? && o.interfere(w.calls, w.c) == w.c;
    assert o.fate(w.calls + 1).Fine? && o.interfere(w.calls + 1, w.c) == w.c;
    var w1 := Get(o, w, r).0;
    var w2 := Get(o, w1, r).0;
    StripLeaves(o, w2, r);
    StripCalls(o, w2, r, 0, |obj.cr.finalizers|);
  }

  lemma {:induction false} StripCalls(o: Oracle, w: World, r: Ref, i: nat, n: nat)
    requires r.kind == RuleKind
    ensures Strip(o, w, r, i, n).0.calls >= w.calls
    decreases n - i
  {
    if i < n { StripCalls(o, PatchFinalizer(o, w, r, i).0, r, i + 1, n); }
  }

  // ---- how many passes --------------------------------------------------

  /** A sole entry at an even position goes; at an odd position p it moves to (p-1)/2. */
  lemma OwnMoves(f: seq<string>, p: nat)
    requires p < |f| && f[p] == FINALIZER && forall q | 0 <= q < |f| && f[q] == FINALIZER :: q == p
    ensures p % 2 == 0 ==> FINALIZER !in OddEntries(f)
    ensures p % 2 == 1 ==> (p - 1) / 2 < |OddEntries(f)| && OddEntries(f)[(p - 1) / 2] == FINALIZER
                           && forall q | 0 <= q < |OddEntries(f)| && OddEntries(f)[q] == FINALIZER :: q == (p - 1) / 2
  {
  }

  function PassesNeeded(p: nat): nat {
    if p % 2 == 0 then 1 else 1 + PassesNeeded((p - 1) / 2)
  }

  ghost predicate OwnAt(w: World, k: Key, p: nat) {
    && RuleRef(k) in w.c.objs
    && var cr := w.c.objs[RuleRef(k)].obj.cr;
    && cr.deleting && cr.conditions != [] && p < |cr.finalizers| && cr.finalizers[p] == FINALIZER
    && forall q | 0 <= q < |cr.finalizers| && cr.finalizers[q] == FINALIZER :: q == p
  }

  ghost predicate Claimed(w: World, k: Key) {
    RuleRef(k) in w.c.objs && FINALIZER in w.c.objs[RuleRef(k)].obj.cr.finalizers
  }

  lemma OnePass(o: Oracle, w: World, k: Key, p: nat)
    requires Calm(o, w.calls) && OwnAt(w, k, p)
    ensures var x := RulesPass(o, w, k).0;
            Calm(o, x.calls) && if p % 2 == 0 then !Claimed(x, k) else OwnAt(x, k, (p - 1) / 2)
  {
    DeletingPass(o, w, k);
    CalmLater(o, w.calls, RulesPass(o, w, k).0.calls);
    OwnMoves(w.c.objs[RuleRef(k)].obj.cr.finalizers, p);
  }

  /** With n of the needed passes to go, the own entry has moved to where so many are needed. */
  ghost predicate Awaits(o: Oracle, k: Key, n: nat, x: World) {
    && Calm(o, x.calls)
    && if n == 0 then !Claimed(x, k) else exists p: nat :: PassesNeeded(p) == n && OwnAt(x, k, p)
  }

  lemma PassAwaits(o: Oracle, k: Key, n: nat, x: World)
    requires n > 0 && Awaits(o, k, n, x)
    ensures Awaits(o, k, n - 1, RulesPass(o, x, k).0)
  {
    var p: nat :| PassesNeeded(p) == n && OwnAt(x, k, p);
    OnePass(o, x, k, p);
    if p % 2 == 1 { PassesNeededPositive((p - 1) / 2); }
  }

  lemma {:induction false} PassesNeededPositive(p: nat)
    ensures PassesNeeded(p) >= 1
  {
  }

  lemma AwaitsClaimed(o: Oracle, k: Key, n: nat, x: World)
    requires Awaits(o, k, n, x)
    ensures Claimed(x, k) <==> n > 0
  {
  }

  lemma {:induction false} AwaitsLess(o: Oracle, w: World, k: Key, rest: nat, passes: nat)
    requires Awaits(o, k, passes + rest, w)
    ensures Awaits(o, k, rest, RulesRepeated(o, w, k, passes))
  {
    var claim := (n: nat, x: World) => Awaits(o, k, n, x);
    forall n: nat, x: World | n > 0 && claim(n, x) ensures claim(n - 1, RulesPass(o, x, k).0) {
      PassAwaits(o, k, n, x);
    }
    RulesThroughout(o, k, claim, w, passes, rest);
  }

  /** Retried without faults, the passes release a rule whose own finalizer stands at
      position p after exactly PassesNeeded(p) of them, and not before. */
  lemma {:induction false} ReleasedAfter(o: Oracle, w: World, k: Key, p: nat, passes: nat)
    requires Calm(o, w.calls) && OwnAt(w, k, p) && passes <= PassesNeeded(p)
    ensures Claimed(RulesRepeated(o, w, k, passes), k) <==> passes < PassesNeeded(p)
  {
    PassesNeededPositive(p);
    AwaitsLess(o, w, k, PassesNeeded(p) - passes, passes);
    AwaitsClaimed(o, k, PassesNeeded(p) - passes, RulesRepeated(o, w, k, passes));
  }

  function Pow2(n: nat): nat { if n == 0 then 1 else 2 * Pow2(n - 1) }

  function Log2(n: nat): nat
    requires n >= 1
  {
    if n == 1 then 0 else 1 + Log2(n / 2)
  }

  ghost predicate IsValuation(p: nat, j: nat, odd: nat) { odd % 2 == 1 && p + 1 == Pow2(j) * odd }

  lemma ValuationDoubles(q: nat, j: nat, odd: nat)
    requires IsValuation(q, j, odd)
    ensures IsValuation(2 * q + 1, j + 1, odd)
  {
    Doubled(Pow2(j), odd);
  }

  lemma Doubled(a: nat, odd: nat)
    ensures (2 * a) * odd == 2 * (a * odd)
  {
  }

  /** The number of passes is one more than the power of two in p + 1: at most
      floor(log2(p + 1)) + 1, and that many for p = 2^j - 1. */
  lemma {:induction false} PassesNeededIsValuation(p: nat) returns (odd: nat)
    ensures PassesNeeded(p) >= 1 && IsValuation(p, PassesNeeded(p) - 1, odd)
    ensures PassesNeeded(p) <= Log2(p + 1) + 1
  {
    if p % 2 == 0 {
      odd := p + 1;
    } else {
      var q: nat := (p - 1) / 2;
      odd := PassesNeededIsValuation(q);
      ValuationDoubles(q, PassesNeeded(q) - 1, odd);
      assert p == 2 * q + 1 && (p + 1) / 2 == q + 1;
    }
  }

  lemma {:induction false} PassesNeededIsTight(j: nat)
    ensures Pow2(j) >= 1 && PassesNeeded(Pow2(j) - 1) == j + 1
  {
    if j > 0 {
      PassesNeededIsTight(j - 1);
      assert (Pow2(j) - 1 - 1) / 2 == Pow2(j - 1) - 1;
    }
  }

  /** Once its own finalizer is gone while others remain, the controller tries to claim the
      rule again, is refused, and changes nothing: it is stuck until the others are gone. */
  lemma ReleasedIsStuck(o: Oracle, w: World, k: Key)
    requires Calm(o, w.calls)
    requires var r := RuleRef(k);
             r in w.c.objs && var cr := w.c.objs[r].obj.cr;
             cr.deleting && cr.conditions != [] && FINALIZER !in cr.finalizers
    ensures RulesPass(o, w, k).1 == Failed(Forbidden) && RulesPass(o, w, k).0.c == w.c
  {
    var r := RuleRef(k);
    var v := w.c.objs[r];
    assert o.fate(w.calls).Fine? && o.interfere(w.calls, w.c) == w.c;
    assert o.fate(w.calls + 1).Fine? && o.interfere(w.calls + 1, w.c) == w.c;
    var sent := WithFinalizers(v, AddFinalizer(v.obj.cr.finalizers));
    assert FINALIZER in sent.obj.cr.finalizers;
    assert Merged(v.obj, sent.obj, Main, w.c.next) == sent.obj;
  }

  // ---- proxies ----------------------------------------------------------

  /** What the record says of a write: nothing, if nothing changed. */
  function Change(r: Ref, before: Object, after: Option<Object>): seq<Event> {
    if after == Some(before) then [] else [Wrote(r, Some(before), after)]
  }

  ghost function Degraded(obj: Object, status: ConditionStatus, message: Message): Object
    requires obj.ProxyObject?
  {
    obj.With(Report(obj.cr, DEGRADED, status, "Finalizing", message))
  }

  lemma FinalizeWrite(o: Oracle, w: World, r: Ref, part: Part, sent: Versioned)
    requires Calm(o, w.calls) && r.kind == ProxyKind && r in w.c.objs && sent.rv == w.c.objs[r].rv
    requires sent.obj.ProxyObject? && Merged(w.c.objs[r].obj, sent.obj, part, w.c.next) == sent.obj
    requires !Forbids(w.c.objs[r].obj, sent.obj)
    ensures var (x, told) := Update(o, w, r, part, sent);
            && told.Ok? && told.value.obj == sent.obj && x.calls == w.calls + 1
            && x.log == w.log + Change(r, w.c.objs[r].obj, Kept(sent.obj))
            && SameBut(w.c, x.c, r) && Stored(x.c, r) == Kept(sent.obj)
            && (r in x.c.objs ==> x.c.objs[r] == told.value)
  {
    assert o.fate(w.calls).Fine? && o.interfere(w.calls, w.c) == w.c;
  }

  /** A fault-free pass on a proxy being deleted succeeds: it reports Degraded=Unknown, then
      Degraded=True, and only then gives up the finalizer; all its own entries go, the others
      stay as they were, and without others the proxy is gone. Nothing else changes. */
  lemma FinalizingPass(o: Oracle, w: World, k: Key)
    requires Calm(o, w.calls)
    requires var r := ProxyRef(k);
             r in w.c.objs && var cr := w.c.objs[r].obj.cr;
             cr.deleting && cr.conditions != [] && FINALIZER in cr.finalizers
    ensures var r := ProxyRef(k);
            var obj, (x, out) := w.c.objs[r].obj, ProxyPass(o, w, k);
            var begun := Degraded(obj, Unknown, Finalizing);
            var ended := Degraded(begun, True, Finalized);
            var left := ended.With(ended.cr.(finalizers := RemoveFinalizer(obj.cr.finalizers)));
            && out == Done && Stored(x.c, r) == Kept(left) && SameBut(w.c, x.c, r)
            && x.log == w.log + [Read(r, obj)] + Change(r, obj, Some(begun)) + [Read(r, begun)]
                        + Change(r, begun, Some(ended)) + [Wrote(r, Some(ended), Kept(left))]
  {
    var r := ProxyRef(k);
    var v := w.c.objs[r];
    RemoveFinalizerDropsOwn(v.obj.cr.finalizers);
    assert o.fate(w.calls).Fine? && o.interfere(w.calls, w.c) == w.c;
    var w1 := Get(o, w, r).0;
    var sent := Reporting(v, DEGRADED, Unknown, "Finalizing", Finalizing);
    FinalizeWrite(o, w1, r, Status, sent);
    var (w2, told) := Update(o, w1, r, Status, sent);
    CalmGet(o, w2, r);
    FinalizingAgain(o, Get(o, w2, r).0, k);
  }

  lemma FinalizingAgain(o: Oracle, w: World, k: Key)
    requires Calm(o, w.calls)
    requires var r := ProxyRef(k);
             r in w.c.objs && var cr := w.c.objs[r].obj.cr; cr.deleting && FINALIZER in cr.finalizers
    ensures var r := ProxyRef(k);
            var obj, (x, out) := w.c.objs[r].obj, FinalizeAgain(o, w, k, w.c.objs[r]);
            var ended := Degraded(obj, True, Finalized);
            var left := ended.With(ended.cr.(finalizers := RemoveFinalizer(obj.cr.finalizers)));
            && out == Done && Stored(x.c, r) == Kept(left) && SameBut(w.c, x.c, r)
            && x.log == w.log + Change(r, obj, Some(ended)) + [Wrote(r, Some(ended), Kept(left))]
  {
    var r := ProxyRef(k);
    var v := w.c.objs[r];
    RemoveFinalizerDropsOwn(v.obj.cr.finalizers);
    var sent := Reporting(v, DEGRADED, True, "Finalizing", Finalized);
    FinalizeWrite(o, w, r, Status, sent);
    var (x, told) := Update(o, w, r, Status, sent);
    FinalizeWrite(o, x, r, Main, WithFinalizers(told.value, RemoveFinalizer(v.obj.cr.finalizers)));
  }
}
