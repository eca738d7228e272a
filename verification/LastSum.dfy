/** What the checksum in the status of a rule says about the ConfigMap, over whole runs. */
module LastSum {
  import opened Text
  import opened Objects
  import opened Api
  import opened ProxyPasses
  import opened RulesPasses
  import opened Guarantees
  import opened Calmness
  import opened RulesConvergence
  import opened Runs
  import Deletion
  import ProxySafety

  /** A recorded checksum is that of the stored data. */
  ghost predicate Honest(o: Oracle, c: Cluster, k: Key) {
    RuleRef(k) in c.objs && c.objs[RuleRef(k)].obj.lastSum != "" ==>
      CmRef(k) in c.objs && o.hash(DataOf(k, c.objs[CmRef(k)].obj.configMap)) == c.objs[RuleRef(k)].obj.lastSum
  }

  ghost predicate AllHonest(o: Oracle, c: Cluster) {
    forall k: Key :: Honest(o, c, k)
  }

  /** Between two passes, users may change whatever they like, as long as the cluster stays in
      order and every change gets a new version. */
  ghost predicate UserEdit(o: Oracle, w: World, x: World) {
    x.calls == w.calls && x.log == w.log && InOrder(o, x) && Evolves(w.c, x.c)
  }

  /** They leave the recorded checksums and the data of the ConfigMaps these are of. */
  ghost predicate SumsKept(c: Cluster, d: Cluster) {
    forall k: Key | RuleRef(k) in d.objs && d.objs[RuleRef(k)].obj.lastSum != "" ::
      && RuleRef(k) in c.objs && c.objs[RuleRef(k)].obj.lastSum == d.objs[RuleRef(k)].obj.lastSum
      && (CmRef(k) in c.objs ==>
            CmRef(k) in d.objs
            && DataOf(k, d.objs[CmRef(k)].obj.configMap) == DataOf(k, c.objs[CmRef(k)].obj.configMap))
  }

  /** A step of a run: a pass of either controller for any object, or an edit by users. */
  ghost predicate Moves(o: Oracle, w: World, x: World) {
    || (exists turn :: x == Take(o, w, turn))
    || (UserEdit(o, w, x) && SumsKept(w.c, x.c))
  }

  // ---- passes of the rules controller -----------------------------------

  ghost predicate OthersKept(c: Cluster, k: Key, x: Cluster) {
    forall r: Ref | r.kind in {RuleKind, ConfigMapKind} && r.key != k :: CopyOf(x, r) == CopyOf(c, r)
  }

  lemma OthersStayHonest(o: Oracle, c: Cluster, k: Key, x: Cluster)
    requires AllHonest(o, c) && OthersKept(c, k, x) && Honest(o, x, k)
    ensures AllHonest(o, x)
  {
    forall j: Key ensures Honest(o, x, j) {
      if j != k {
        assert CopyOf(x, RuleRef(j)) == CopyOf(c, RuleRef(j)) && CopyOf(x, CmRef(j)) == CopyOf(c, CmRef(j));
        assert Honest(o, c, j);
      }
    }
  }

  /** After a calm pass on it, the checksum of a standing rule is that of its data, if it was before. */
  lemma {:induction false} SteppedIsHonest(o: Oracle, c: Cluster, k: Key, x: Cluster)
    requires RuleRef(k) in c.objs && StepTo(o, c, k, x) && Honest(o, c, k)
    ensures Honest(o, x, k) && OthersKept(c, k, x)
  {
  }

  lemma {:induction false} StandingPassHonest(o: Oracle, w: World, k: Key)
    requires Calm(o, w.calls) && AllHonest(o, w.c)
    requires RuleRef(k) in w.c.objs && !w.c.objs[RuleRef(k)].obj.cr.deleting
    ensures AllHonest(o, RulesPass(o, w, k).0.c)
  {
    var x := RulesPass(o, w, k).0;
    CalmRulesPass(o, w, k);
    assert Honest(o, w.c, k);
    SteppedIsHonest(o, w.c, k, x.c);
    OthersStayHonest(o, w.c, k, x.c);
  }

  /** A pass on a rule that is absent or being deleted: the rule may lose finalizers and get
      a first condition, nothing else changes. */
  lemma NotStandingFrame(o: Oracle, w: World, k: Key)
    requires Calm(o, w.calls)
    requires RuleRef(k) in w.c.objs ==> w.c.objs[RuleRef(k)].obj.cr.deleting
    ensures var x := RulesPass(o, w, k).0;
            && (forall q: Ref | q != RuleRef(k) :: CopyOf(x.c, q) == CopyOf(w.c, q))
            && (RuleRef(k) in x.c.objs ==>
                  RuleRef(k) in w.c.objs && x.c.objs[RuleRef(k)].obj.lastSum == w.c.objs[RuleRef(k)].obj.lastSum)
  {
    var r, x := RuleRef(k), RulesPass(o, w, k).0;
    if r !in w.c.objs {
      CalmGet(o, w, r);
    } else if w.c.objs[r].obj.cr.conditions == [] {
      CalmGet(o, w, r);
      assert o.fate(w.calls + 1).Fine? && o.interfere(w.calls + 1, w.c) == w.c;
    } else if FINALIZER !in w.c.objs[r].obj.cr.finalizers {
      Deletion.ReleasedIsStuck(o, w, k);
    } else {
      Deletion.DeletingPass(o, w, k);
    }
  }

  lemma RulesPassHonest(o: Oracle, w: World, k: Key)
    requires Calm(o, w.calls) && AllHonest(o, w.c)
    ensures AllHonest(o, RulesPass(o, w, k).0.c)
  {
    var x := RulesPass(o, w, k).0;
    assert Honest(o, w.c, k);
    if RuleRef(k) in w.c.objs && !w.c.objs[RuleRef(k)].obj.cr.deleting {
      StandingPassHonest(o, w, k);
    } else {
      NotStandingFrame(o, w, k);
      assert CopyOf(x.c, CmRef(k)) == CopyOf(w.c, CmRef(k));
      OthersStayHonest(o, w.c, k, x.c);
    }
  }

  // ---- passes of the proxy controller -----------------------------------

  /** With nobody else acting, a proxy pass leaves everything alone but its own three objects. */
  lemma ProxyPassFrame(o: Oracle, w: World, k: Key, r: Ref)
    requires Lawful(o) && Quiet(o) && InOrder(o, w)
    requires r !in {ProxyRef(k), DepRef(k), SvcRef(k)}
    ensures CopyOf(ProxyPass(o, w, k).0.c, r) == CopyOf(w.c, r)
  {
    var x := ProxyPass(o, w, k).0;
    ProxySafety.ProxyGuarantee(o, w, k);
    assert Untouched(o, r) by {
      forall n: nat, c: Cluster ensures CopyOf(o.interfere(n, c), r) == CopyOf(c, r) { assert o.interfere(n, c) == c; }
    }
    if x.log != w.log {
      forall i | |w.log| <= i < |x.log| ensures x.log[i].Read? || x.log[i].ref != r {
        assert ProxyEvent(k, Live(x.log[|w.log|].obj.cr), x.log[|w.log|].obj, x.log[i]);
      }
    }
    assert Unwritten(w, x, r);
  }

  lemma ProxyPassHonest(o: Oracle, w: World, k: Key)
    requires Lawful(o) && Quiet(o) && InOrder(o, w) && AllHonest(o, w.c)
    ensures AllHonest(o, ProxyPass(o, w, k).0.c)
  {
    forall j: Key ensures Honest(o, ProxyPass(o, w, k).0.c, j) {
      ProxyPassFrame(o, w, k, RuleRef(j));
      ProxyPassFrame(o, w, k, CmRef(j));
      assert Honest(o, w.c, j);
    }
  }

  // ---- runs -------------------------------------------------------------

  lemma EditKeepsHonest(o: Oracle, c: Cluster, d: Cluster)
    requires AllHonest(o, c) && SumsKept(c, d)
    ensures AllHonest(o, d)
  {
    forall k: Key ensures Honest(o, d, k) { assert Honest(o, c, k); }
  }

  lemma MoveKeepsHonest(o: Oracle, w: World, x: World)
    requires Lawful(o) && Calm(o, 0) && InOrder(o, w) && AllHonest(o, w.c) && Moves(o, w, x)
    ensures InOrder(o, x) && AllHonest(o, x.c)
  {
    CalmLater(o, 0, w.calls);
    if turn :| x == Take(o, w, turn) {
      TakeAccounted(o, w, turn);
      match turn
      case ProxyTurn(k) => ProxyPassHonest(o, w, k);
      case RulesTurn(k) => RulesPassHonest(o, w, k);
    } else {
      EditKeepsHonest(o, w.c, x.c);
    }
  }

  /** Over every fault-free run, whatever the users do between passes, as long as they leave
      the recorded checksums and the data of those ConfigMaps: a recorded checksum is always
      that of the stored data. */
  lemma {:induction false} RunKeepsHonest(o: Oracle, run: seq<World>)
    requires Clock(o) && Calm(o, 0) && run != []
    requires InOrder(o, run[0]) && AllHonest(o, run[0].c)
    requires forall i | 0 <= i < |run| - 1 :: Moves(o, run[i], run[i + 1])
    ensures forall i | 0 <= i < |run| :: InOrder(o, run[i]) && AllHonest(o, run[i].c)
    decreases |run|
  {
    if |run| > 1 {
      var rest := run[1..];
      CalmIsLawful(o);
      assert Moves(o, run[0], run[1]);
      MoveKeepsHonest(o, run[0], run[1]);
      forall i | 0 <= i < |rest| - 1 ensures Moves(o, rest[i], rest[i + 1]) { assert Moves(o, run[i + 1], run[i + 2]); }
      RunKeepsHonest(o, rest);
      forall i | 0 <= i < |run| ensures InOrder(o, run[i]) && AllHonest(o, run[i].c) {
        if i > 0 { assert run[i] == rest[i - 1]; }
      }
    }
  }

  // ---- with a fault -----------------------------------------------------

  ghost predicate Undisturbed(o: Oracle, i: nat) {
    o.fate(i).Fine? && forall c: Cluster :: o.interfere(i, c) == c
  }

  /** From call `n` on all goes well but for the update of the ConfigMap, at `put`: it may be
      refused, or its reply lost, or somebody else may have been at anything but the rule. */
  ghost predicate AllButOne(o: Oracle, k: Key, n: nat, put: nat) {
    && (forall i: nat | i >= n && i != put :: Undisturbed(o, i))
    && forall c: Cluster :: CopyOf(o.interfere(put, c), RuleRef(k)) == CopyOf(c, RuleRef(k))
  }

  lemma CalmAfter(o: Oracle, k: Key, n: nat, put: nat)
    requires AllButOne(o, k, n, put) && n <= put
    ensures Calm(o, put + 1)
  {
    forall i: nat | i >= put + 1 ensures o.fate(i).Fine? { assert Undisturbed(o, i); }
    forall i: nat, c: Cluster | i >= put + 1 ensures o.interfere(i, c) == c { assert Undisturbed(o, i); }
  }

  /** The cluster in which the update of the ConfigMap arrives. */
  ghost function PutFinds(o: Oracle, w: World, k: Key): Cluster
    requires RuleRef(k) in w.c.objs
  {
    o.interfere(w.calls + 4,
      Put(w.c, RuleRef(k), Reporting(w.c.objs[RuleRef(k)], DEGRADED, False, "Updating", Updating).obj))
  }

  /** The update takes effect: it is not refused, and meets the version that was read. */
  ghost predicate Carried(o: Oracle, call: nat, d: Cluster, r: Ref, rv: nat) {
    !o.fate(call).Rejected? && r in d.objs && d.objs[r].rv == rv
  }

  ghost predicate Holds(o: Oracle, c: Cluster, k: Key, sum: string) {
    CmRef(k) in c.objs && o.hash(DataOf(k, c.objs[CmRef(k)].obj.configMap)) == sum
  }

  /** What the status says at the end. */
  ghost predicate Says(c: Cluster, k: Key, sum: string) {
    && RuleRef(k) in c.objs && c.objs[RuleRef(k)].obj.lastSum == sum
    && Condition(AVAILABLE, True, "Reconciled", Updated) in c.objs[RuleRef(k)].obj.cr.conditions
  }

  /** Whatever becomes of the update of the ConfigMap - carried out, refused, in conflict with
      somebody else's change, its reply lost, the ConfigMap gone - the pass records the new
      checksum and Available=True. That is the truth if and only if the update took effect, or
      what it found held the rendered spec already. */
  lemma HonestUnlessRefused(o: Oracle, w: World, k: Key)
    requires RuleRef(k) in w.c.objs && Live(w.c.objs[RuleRef(k)].obj.cr)
    requires CmRef(k) in w.c.objs && !UpToDate(o, w.c, k)
    requires AllButOne(o, k, w.calls, w.calls + 4) && o.hash(o.render(w.c.objs[RuleRef(k)].obj.rules)) != ""
    ensures var x, d := RulesPass(o, w, k).0.c, PutFinds(o, w, k);
            var sum := o.hash(o.render(w.c.objs[RuleRef(k)].obj.rules));
            && Says(x, k, sum)
            && (Honest(o, x, k) <==>
                  Carried(o, w.calls + 4, d, CmRef(k), w.c.objs[CmRef(k)].rv) || Holds(o, d, k, sum))
  {
    var sum := o.hash(o.render(w.c.objs[RuleRef(k)].obj.rules));
    var sent := WithData(w.c.objs[CmRef(k)], k, o.render(w.c.objs[RuleRef(k)].obj.rules));
    var x, v := UntilPut(o, w, k, sent, sum);
    CalmAfter(o, k, w.calls, w.calls + 4);
    AnyPut(o, x, k, v, sent, sum, PutFinds(o, w, k));
  }

  /** All that the pass does before the update of the ConfigMap. */
  lemma UntilPut(o: Oracle, w: World, k: Key, sent: Versioned, sum: string) returns (x: World, v: Versioned)
    requires RuleRef(k) in w.c.objs && Live(w.c.objs[RuleRef(k)].obj.cr)
    requires CmRef(k) in w.c.objs && !UpToDate(o, w.c, k)
    requires AllButOne(o, k, w.calls, w.calls + 4)
    requires sum == o.hash(o.render(w.c.objs[RuleRef(k)].obj.rules))
    requires sent == WithData(w.c.objs[CmRef(k)], k, o.render(w.c.objs[RuleRef(k)].obj.rules))
    ensures v.obj.RuleObject? && !v.obj.cr.deleting && x.calls == w.calls + 4
    ensures RuleRef(k) in x.c.objs && x.c.objs[RuleRef(k)] == v
    ensures o.interfere(x.calls, x.c) == PutFinds(o, w, k)
    ensures RulesPass(o, w, k) == AfterStatus(o, x, k, v, sent, sum)
  {
    var w3 := BeforePut(o, w, k);
    assert Undisturbed(o, w.calls + 3);
    x, v := BeforePutStatus(o, w3, k, sent, sum);
    ArrivesAt(o, w, k, x.calls, x.c);
  }

  lemma ArrivesAt(o: Oracle, w: World, k: Key, call: nat, c: Cluster)
    requires RuleRef(k) in w.c.objs && call == w.calls + 4
    requires c == Put(w.c, RuleRef(k), Reporting(w.c.objs[RuleRef(k)], DEGRADED, False, "Updating", Updating).obj)
    ensures o.interfere(call, c) == PutFinds(o, w, k)
  {
  }

  /** What the pass does before it starts to write. */
  lemma BeforePut(o: Oracle, w: World, k: Key) returns (w3: World)
    requires RuleRef(k) in w.c.objs && Live(w.c.objs[RuleRef(k)].obj.cr)
    requires CmRef(k) in w.c.objs && !UpToDate(o, w.c, k)
    requires AllButOne(o, k, w.calls, w.calls + 4)
    ensures w3.c == w.c && w3.calls == w.calls + 3
    ensures var v, found := w.c.objs[RuleRef(k)], w.c.objs[CmRef(k)];
            var data := o.render(v.obj.rules);
            RulesPass(o, w, k) == UpdateConfigMap(o, w3, k, v, WithData(found, k, data), o.hash(data))
  {
    assert Undisturbed(o, w.calls) && Undisturbed(o, w.calls + 1) && Undisturbed(o, w.calls + 2);
    w3 := Local(o, Get(o, Get(o, w, RuleRef(k)).0, CmRef(k)).0).0;
  }

  /** Whether the update of the ConfigMap succeeds or not decides how the pass ends. */
  ghost function AfterStatus(o: Oracle, w: World, k: Key, v: Versioned, sent: Versioned, sum: string): (World, Outcome)
    requires v.obj.RuleObject? && sent.obj.ConfigMapObject?
  {
    var (y, put) := Update(o, w, CmRef(k), Main, sent);
    if put.Ok? then Conclude(o, y, k, v, sum) else Excuse(o, y, k, put.error, sum)
  }

  /** The status write that comes first. */
  lemma BeforePutStatus(o: Oracle, w: World, k: Key, sent: Versioned, sum: string) returns (x: World, v: Versioned)
    requires RuleRef(k) in w.c.objs && !w.c.objs[RuleRef(k)].obj.cr.deleting && sent.obj.ConfigMapObject?
    requires Undisturbed(o, w.calls)
    ensures v.obj.RuleObject? && !v.obj.cr.deleting && x.calls == w.calls + 1
    ensures x.c == Put(w.c, RuleRef(k), Reporting(w.c.objs[RuleRef(k)], DEGRADED, False, "Updating", Updating).obj)
    ensures RuleRef(k) in x.c.objs && x.c.objs[RuleRef(k)] == v
    ensures UpdateConfigMap(o, w, k, w.c.objs[RuleRef(k)], sent, sum) == AfterStatus(o, x, k, v, sent, sum)
  {
    assert o.interfere(w.calls, w.c) == w.c;
    var (y, told) := Update(o, w, RuleRef(k), Status,
      Reporting(w.c.objs[RuleRef(k)], DEGRADED, False, "Updating", Updating));
    x, v := y, told.value;
  }

  /** The update of the ConfigMap, by what it finds. */
  lemma AnyUpdate(o: Oracle, w: World, k: Key, sent: Versioned)
    requires sent.obj.ConfigMapObject?
    ensures var (y, put) := Update(o, w, CmRef(k), Main, sent);
            var d := o.interfere(w.calls, w.c);
            && y.calls == w.calls + 1
            && (forall r | r != CmRef(k) :: CopyOf(y.c, r) == CopyOf(d, r))
            && (if Carried(o, w.calls, d, CmRef(k), sent.rv) then
                  CmRef(k) in y.c.objs && y.c.objs[CmRef(k)].obj == sent.obj
                else CopyOf(y.c, CmRef(k)) == CopyOf(d, CmRef(k)))
  {
  }

  lemma AnyPut(o: Oracle, w: World, k: Key, v: Versioned, sent: Versioned, sum: string, d: Cluster)
    requires d == o.interfere(w.calls, w.c) && CopyOf(d, RuleRef(k)) == CopyOf(w.c, RuleRef(k)) && Calm(o, w.calls + 1)
    requires v.obj.RuleObject? && !v.obj.cr.deleting && RuleRef(k) in w.c.objs && w.c.objs[RuleRef(k)] == v
    requires sent.obj.ConfigMapObject? && o.hash(DataOf(k, sent.obj.configMap)) == sum != ""
    ensures var z := AfterStatus(o, w, k, v, sent, sum).0.c;
            Says(z, k, sum) && (Honest(o, z, k) <==> Carried(o, w.calls, d, CmRef(k), sent.rv) || Holds(o, d, k, sum))
  {
    AnyUpdate(o, w, k, sent);
    var (y, put) := Update(o, w, CmRef(k), Main, sent);
    assert CopyOf(y.c, RuleRef(k)) == Some(v);
    var z := AfterStatus(o, w, k, v, sent, sum).0.c;
    if put.Ok? { ConcludeSays(o, y, k, v, sum); } else { ExcuseSays(o, y, k, put.error, sum); }
    assert CopyOf(z, CmRef(k)) == CopyOf(y.c, CmRef(k));
    SaysHonest(o, z, k, sum);
  }

  lemma SaysHonest(o: Oracle, z: Cluster, k: Key, sum: string)
    requires Says(z, k, sum) && sum != ""
    ensures Honest(o, z, k) <==> Holds(o, z, k, sum)
  {
  }

  lemma SummedSays(z: Cluster, k: Key, v: Versioned, sum: string)
    requires v.obj.RuleObject? && RuleRef(k) in z.objs && z.objs[RuleRef(k)].obj == Summed(v, sum, Updated).obj
    ensures Says(z, k, sum)
  {
    SetConditionHas(v.obj.cr.conditions, Condition(AVAILABLE, True, "Reconciled", Updated));
  }

  lemma ConcludeSays(o: Oracle, w: World, k: Key, v: Versioned, sum: string)
    requires Calm(o, w.calls) && RuleRef(k) in w.c.objs && w.c.objs[RuleRef(k)] == v && !v.obj.cr.deleting
    ensures var z := Conclude(o, w, k, v, sum).0.c; Says(z, k, sum) && CopyOf(z, CmRef(k)) == CopyOf(w.c, CmRef(k))
  {
    var _ := CalmConclude(o, w, k, v, sum);
    SummedSays(Conclude(o, w, k, v, sum).0.c, k, v, sum);
  }

  lemma ExcuseSays(o: Oracle, w: World, k: Key, why: ApiError, sum: string)
    requires Calm(o, w.calls) && RuleRef(k) in w.c.objs && !w.c.objs[RuleRef(k)].obj.cr.deleting
    ensures var z := Excuse(o, w, k, why, sum).0.c; Says(z, k, sum) && CopyOf(z, CmRef(k)) == CopyOf(w.c, CmRef(k))
  {
    CalmGet(o, w, RuleRef(k));
    var (x, again) := Get(o, w, RuleRef(k));
    var report := Reporting(again.value, AVAILABLE, False, "Updating", CannotUpdate(ConfigMapKind, why));
    CalmStatus(o, x, k, again.value, report);
    var (y, reported) := Update(o, x, RuleRef(k), Status, report);
    ConcludeSays(o, y, k, reported.value, sum);
    assert CopyOf(y.c, CmRef(k)) == CopyOf(x.c, CmRef(k));
  }

  // ---- repair -----------------------------------------------------------

  ghost predicate LiveAndUpToDate(o: Oracle, c: Cluster, k: Key) {
    RuleRef(k) in c.objs && Live(c.objs[RuleRef(k)].obj.cr) && UpToDate(o, c, k)
  }

  /** A live rule whose ConfigMap is up to date is left as it is by any number of passes. */
  lemma {:induction false} UpToDateRests(o: Oracle, w: World, k: Key, passes: nat)
    requires Calm(o, w.calls) && LiveAndUpToDate(o, w.c, k)
    ensures RulesRepeated(o, w, k, passes).c == w.c
    decreases passes
  {
    if passes > 0 {
      CalmRulesPass(o, w, k);
      UpToDateRests(o, RulesPass(o, w, k).0, k, passes - 1);
    }
  }

  lemma RefreshedIsHonest(o: Oracle, c: Cluster, k: Key, x: Cluster)
    requires RuleRef(k) in c.objs && Live(c.objs[RuleRef(k)].obj.cr) && Refreshes(o, c, k, x)
    ensures LiveAndUpToDate(o, x, k) && Honest(o, x, k)
  {
  }

  lemma OutOfDatePass(o: Oracle, w: World, k: Key)
    requires Calm(o, w.calls) && RuleRef(k) in w.c.objs && Live(w.c.objs[RuleRef(k)].obj.cr) && !UpToDate(o, w.c, k)
    ensures var x := RulesPass(o, w, k).0; Calm(o, x.calls) && LiveAndUpToDate(o, x.c, k) && Honest(o, x.c, k)
  {
    CalmRulesPass(o, w, k);
    RefreshedIsHonest(o, w.c, k, RulesPass(o, w, k).0.c);
  }

  /** A checksum that is not that of the stored data, as a lost status write may leave one, is
      put right by the next fault-free pass if and only if the ConfigMap itself is out of date;
      and after that pass nothing changes any more (`UpToDateRests`). */
  lemma HealsIffOutOfDate(o: Oracle, w: World, k: Key)
    requires Calm(o, w.calls) && RuleRef(k) in w.c.objs && Live(w.c.objs[RuleRef(k)].obj.cr)
    requires !Honest(o, w.c, k)
    ensures var x := RulesPass(o, w, k).0;
            && Calm(o, x.calls) && LiveAndUpToDate(o, x.c, k)
            && (Honest(o, x.c, k) <==> !UpToDate(o, w.c, k))
  {
    if UpToDate(o, w.c, k) { CalmRulesPass(o, w, k); } else { OutOfDatePass(o, w, k); }
  }
}
