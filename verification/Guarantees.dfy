/** What a controller may rely on between two of its calls, what it guarantees with each
    of them, and the facts about single API calls from which passes are put together. */
module Guarantees {
  import opened Text
  import opened Objects
  import opened Api
  import opened Workloads
  import opened ProxyPasses
  import opened RulesPasses

  // ---- invariants of the cluster ----------------------------------------

  function VolumeNames(d: Deployment): (r: seq<string>) {
    seq(|d.template.volumes|, i requires 0 <= i < |d.template.volumes| => d.template.volumes[i].name)
  }

  /** Volumes and mounts go in pairs, each for the ConfigMap of its name; and the annotation,
      where there is one, names the mounted ConfigMaps as often as they are mounted. */
  ghost predicate WellMounted(d: Deployment) {
    && |d.template.volumes| == |d.template.mounts|
    && (forall i | 0 <= i < |d.template.volumes| ::
          var n := d.template.volumes[i].name;
          d.template.volumes[i] == Volume(n, n) && d.template.mounts[i] == Mount(n, "/conf/" + n))
    && (CONF in d.annotations ==> multiset(Named(d.annotations[CONF])) == multiset(VolumeNames(d)))
  }

  /** Written by the operator, as the environment of its pods shows, which nothing changes. */
  predicate ByOperator(d: Deployment) { RULES_FOLDER in d.template.env }

  /** Nothing is asked of the Deployments of others. */
  ghost predicate Fit(d: Deployment) { ByOperator(d) ==> WellMounted(d) }

  ghost predicate StampedBefore(d: Deployment, time: nat) {
    forall a | a in d.template.marks && d.template.marks[a].Time? :: d.template.marks[a].at < time
  }

  ghost predicate Sound(obj: Object, next: nat) {
    && (obj.IsResource() ==> TidyConditions(obj.cr.conditions))
    && (obj.DeploymentObject? ==> Fit(obj.deployment) && obj.deployment.rolledAt < next)
  }

  /** Versions below `next`, tidy conditions, and, on the Deployments of the operator, mounts
      that agree with the annotation. */
  ghost predicate Good(c: Cluster) {
    forall r | r in c.objs :: c.objs[r].rv < c.next && Sound(c.objs[r].obj, c.next)
  }

  ghost predicate StampsBefore(c: Cluster, time: nat) {
    forall r | r in c.objs && c.objs[r].obj.DeploymentObject? :: StampedBefore(c.objs[r].obj.deployment, time)
  }

  /** Every change shows as a new version. */
  ghost predicate Evolves(c: Cluster, d: Cluster) {
    && c.next <= d.next
    && forall r | r in d.objs :: (r in c.objs && d.objs[r] == c.objs[r]) || d.objs[r].rv >= c.next
  }

  /** Before call `n` the others act like the controllers do: their changes get new
      versions and keep the invariants. What they change is open. */
  ghost predicate Behaves(o: Oracle, n: nat, c: Cluster) {
    Good(c) && StampsBefore(c, o.now(n)) ==>
      var d := o.interfere(n, c);
      Good(d) && StampsBefore(d, o.now(n + 1)) && Evolves(c, d)
  }

  /** Time passes from call to call. */
  ghost predicate Clock(o: Oracle) {
    forall m: nat, n: nat | m < n :: o.now(m) < o.now(n)
  }

  /** Time passes, and the others behave. */
  ghost predicate Lawful(o: Oracle) {
    && Clock(o)
    && (forall n: nat, c: Cluster :: Behaves(o, n, c))
  }

  ghost predicate InOrder(o: Oracle, w: World) {
    Good(w.c) && StampsBefore(w.c, o.now(w.calls))
  }

  function CopyOf(c: Cluster, r: Ref): Option<Versioned> {
    if r in c.objs then Some(c.objs[r]) else None
  }

  /** Nobody else writes this object. */
  ghost predicate Untouched(o: Oracle, r: Ref) {
    forall n: nat, c: Cluster :: CopyOf(o.interfere(n, c), r) == CopyOf(c, r)
  }

  ghost predicate Unwritten(w: World, x: World, r: Ref) {
    forall i | |w.log| <= i < |x.log| :: x.log[i].Read? || x.log[i].ref != r
  }

  /** The record is complete: an object that nobody else writes changes only by an entry. */
  ghost predicate Recorded(o: Oracle, w: World, x: World) {
    forall r | Untouched(o, r) && Unwritten(w, x, r) :: CopyOf(x.c, r) == CopyOf(w.c, r)
  }

  predicate Uninitialised(obj: Option<Object>) {
    obj.Some? && obj.value.IsResource() && obj.value.cr.conditions == []
  }

  /** What others do with an object as a whole: create it, remove it, or nothing at all. */
  datatype Others = Creating | Removing | Absent

  /** What others may do to a custom resource between two writes: edit its spec, its labels,
      its finalizers, mark it for deletion, and either create it or remove it, but not take
      the status away from one that has it. */
  predicate StatusKept(others: Others, a: Option<Object>, b: Option<Object>) {
    && (a.Some? && !Uninitialised(a) ==> !Uninitialised(b))
    && match others
       case Creating => a.Some? ==> b.Some?
       case Removing => a.None? ==> b.None?
       case Absent => a == b
  }

  ghost predicate StatusLeftAlone(o: Oracle, others: Others, r: Ref) {
    forall n: nat, c: Cluster :: StatusKept(others, Stored(c, r), Stored(o.interfere(n, c), r))
  }

  /** From `a` to `b` by the entries for one object, with the status kept in between. */
  ghost predicate Chain(others: Others, log: seq<Event>, r: Ref, a: Option<Object>, b: Option<Object>) {
    if log == [] then StatusKept(others, a, b)
    else if log[0].Wrote? && log[0].ref == r then
      StatusKept(others, a, log[0].before) && Chain(others, log[1..], r, log[0].after, b)
    else Chain(others, log[1..], r, a, b)
  }

  lemma {:induction false} ChainFrom(others: Others, log: seq<Event>, r: Ref, a: Option<Object>, b: Option<Object>,
                                     c: Option<Object>)
    requires StatusKept(others, a, b) && Chain(others, log, r, b, c)
    ensures Chain(others, log, r, a, c)
  {
    if log != [] && !(log[0].Wrote? && log[0].ref == r) { ChainFrom(others, log[1..], r, a, b, c); }
  }

  lemma {:induction false} ChainConcat(others: Others, log: seq<Event>, more: seq<Event>, r: Ref, a: Option<Object>,
                                       b: Option<Object>, c: Option<Object>)
    requires Chain(others, log, r, a, b) && Chain(others, more, r, b, c)
    ensures Chain(others, log + more, r, a, c)
  {
    if log == [] {
      assert log + more == more;
      ChainFrom(others, more, r, a, b, c);
    } else {
      assert (log + more)[1..] == log[1..] + more;
      ChainConcat(others, log[1..], more, r, if log[0].Wrote? && log[0].ref == r then log[0].after else a, b, c);
    }
  }

  /** The record replays what the controllers did to an object whose status others leave alone. */
  ghost predicate Replays(o: Oracle, w: World, x: World)
    requires w.log <= x.log
  {
    forall others, r | StatusLeftAlone(o, others, r) ::
      Chain(others, x.log[|w.log|..], r, Stored(w.c, r), Stored(x.c, r))
  }

  lemma ReplaysTransitive(o: Oracle, w: World, x: World, y: World)
    requires w.log <= x.log <= y.log && Replays(o, w, x) && Replays(o, x, y)
    ensures Replays(o, w, y)
  {
    var log, more := x.log[|w.log|..], y.log[|x.log|..];
    assert y.log[|w.log|..] == log + more;
    forall others, r | StatusLeftAlone(o, others, r)
      ensures Chain(others, log + more, r, Stored(w.c, r), Stored(y.c, r))
    {
      ChainConcat(others, log, more, r, Stored(w.c, r), Stored(x.c, r), Stored(y.c, r));
    }
  }

  /** What a controller sends: an object filed under its own kind, a tidy status, and a
      Deployment that is fit and bears no time later than that of the call. Nothing
      is said of how old the copy is that it was made from. */
  ghost predicate SoundPost(p: Post) {
    match p.call
    case ToCreate(r, obj) =>
      && obj.Kind() == r.kind && (obj.IsResource() ==> TidyConditions(obj.cr.conditions))
      && (obj.DeploymentObject? ==> Fit(obj.deployment) && StampedBefore(obj.deployment, p.due))
    case ToUpdate(r, part, sent) =>
      && sent.obj.Kind() == r.kind && (sent.obj.IsResource() && part.Status? ==> TidyConditions(sent.obj.cr.conditions))
      && (sent.obj.DeploymentObject? ==> Fit(sent.obj.deployment) && StampedBefore(sent.obj.deployment, p.due))
    case ToPatch(r, _) => r.kind.RuleKind?
  }

  ghost predicate PostsSound(w: World, x: World) {
    w.posts <= x.posts && forall i | |w.posts| <= i < |x.posts| :: SoundPost(x.posts[i])
  }

  /** Between two points of a run: the record grows and misses nothing, versions go up, the
      invariants hold, and all that was sent is sound. */
  ghost predicate Leads(o: Oracle, w: World, x: World) {
    && InOrder(o, x) && Evolves(w.c, x.c) && w.calls <= x.calls && w.log <= x.log
    && Recorded(o, w, x) && Replays(o, w, x) && PostsSound(w, x)
  }

  lemma LeadsTransitive(o: Oracle, w: World, x: World, y: World)
    requires Leads(o, w, x) && Leads(o, x, y)
    ensures Leads(o, w, y)
  {
    forall r | Untouched(o, r) && Unwritten(w, y, r) ensures CopyOf(y.c, r) == CopyOf(w.c, r) {
      assert Unwritten(w, x, r) by {
        forall i | |w.log| <= i < |x.log| ensures x.log[i].Read? || x.log[i].ref != r { assert y.log[i] == x.log[i]; }
      }
      assert Unwritten(x, y, r);
    }
    ReplaysTransitive(o, w, x, y);
  }

  // ---- copies -----------------------------------------------------------

  /** A copy read earlier: if the stored version is still the same, so is the object. */
  ghost predicate Held(c: Cluster, r: Ref, v: Versioned) {
    && v.obj.Kind() == r.kind && v.rv < c.next && Sound(v.obj, c.next)
    && (r in c.objs && c.objs[r].rv == v.rv ==> c.objs[r].obj == v.obj)
  }

  lemma HeldLater(o: Oracle, w: World, x: World, r: Ref, v: Versioned)
    requires Leads(o, w, x) && Held(w.c, r, v)
    ensures Held(x.c, r, v)
  {
  }

  // ---- single calls -----------------------------------------------------

  lemma ArriveLeads(o: Oracle, w: World)
    requires Lawful(o) && InOrder(o, w)
    ensures Leads(o, w, Arrive(o, w)) && Arrive(o, w).log == w.log
  {
    assert o.now(w.calls) < o.now(w.calls + 1);
    assert Behaves(o, w.calls, w.c);
  }

  lemma CommitLeads(o: Oracle, w: World, r: Ref, after: Option<Object>)
    requires Lawful(o) && InOrder(o, w)
    requires after.Some? ==> after.value.Kind() == r.kind && Sound(after.value, w.c.next + 1)
    requires after.Some? && after.value.DeploymentObject? ==> StampedBefore(after.value.deployment, o.now(w.calls))
    ensures Leads(o, w, Commit(w, r, after))
    ensures var x := Commit(w, r, after);
            x.log == w.log || x.log == w.log + [Wrote(r, Stored(w.c, r), after)]
  {
    var x := Commit(w, r, after);
    if Stored(w.c, r) != after {
      forall q | q in x.c.objs ensures x.c.objs[q].rv < x.c.next && Sound(x.c.objs[q].obj, x.c.next) {
        if q != r { assert x.c.objs[q] == w.c.objs[q]; }
      }
      forall q | q in x.c.objs && x.c.objs[q].obj.DeploymentObject?
        ensures StampedBefore(x.c.objs[q].obj.deployment, o.now(x.calls))
      {
        if q != r { assert x.c.objs[q] == w.c.objs[q]; }
      }
      assert x.log[|w.log|] == Wrote(r, Stored(w.c, r), after);
      forall q | Unwritten(w, x, q) ensures CopyOf(x.c, q) == CopyOf(w.c, q) { assert q != r; }
    }
  }

  lemma GetLeads(o: Oracle, w: World, r: Ref)
    requires Lawful(o) && InOrder(o, w)
    ensures var (x, got) := Get(o, w, r);
            && Leads(o, w, x)
            && (got.Err? ==> x.log == w.log)
            && (got.Ok? ==> x.log == w.log + [Read(r, got.value.obj)] && Held(x.c, r, got.value))
            && (got.Ok? && got.value.obj.DeploymentObject? ==>
                  StampedBefore(got.value.obj.deployment, o.now(x.calls)))
  {
    ArriveLeads(o, w);
  }

  lemma SendLeads(o: Oracle, w: World, call: Call, error: Option<ApiError>)
    requires Lawful(o) && InOrder(o, w) && SoundPost(Post(call, o.now(w.calls) + 1, error))
    ensures Leads(o, w, Send(o, w, call, error)) && Send(o, w, call, error).log == w.log
  {
    ArriveLeads(o, w);
  }

  /** What Update may do to the object it was read from. */
  ghost predicate Sendable(o: Oracle, w: World, old': Object, part: Part, sent: Object) {
    && sent.Kind() == old'.Kind()
    && (sent.DeploymentObject? ==> Fit(sent.deployment) && StampedBefore(sent.deployment, o.now(w.calls) + 1))
    && forall n: nat | n >= w.c.next :: Sound(Merged(old', sent, part, n), n + 1)
  }

  lemma CommitUpdate(o: Oracle, w: World, r: Ref, v: Versioned, merged: Object)
    requires Lawful(o) && InOrder(o, w) && r in w.c.objs && w.c.objs[r] == v
    requires merged.Kind() == r.kind && Sound(merged, w.c.next + 1)
    requires merged.DeploymentObject? ==> StampedBefore(merged.deployment, o.now(w.calls))
    ensures var x := Commit(w, r, Kept(merged));
            && Leads(o, w, x) && x.calls == w.calls
            && (x.log == w.log || x.log == w.log + [Wrote(r, Some(v.obj), Kept(merged))])
            && Held(x.c, r, Versioned(merged, if merged == v.obj then v.rv else w.c.next))
  {
    CommitLeads(o, w, r, Kept(merged));
    assert v.rv < w.c.next && Sound(v.obj, w.c.next);
  }

  /** A sent copy on its arrival: still held, and merged into something sound. */
  lemma SentArrives(o: Oracle, w: World, r: Ref, part: Part, v: Versioned, sent: Object, error: Option<ApiError>)
    requires Lawful(o) && InOrder(o, w) && Held(w.c, r, v) && Sendable(o, w, v.obj, part, sent)
    ensures var a := Send(o, w, ToUpdate(r, part, v.(obj := sent)), error);
            var merged := Merged(v.obj, sent, part, a.c.next);
            && Leads(o, w, a) && a.log == w.log && a.calls == w.calls + 1 && a.c.next >= w.c.next && Held(a.c, r, v)
            && Sound(merged, a.c.next + 1)
            && (merged.DeploymentObject? ==> StampedBefore(merged.deployment, o.now(a.calls)))
  {
    var call := ToUpdate(r, part, v.(obj := sent));
    assert Sound(Merged(v.obj, sent, part, w.c.next), w.c.next + 1);
    SendLeads(o, w, call, error);
    HeldLater(o, w, Send(o, w, call, error), r, v);
  }

  /** A sent copy that is carried out on its arrival in `a`. */
  lemma UpdateCarried(o: Oracle, w: World, a: World, r: Ref, part: Part, v: Versioned, sent: Object)
    requires Lawful(o) && Leads(o, w, a) && a.log == w.log && r in a.c.objs && a.c.objs[r].rv == v.rv
    requires Held(a.c, r, v) && sent.Kind() == r.kind && a.c.next >= w.c.next
    requires var merged := Merged(v.obj, sent, part, a.c.next);
             && Sound(merged, a.c.next + 1)
             && (merged.DeploymentObject? ==> StampedBefore(merged.deployment, o.now(a.calls)))
    ensures var merged := Merged(v.obj, sent, part, a.c.next);
            var x := Commit(a, r, Kept(merged));
            && Leads(o, w, x) && x.calls == a.calls
            && Held(x.c, r, Versioned(merged, if merged == v.obj then v.rv else a.c.next))
            && (x.log == w.log || exists n: nat ::
                  n >= w.c.next && x.log == w.log + [Wrote(r, Some(v.obj), Kept(Merged(v.obj, sent, part, n)))])
  {
    var merged := Merged(v.obj, sent, part, a.c.next);
    CommitUpdate(o, a, r, a.c.objs[r], merged);
    LeadsTransitive(o, w, a, Commit(a, r, Kept(merged)));
  }

  /** How an update comes out: refused in `a`, where it has arrived, or carried out there. */
  ghost predicate ComesOut(a: World, r: Ref, part: Part, v: Versioned, sent: Object, x: World,
                           told: Reply<Versioned>)
    requires sent.Kind() == r.kind
  {
    || (x == a && told.Err?)
    || (&& r in a.c.objs && a.c.objs[r].rv == v.rv
        && var stored := a.c.objs[r].obj;
           var merged := Merged(stored, sent, part, a.c.next);
           && x == Commit(a, r, Kept(merged))
           && (told.Ok? ==> told.value == Versioned(merged, if merged == stored then v.rv else a.c.next)))
  }

  lemma {:induction false} AnsweredLeads(o: Oracle, w: World, a: World, r: Ref, part: Part, v: Versioned, sent: Object,
                                         x: World, told: Reply<Versioned>)
    requires Lawful(o) && Leads(o, w, a) && a.log == w.log && Held(a.c, r, v) && a.c.next >= w.c.next
    requires sent.Kind() == v.obj.Kind() == r.kind && ComesOut(a, r, part, v, sent, x, told)
    requires var merged := Merged(v.obj, sent, part, a.c.next);
             && Sound(merged, a.c.next + 1)
             && (merged.DeploymentObject? ==> StampedBefore(merged.deployment, o.now(a.calls)))
    ensures Leads(o, w, x) && x.calls == a.calls
    ensures x.log == w.log || exists n: nat ::
              n >= w.c.next && x.log == w.log + [Wrote(r, Some(v.obj), Kept(Merged(v.obj, sent, part, n)))]
    ensures told.Ok? ==> Held(x.c, r, told.value)
                         && exists n: nat :: n >= w.c.next && told.value.obj == Merged(v.obj, sent, part, n)
  {
    if !(x == a && told.Err?) {
      var merged := Merged(v.obj, sent, part, a.c.next);
      CommitUpdate(o, a, r, a.c.objs[r], merged);
      LeadsTransitive(o, w, a, x);
    }
  }

  /** An update with a held copy, whatever its fate and whatever happened meanwhile, either
      changes nothing, or turns exactly the object that was read into the merged one. */
  lemma UpdateLeads(o: Oracle, w: World, r: Ref, part: Part, v: Versioned, sent: Object)
    requires Lawful(o) && InOrder(o, w) && Held(w.c, r, v)
    requires Sendable(o, w, v.obj, part, sent)
    ensures var (x, told) := Update(o, w, r, part, v.(obj := sent));
            && Leads(o, w, x) && x.calls == w.calls + 1
            && (x.log == w.log || exists n: nat ::
                  n >= w.c.next && x.log == w.log + [Wrote(r, Some(v.obj), Kept(Merged(v.obj, sent, part, n)))])
            && (told.Ok? ==> Held(x.c, r, told.value)
                             && exists n: nat :: n >= w.c.next && told.value.obj == Merged(v.obj, sent, part, n))
  {
    var (x, told) := Update(o, w, r, part, v.(obj := sent));
    var error := if told.Ok? then None else Some(told.error);
    var a := Send(o, w, ToUpdate(r, part, v.(obj := sent)), error);
    SentArrives(o, w, r, part, v, sent, error);
    AnsweredLeads(o, w, a, r, part, v, sent, x, told);
  }

  lemma CreateLeads(o: Oracle, w: World, r: Ref, obj: Object)
    requires Lawful(o) && InOrder(o, w) && obj.Kind() == r.kind
    requires obj.DeploymentObject? ==>
               Fit(obj.deployment) && StampedBefore(obj.deployment, o.now(w.calls) + 1)
    requires obj.IsResource() ==> TidyConditions(obj.cr.conditions)
    ensures var (x, told) := Create(o, w, r, obj);
            && Leads(o, w, x)
            && (x.log == w.log || exists n: nat ::
                  x.log == w.log + [Wrote(r, None, Some(Made(obj, n)))])
  {
    var told := Create(o, w, r, obj).1;
    var error := if told.Ok? then None else Some(told.error);
    var a := Send(o, w, ToCreate(r, obj), error);
    SendLeads(o, w, ToCreate(r, obj), error);
    if !o.fate(w.calls).Rejected? && r !in a.c.objs {
      var made := Made(obj, a.c.next);
      if obj.DeploymentObject? { assert VolumeNames(made.deployment) == VolumeNames(obj.deployment); }
      CommitLeads(o, a, r, Some(made));
      LeadsTransitive(o, w, a, Commit(a, r, Some(made)));
    }
  }

  lemma {:induction false} CollectLeads(o: Oracle, w: World, ns: string, rulesets: seq<Labels>, acc: seq<Name>)
    requires Lawful(o) && InOrder(o, w)
    ensures var x := Collect(o, w, ns, rulesets, acc).0; Leads(o, w, x) && x.log == w.log
    decreases |rulesets|
  {
    if rulesets != [] {
      var (x, got) := ListConfigMaps(o, w, ns, rulesets[0]);
      ArriveLeads(o, w);
      if got.Ok? {
        CollectLeads(o, x, ns, rulesets[1..], acc + got.value);
        LeadsTransitive(o, w, x, Collect(o, x, ns, rulesets[1..], acc + got.value).0);
      }
    }
  }

  // ---- what a write may change ------------------------------------------

  ghost predicate Live(cr: Resource) {
    cr.conditions != [] && FINALIZER in cr.finalizers && !cr.deleting
  }

  /** A controller never creates a custom resource, never touches its spec or labels, and
      changes either the conditions, leaving them tidy and not empty, or the finalizers. */
  ghost predicate ResourceEdit(before: Option<Object>, after: Option<Object>) {
    && before.Some? && before.value.IsResource()
    && (after == None ==> before.value.cr.deleting)
    && (after.Some? ==>
          && after.value.Kind() == before.value.Kind()
          && (after.value.ProxyObject? ==> after.value.spec == before.value.spec)
          && (after.value.RuleObject? ==> after.value.rules == before.value.rules)
          && after.value.cr.labels == before.value.cr.labels
          && after.value.cr.deleting == before.value.cr.deleting
          && (after.value.cr.conditions == before.value.cr.conditions
              || after.value.cr.finalizers == before.value.cr.finalizers)
          && TidyConditions(after.value.cr.conditions)
          && (after.value.cr.conditions == [] ==> before.value.cr.conditions == []))
  }

  /** The three ways in which the proxy controller changes a Deployment it has read:
      its size, its mounts with the annotation if it has one, or its ports. */
  ghost predicate ProxyEdit(b: Deployment, d: Deployment) {
    || d == b.(replicas := d.replicas)
    || (CONF in b.annotations && d.annotations.Keys <= {CONF}
       && d == b.(annotations := d.annotations, rolledAt := d.rolledAt,
               template := b.template.(volumes := d.template.volumes, mounts := d.template.mounts)))
    || d == b.(rolledAt := d.rolledAt, template := b.template.(ports := d.template.ports))
  }

  /** The pod template bears the time of a rollout, and no other annotation. */
  function Stamped(b: Deployment, t: nat): Deployment {
    b.(template := b.template.(marks := map[RELOADED_AT := Time(t)]))
  }

  /** The one way in which the rules controller changes a Deployment: the time of a
      rollout, later than every time that was there, on one that names the ConfigMap. */
  ghost predicate RolloutEdit(b: Deployment, d: Deployment, name: Name) {
    && Managed(b) && name in PartsOf(b)
    && exists t: nat :: StampedBefore(b, t) && d == Stamped(b, t).(rolledAt := d.rolledAt)
  }

  /** The write takes our finalizer away. */
  ghost predicate DropsOwn(before: Object, after: Option<Object>) {
    && before.IsResource() && FINALIZER in before.cr.finalizers
    && (after == None || (after.value.IsResource() && FINALIZER !in after.value.cr.finalizers))
  }

  const CLEANED := Condition(DEGRADED, True, "Finalizing", Finalized)

  /** A proxy loses our finalizer only after its status says that the cleanup is done. */
  ghost predicate ResourceEvent(r: Ref, e: Event) {
    || e.Read?
    || (e.ref == r && ResourceEdit(e.before, e.after)
        && (r.kind.ProxyKind? && DropsOwn(e.before.value, e.after) ==> CLEANED in e.before.value.cr.conditions))
  }

  const NAME_LABEL := "app.kubernetes.io/name"
  const VERSION_LABEL := "app.kubernetes.io/version"

  /** The proxy's own value of a label, if it has one, and else this. */
  predicate Labelled(labels: Labels, own: Labels, name: string, value: string) {
    name in labels && labels[name] == if name in own then own[name] else value
  }

  /** The labels of what is built for a proxy: its own, and three of the operator's, which its
      own override. */
  predicate LabelledFor(k: Key, cr: Resource, spec: ProxySpec, labels: Labels) {
    && labels.Keys == cr.labels.Keys + {NAME_LABEL, VERSION_LABEL, MANAGED_BY}
    && (forall l | l in cr.labels :: labels[l] == cr.labels[l])
    && Labelled(labels, cr.labels, NAME_LABEL, k.name)
    && Labelled(labels, cr.labels, VERSION_LABEL, VersionLabel(spec))
    && Labelled(labels, cr.labels, MANAGED_BY, PROXY_CONTROLLER)
  }

  /** The Deployment that is created for a proxy, all but its mounts. */
  predicate BuiltFor(k: Key, cr: Resource, spec: ProxySpec, d: Deployment) {
    && LabelledFor(k, cr, spec, d.labels) && d.selector == d.labels && d.template.labels == d.labels
    && d.replicas == spec.size && d.template.marks == map[]
    && d.template.image == spec.imageName + ":" + spec.imageTag
    && d.template.ports == ContainerPorts(spec.ports)
    && d.template.env ==
         [("VILLIP_FOLDER", "/conf"), ("VILLIP_FOLDER_RECURSE", "1"), ("VILLIP_URL", TargetOf(spec.target))]
         + if spec.debug then [("VILLIP_DEBUG", "1")] else []
  }

  lemma DeploymentAsAsked(k: Key, cr: Resource, spec: ProxySpec, names: seq<Name>)
    ensures BuiltFor(k, cr, spec, DeploymentFor(k, cr, spec, names))
  {
    assert LabelledFor(k, cr, spec, LabelsOf(k, cr, spec));
  }

  /** And the Service. */
  predicate ServesFor(k: Key, cr: Resource, spec: ProxySpec, s: Service) {
    s.labels == cr.labels && s.ports == ServicePorts(spec.ports) && s.selector == map["villip" := k.name]
  }

  ghost predicate ProxyEvent(k: Key, work: bool, read: Object, e: Event) {
    || ResourceEvent(ProxyRef(k), e)
    || (work && e.ref == SvcRef(k) && e.after.Some? && e.after.value.ServiceObject?
        && (e.before.None? ==> read.ProxyObject? && ServesFor(k, read.cr, read.spec, e.after.value.service))
        && (e.before.Some? ==>
              e.before.value.ServiceObject?
              && e.after.value.service == e.before.value.service.(ports := e.after.value.service.ports)))
    || (work && e.ref == DepRef(k) && e.after.Some? && e.after.value.DeploymentObject?
        && Fit(e.after.value.deployment)
        && (e.before.None? ==>
              && read.ProxyObject? && BuiltFor(k, read.cr, read.spec, e.after.value.deployment)
              && e.after.value.deployment.annotations.Keys == {CONF})
        && (e.before.Some? ==>
              e.before.value.DeploymentObject?
              && ProxyEdit(e.before.value.deployment, e.after.value.deployment)))
  }

  ghost predicate RulesEvent(k: Key, work: bool, read: Object, e: Event) {
    || ResourceEvent(RuleRef(k), e)
    || (work && e.ref == CmRef(k) && e.after.Some? && e.after.value.ConfigMapObject?
        && e.after.value.configMap.data.Keys == {k.name + ".yml"}
        && (e.before.None? ==> read.RuleObject? && e.after.value.configMap.labels == read.cr.labels)
        && (e.before.Some? ==>
              e.before.value.ConfigMapObject?
              && e.after.value.configMap.labels == e.before.value.configMap.labels))
    || (work && e.ref.kind == DeploymentKind && e.ref.key.ns == k.ns
        && e.before.Some? && e.before.value.DeploymentObject? && e.after.Some? && e.after.value.DeploymentObject?
        && RolloutEdit(e.before.value.deployment, e.after.value.deployment, k.name))
  }

  ghost predicate ResourceOnly(r: Ref, w: World, x: World) {
    w.log <= x.log && forall i | |w.log| <= i < |x.log| :: ResourceEvent(r, x.log[i])
  }

  ghost predicate ProxyActs(k: Key, work: bool, read: Object, w: World, x: World) {
    w.log <= x.log && forall i | |w.log| <= i < |x.log| :: ProxyEvent(k, work, read, x.log[i])
  }

  ghost predicate RulesActs(k: Key, work: bool, read: Object, w: World, x: World) {
    w.log <= x.log && forall i | |w.log| <= i < |x.log| :: RulesEvent(k, work, read, x.log[i])
  }

  // ---- the status writes both controllers make --------------------------

  /** An update of a held custom resource: the event it leaves, and the copy it gives back. */
  lemma ResourceUpdate(o: Oracle, w: World, r: Ref, part: Part, v: Versioned, sent: Object)
    requires Lawful(o) && InOrder(o, w) && Held(w.c, r, v) && v.obj.IsResource() && sent.Kind() == r.kind
    requires TidyConditions(Merged(v.obj, sent, part, 0).cr.conditions)
    requires ResourceEdit(Some(v.obj), Some(Merged(v.obj, sent, part, 0)))
    requires r.kind.RuleKind? || CLEANED in v.obj.cr.conditions || FINALIZER !in v.obj.cr.finalizers
             || FINALIZER in Merged(v.obj, sent, part, 0).cr.finalizers
    ensures var (x, told) := Update(o, w, r, part, v.(obj := sent));
            && Leads(o, w, x) && ResourceOnly(r, w, x)
            && (told.Ok? ==> Held(x.c, r, told.value) && told.value.obj == Merged(v.obj, sent, part, 0))
  {
    forall n: nat ensures Merged(v.obj, sent, part, n) == Merged(v.obj, sent, part, 0) {}
    UpdateLeads(o, w, r, part, v, sent);
  }

  lemma StatusUpdate(o: Oracle, w: World, r: Ref, v: Versioned, ctype: string, status: ConditionStatus, reason: string,
                     message: Message)
    requires Lawful(o) && InOrder(o, w) && Held(w.c, r, v) && v.obj.IsResource() && ctype in {AVAILABLE, DEGRADED}
    ensures var sent := Reporting(v, ctype, status, reason, message);
            var (x, told) := Update(o, w, r, Status, sent);
            && Leads(o, w, x) && ResourceOnly(r, w, x)
            && (told.Ok? ==> Held(x.c, r, told.value) && told.value.obj == sent.obj)
  {
    var sent := Reporting(v, ctype, status, reason, message);
    SetConditionKeepsTidy(v.obj.cr.conditions, Condition(ctype, status, reason, message));
    assert Merged(v.obj, sent.obj, Status, 0) == sent.obj;
    ResourceUpdate(o, w, r, Status, v, sent.obj);
    assert v.(obj := sent.obj) == sent;
  }

  lemma FinalizerUpdate(o: Oracle, w: World, r: Ref, v: Versioned, finalizers: seq<string>)
    requires Lawful(o) && InOrder(o, w) && Held(w.c, r, v) && v.obj.IsResource()
    requires r.kind.RuleKind? || CLEANED in v.obj.cr.conditions || FINALIZER in finalizers
    ensures var x := Update(o, w, r, Main, WithFinalizers(v, finalizers)).0;
            Leads(o, w, x) && ResourceOnly(r, w, x)
  {
    var sent := WithFinalizers(v, finalizers);
    assert Merged(v.obj, sent.obj, Main, 0) == sent.obj;
    ResourceUpdate(o, w, r, Main, v, sent.obj);
    assert v.(obj := sent.obj) == sent;
  }

  lemma InitStatusLeads(o: Oracle, w: World, r: Ref, v: Versioned)
    requires Lawful(o) && InOrder(o, w) && Held(w.c, r, v) && v.obj.IsResource()
    ensures var x := InitStatus(o, w, r, v).0; Leads(o, w, x) && ResourceOnly(r, w, x)
  {
    StatusUpdate(o, w, r, v, AVAILABLE, Unknown, "Reconciling", Starting);
  }

  lemma ClaimFinalizerLeads(o: Oracle, w: World, r: Ref, v: Versioned)
    requires Lawful(o) && InOrder(o, w) && Held(w.c, r, v) && v.obj.IsResource() && FINALIZER !in v.obj.cr.finalizers
    ensures var x := ClaimFinalizer(o, w, r, v).0; Leads(o, w, x) && ResourceOnly(r, w, x)
  {
    FinalizerUpdate(o, w, r, v, AddFinalizer(v.obj.cr.finalizers));
  }
}
