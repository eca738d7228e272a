/** The API server as the controllers see it: a store of versioned objects, where
    Update is guarded by the resourceVersion, Create by absence, and Patch by nothing.
    What the controllers cannot foresee is one `Oracle`: which calls fail, in which order
    List answers, what the clock says, and what everybody else does between two calls. */
module Api {
  import opened Text
  import opened Objects

  /** No object is filed under another kind than its own. */
  type Store = m: map<Ref, Versioned> | forall r | r in m :: m[r].obj.Kind() == r.kind

  /** `next` is the resourceVersion the next change will get. */
  datatype Cluster = Cluster(objs: Store, next: nat)

  datatype Event =
    | Read(ref: Ref, obj: Object)
    | Wrote(ref: Ref, before: Option<Object>, after: Option<Object>)

  datatype Part = Main | Status

  /** A write as it is sent. */
  datatype Call =
    | ToCreate(ref: Ref, obj: Object)
    | ToUpdate(ref: Ref, part: Part, sent: Versioned)
    | ToPatch(ref: Ref, index: nat)

  /** A write, the moment after it was sent, and the error it was answered with, if any. */
  datatype Post = Post(call: Call, due: nat, error: Option<ApiError>)

  /** The cluster, the number of calls made so far, the record of what they did, and the
      writes that were sent, whatever became of them. */
  datatype World = World(c: Cluster, calls: nat, log: seq<Event>, posts: seq<Post>)

  datatype Reply<+T> = Ok(value: T) | Err(error: ApiError)

  /** A call succeeds, is refused, or is carried out while its reply is lost. */
  datatype Fate = Fine | Rejected | Lost

  /** List answers with each match once, in an order of its own. */
  type Listing = f: (nat, set<Name>) -> seq<Name> | InAnyOrder(f) ghost witness AnOrder()

  ghost predicate InAnyOrder(f: (nat, set<Name>) -> seq<Name>) {
    forall n, names :: multiset(f(n, names)) == multiset(names)
  }

  ghost function AnOrder(): (f: (nat, set<Name>) -> seq<Name>)
    ensures InAnyOrder(f)
  {
    (n, names) => Enumerated(names)
  }

  ghost function Enumerated(names: set<Name>): (s: seq<Name>)
    ensures multiset(s) == multiset(names)
  {
    if names == {} then []
    else
      var x :| x in names;
      assert multiset(names) == multiset(names - {x}) + multiset{x};
      [x] + Enumerated(names - {x})
  }

  datatype Oracle = Oracle(
    fate: nat -> Fate, order: Listing, now: nat -> nat, interfere: (nat, Cluster) -> Cluster,
    render: RuleSpec -> string, hash: string -> string)

  // ---- what the server does with one call -------------------------------

  predicate Matches(selector: Labels, labels: Labels) {
    forall k | k in selector :: k in labels && labels[k] == selector[k]
  }

  function Matching(c: Cluster, ns: string, selector: Labels): set<Name> {
    set r | r in c.objs && r.kind == ConfigMapKind && r.key.ns == ns
            && Matches(selector, c.objs[r].obj.configMap.labels) :: r.key.name
  }

  predicate Managed(d: Deployment) {
    MANAGED_BY in d.labels && d.labels[MANAGED_BY] == PROXY_CONTROLLER
  }

  function ManagedNames(c: Cluster, ns: string): (names: set<Name>)
    ensures forall n | n in names :: DepRef(Key(ns, n)) in c.objs
  {
    set r | r in c.objs && r.kind == DeploymentKind && r.key.ns == ns
            && Managed(c.objs[r].obj.deployment) :: r.key.name
  }

  /** A change of the pod template, and nothing else, replaces the pods. */
  function Placed(stored: Option<Deployment>, sent: Deployment, version: nat): Deployment {
    sent.(rolledAt := if stored.Some? && stored.value.template == sent.template
                      then stored.value.rolledAt else version)
  }

  function Made(obj: Object, version: nat): (r: Object)
    ensures r.Kind() == obj.Kind()
  {
    if obj.DeploymentObject? then DeploymentObject(Placed(None, obj.deployment, version)) else obj
  }

  /** The status subresource: Update leaves the status alone, Status().Update all the rest. */
  function Merged(stored: Object, sent: Object, part: Part, version: nat): (r: Object)
    requires stored.Kind() == sent.Kind()
    ensures r.Kind() == stored.Kind()
  {
    match stored
    case ProxyObject(cr, _) =>
      if part.Main? then sent.With(cr.(labels := sent.cr.labels, finalizers := sent.cr.finalizers))
      else stored.With(cr.(conditions := sent.cr.conditions))
    case RuleObject(cr, _, lastSum) =>
      if part.Main? then
        RuleObject(cr.(labels := sent.cr.labels, finalizers := sent.cr.finalizers), sent.rules, lastSum)
      else RuleObject(cr.(conditions := sent.cr.conditions), stored.rules, sent.lastSum)
    case DeploymentObject(d) => DeploymentObject(Placed(Some(d), sent.deployment, version))
    case _ => sent
  }

  /** No finalizer may be added to an object that is being deleted. */
  predicate Forbids(stored: Object, merged: Object) {
    && stored.IsResource() && merged.IsResource() && stored.cr.deleting
    && exists f | f in merged.cr.finalizers :: f !in stored.cr.finalizers
  }

  /** An object being deleted disappears with its last finalizer. */
  function Kept(obj: Object): (r: Option<Object>)
    ensures r == None || r == Some(obj)
  {
    if obj.IsResource() && obj.cr.deleting && obj.cr.finalizers == [] then None else Some(obj)
  }

  function Stored(c: Cluster, r: Ref): Option<Object> {
    if r in c.objs then Some(c.objs[r].obj) else None
  }

  /** A write that changes nothing gets no new version. */
  ghost function Commit(w: World, r: Ref, after: Option<Object>): World
    requires after.Some? ==> after.value.Kind() == r.kind
  {
    var before := Stored(w.c, r);
    if before == after then w
    else
      var objs := if after.Some? then w.c.objs[r := Versioned(after.value, w.c.next)] else w.c.objs - {r};
      World(Cluster(objs, w.c.next + 1), w.calls, w.log + [Wrote(r, before, after)], w.posts)
  }

  /** Others act, then the call reaches the server. */
  ghost function Arrive(o: Oracle, w: World): World {
    World(o.interfere(w.calls, w.c), w.calls + 1, w.log, w.posts)
  }

  /** A write arrives, and will be answered so. */
  ghost function Send(o: Oracle, w: World, call: Call, error: Option<ApiError>): World {
    var a := Arrive(o, w);
    a.(posts := a.posts + [Post(call, o.now(w.calls) + 1, error)])
  }

  /** A write that is carried out is answered well, unless the reply is lost. */
  function Lack(fate: Fate): Option<ApiError> { if fate.Fine? then None else Some(Unavailable) }

  /** A step that stays in the controller and can fail. */
  ghost function Local(o: Oracle, w: World): (World, bool) {
    (Arrive(o, w), o.fate(w.calls).Fine?)
  }

  ghost function Get(o: Oracle, w: World, r: Ref): (res: (World, Reply<Versioned>))
    ensures res.1.Ok? ==> res.1.value.obj.Kind() == r.kind
  {
    var a := Arrive(o, w);
    if !o.fate(w.calls).Fine? then (a, Err(Unavailable))
    else if r !in a.c.objs then (a, Err(NotFound))
    else (a.(log := a.log + [Read(r, a.c.objs[r].obj)]), Ok(a.c.objs[r]))
  }

  /** What the caller learns of a committed write. */
  function Told(fate: Fate, v: Versioned): Reply<Versioned> {
    if fate.Fine? then Ok(v) else Err(Unavailable)
  }

  ghost function Create(o: Oracle, w: World, r: Ref, obj: Object): (res: (World, Reply<Versioned>))
    requires obj.Kind() == r.kind
  {
    var c := o.interfere(w.calls, w.c);
    if o.fate(w.calls).Rejected? then (Send(o, w, ToCreate(r, obj), Some(Unavailable)), Err(Unavailable))
    else if r in c.objs then (Send(o, w, ToCreate(r, obj), Some(AlreadyExists)), Err(AlreadyExists))
    else
      var a := Send(o, w, ToCreate(r, obj), Lack(o.fate(w.calls)));
      var made := Made(obj, a.c.next);
      (Commit(a, r, Some(made)), Told(o.fate(w.calls), Versioned(made, a.c.next)))
  }

  ghost function Update(o: Oracle, w: World, r: Ref, part: Part, sent: Versioned): (res: (World, Reply<Versioned>))
    requires sent.obj.Kind() == r.kind
    ensures res.1.Ok? ==> res.1.value.obj.Kind() == r.kind
  {
    var c, call := o.interfere(w.calls, w.c), ToUpdate(r, part, sent);
    if o.fate(w.calls).Rejected? then (Send(o, w, call, Some(Unavailable)), Err(Unavailable))
    else if r !in c.objs then (Send(o, w, call, Some(NotFound)), Err(NotFound))
    else if c.objs[r].rv != sent.rv then (Send(o, w, call, Some(Conflict)), Err(Conflict))
    else
      var stored := c.objs[r].obj;
      var merged := Merged(stored, sent.obj, part, c.next);
      if Forbids(stored, merged) then (Send(o, w, call, Some(Forbidden)), Err(Forbidden))
      else
        var a := Send(o, w, call, Lack(o.fate(w.calls)));
        (Commit(a, r, Kept(merged)),
         Told(o.fate(w.calls), Versioned(merged, if merged == stored then sent.rv else a.c.next)))
  }

  function Without<T>(s: seq<T>, i: nat): seq<T>
    requires i < |s|
  {
    s[..i] + s[i + 1..]
  }

  /** JSON Patch "remove" of one entry of metadata.finalizers (section 4.2 of RFC 6902):
      an error when there is no such entry, and no check of the version. */
  ghost function PatchFinalizer(o: Oracle, w: World, r: Ref, i: nat): (World, Reply<()>)
    requires r.kind == RuleKind
  {
    var c := o.interfere(w.calls, w.c);
    if o.fate(w.calls).Rejected? then (Send(o, w, ToPatch(r, i), Some(Unavailable)), Err(Unavailable))
    else if r !in c.objs then (Send(o, w, ToPatch(r, i), Some(NotFound)), Err(NotFound))
    else
      var stored := c.objs[r].obj;
      if i >= |stored.cr.finalizers| then (Send(o, w, ToPatch(r, i), Some(Invalid)), Err(Invalid))
      else
        var a := Send(o, w, ToPatch(r, i), Lack(o.fate(w.calls)));
        var cut := stored.With(stored.cr.(finalizers := Without(stored.cr.finalizers, i)));
        (Commit(a, r, Kept(cut)), if o.fate(w.calls).Fine? then Ok(()) else Err(Unavailable))
  }

  ghost function ListConfigMaps(o: Oracle, w: World, ns: string, selector: Labels): (World, Reply<seq<Name>>) {
    var a := Arrive(o, w);
    (a, if o.fate(w.calls).Fine? then Ok(o.order(w.calls, Matching(a.c, ns, selector))) else Err(Unavailable))
  }

  datatype Item = Item(name: Name, v: Versioned)

  function Items(c: Cluster, ns: string, names: seq<Name>): (items: seq<Item>)
    requires forall n | n in names :: DepRef(Key(ns, n)) in c.objs
    ensures |items| == |names|
    ensures forall i | 0 <= i < |items| :: items[i] == Item(names[i], c.objs[DepRef(Key(ns, names[i]))])
  {
    seq(|names|, i requires 0 <= i < |names| => Item(names[i], c.objs[DepRef(Key(ns, names[i]))]))
  }

  lemma OrderKeeps(order: Listing, n: nat, names: set<Name>)
    ensures forall x | x in order(n, names) :: x in names
  {
    forall x | x in order(n, names) ensures x in names {
      assert x in multiset(order(n, names));
      assert x in multiset(names);
    }
  }

  ghost function ListDeployments(o: Oracle, w: World, ns: string): (res: (World, Reply<seq<Item>>))
    ensures res.1.Ok? ==> forall i | i in res.1.value :: i.v.obj.DeploymentObject?
  {
    var a := Arrive(o, w);
    var names := o.order(w.calls, ManagedNames(a.c, ns));
    OrderKeeps(o.order, w.calls, ManagedNames(a.c, ns));
    (a, if o.fate(w.calls).Fine? then Ok(Items(a.c, ns, names)) else Err(Unavailable))
  }

  // ---- the server itself ------------------------------------------------

  class ApiServer {
    const oracle: Oracle
    var objs: Store
    var next: nat
    var calls: nat
    ghost var log: seq<Event>
    ghost var posts: seq<Post>

    constructor (oracle: Oracle, c: Cluster)
      ensures this.oracle == oracle && View() == World(c, 0, [], [])
    {
      this.oracle := oracle;
      objs, next, calls, log, posts := c.objs, c.next, 0, [], [];
    }

    ghost function View(): World
      reads this
    {
      World(Cluster(objs, next), calls, log, posts)
    }

    method Arrives() returns (fate: Fate)
      modifies this
      ensures View() == Arrive(oracle, old(View())) && fate == oracle.fate(old(calls))
      ensures calls == old(calls) + 1
    {
      fate := oracle.fate(calls);
      var c := oracle.interfere(calls, Cluster(objs, next));
      objs, next, calls := c.objs, c.next, calls + 1;
    }

    /** What has arrived last was this write, and it is answered so. */
    ghost method Notes(call: Call, error: Option<ApiError>)
      requires calls > 0
      modifies this`posts
      ensures posts == old(posts) + [Post(call, oracle.now(calls - 1) + 1, error)]
    {
      posts := posts + [Post(call, oracle.now(calls - 1) + 1, error)];
    }

    method Commits(r: Ref, after: Option<Object>)
      requires after.Some? ==> after.value.Kind() == r.kind
      modifies this
      ensures View() == Commit(old(View()), r, after)
    {
      var before := Stored(Cluster(objs, next), r);
      if before != after {
        log := log + [Wrote(r, before, after)];
        if after.Some? {
          objs := objs[r := Versioned(after.value, next)];
        } else {
          objs := objs - {r};
        }
        next := next + 1;
      }
    }

    method Locally() returns (ok: bool)
      modifies this
      ensures (View(), ok) == Local(oracle, old(View()))
    {
      var fate := Arrives();
      ok := fate.Fine?;
    }

    method Gets(r: Ref) returns (res: Reply<Versioned>)
      modifies this
      ensures (View(), res) == Get(oracle, old(View()), r)
    {
      var fate := Arrives();
      if !fate.Fine? { return Err(Unavailable); }
      if r !in objs { return Err(NotFound); }
      log := log + [Read(r, objs[r].obj)];
      return Ok(objs[r]);
    }

    method Creates(r: Ref, obj: Object) returns (res: Reply<Versioned>)
      requires obj.Kind() == r.kind
      modifies this
      ensures (View(), res) == Create(oracle, old(View()), r, obj)
    {
      var fate := Arrives();
      if fate.Rejected? { Notes(ToCreate(r, obj), Some(Unavailable)); return Err(Unavailable); }
      if r in objs { Notes(ToCreate(r, obj), Some(AlreadyExists)); return Err(AlreadyExists); }
      Notes(ToCreate(r, obj), Lack(fate));
      var made := Made(obj, next);
      res := Told(fate, Versioned(made, next));
      Commits(r, Some(made));
    }

    method Updates(r: Ref, part: Part, sent: Versioned) returns (res: Reply<Versioned>)
      requires sent.obj.Kind() == r.kind
      modifies this
      ensures (View(), res) == Update(oracle, old(View()), r, part, sent)
    {
      var fate := Arrives();
      ghost var call := ToUpdate(r, part, sent);
      if fate.Rejected? { Notes(call, Some(Unavailable)); return Err(Unavailable); }
      if r !in objs { Notes(call, Some(NotFound)); return Err(NotFound); }
      if objs[r].rv != sent.rv { Notes(call, Some(Conflict)); return Err(Conflict); }
      var stored := objs[r].obj;
      var merged := Merged(stored, sent.obj, part, next);
      if Forbids(stored, merged) { Notes(call, Some(Forbidden)); return Err(Forbidden); }
      Notes(call, Lack(fate));
      res := Told(fate, Versioned(merged, if merged == stored then sent.rv else next));
      Commits(r, Kept(merged));
    }

    method PatchesFinalizer(r: Ref, i: nat) returns (res: Reply<()>)
      requires r.kind == RuleKind
      modifies this
      ensures (View(), res) == PatchFinalizer(oracle, old(View()), r, i)
    {
      var fate := Arrives();
      if fate.Rejected? { Notes(ToPatch(r, i), Some(Unavailable)); return Err(Unavailable); }
      if r !in objs { Notes(ToPatch(r, i), Some(NotFound)); return Err(NotFound); }
      var stored := objs[r].obj;
      if i >= |stored.cr.finalizers| { Notes(ToPatch(r, i), Some(Invalid)); return Err(Invalid); }
      Notes(ToPatch(r, i), Lack(fate));
      Commits(r, Kept(stored.With(stored.cr.(finalizers := Without(stored.cr.finalizers, i)))));
      return if fate.Fine? then Ok(()) else Err(Unavailable);
    }

    method ListsConfigMaps(ns: string, selector: Labels) returns (res: Reply<seq<Name>>)
      modifies this
      ensures (View(), res) == ListConfigMaps(oracle, old(View()), ns, selector)
    {
      var n := calls;
      var fate := Arrives();
      if !fate.Fine? { return Err(Unavailable); }
      return Ok(oracle.order(n, Matching(Cluster(objs, next), ns, selector)));
    }

    method ListsDeployments(ns: string) returns (res: Reply<seq<Item>>)
      modifies this
      ensures (View(), res) == ListDeployments(oracle, old(View()), ns)
    {
      var n := calls;
      var fate := Arrives();
      if !fate.Fine? { return Err(Unavailable); }
      var c := Cluster(objs, next);
      OrderKeeps(oracle.order, n, ManagedNames(c, ns));
      return Ok(Items(c, ns, oracle.order(n, ManagedNames(c, ns))));
    }
  }
}
