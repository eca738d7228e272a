/** What a pass sends, what it has read before, and how its answer follows from that: the parts
    that the passes of both controllers are put together from. */
module Answers {
  import opened Text
  import opened Objects
  import opened Api
  import opened Workloads
  import opened ProxyPasses

  // ---- single calls -----------------------------------------------------

  /** From `w` to `x` the record has grown, and these writes were sent. */
  ghost predicate Sends(w: World, x: World, s: seq<Post>) {
    w.log <= x.log && x.posts == w.posts + s
  }

  /** This object has been read since the record had `n` entries. */
  ghost predicate Seen(log: seq<Event>, n: nat, r: Ref, obj: Object) {
    exists i | n <= i < |log| :: log[i] == Read(r, obj)
  }

  lemma SeenLater(w: World, x: World, n: nat, r: Ref, obj: Object)
    requires w.log <= x.log && Seen(w.log, n, r, obj)
    ensures Seen(x.log, n, r, obj)
  {
    var i :| n <= i < |w.log| && w.log[i] == Read(r, obj);
    assert x.log[i] == Read(r, obj);
  }

  lemma SendsTransitive(w: World, x: World, y: World, s: seq<Post>, t: seq<Post>)
    requires Sends(w, x, s) && Sends(x, y, t)
    ensures Sends(w, y, s + t)
  {
  }

  lemma GetSees(o: Oracle, w: World, r: Ref, n: nat)
    requires n <= |w.log|
    ensures var (x, got) := Get(o, w, r);
            && Sends(w, x, []) && (got.Ok? ==> Seen(x.log, n, r, got.value.obj))
            && (got.Err? ==> got.error in {NotFound, Unavailable})
  {
    var (x, got) := Get(o, w, r);
    if got.Ok? { assert x.log[|w.log|] == Read(r, got.value.obj); }
  }

  ghost function ErrorOf<T>(told: Reply<T>): Option<ApiError> { if told.Ok? then None else Some(told.error) }

  ghost function Posted(o: Oracle, w: World, call: Call, told: Reply<Versioned>): Post {
    Post(call, o.now(w.calls) + 1, ErrorOf(told))
  }

  lemma UpdateSends(o: Oracle, w: World, r: Ref, part: Part, sent: Versioned)
    requires sent.obj.Kind() == r.kind
    ensures var (x, told) := Update(o, w, r, part, sent);
            Sends(w, x, [Posted(o, w, ToUpdate(r, part, sent), told)])
  {
  }

  lemma CreateSends(o: Oracle, w: World, r: Ref, obj: Object)
    requires obj.Kind() == r.kind
    ensures var (x, told) := Create(o, w, r, obj); Sends(w, x, [Posted(o, w, ToCreate(r, obj), told)])
  {
  }

  lemma {:induction false} CollectSends(o: Oracle, w: World, ns: string, rulesets: seq<Labels>, acc: seq<Name>)
    ensures Sends(w, Collect(o, w, ns, rulesets, acc).0, [])
    decreases |rulesets|
  {
    if rulesets != [] {
      var (x, got) := ListConfigMaps(o, w, ns, rulesets[0]);
      if got.Ok? { CollectSends(o, x, ns, rulesets[1..], acc + got.value); }
    }
  }

  // ---- status writes and the last write ---------------------------------

  predicate StatusOf(p: Post, r: Ref) {
    p.call.ToUpdate? && p.call.ref == r && p.call.part.Status? && p.call.sent.obj.IsResource()
  }

  /** A status write made from a copy that was read, with this condition in place of what the
      copy says of its type. */
  ghost predicate Puts(log: seq<Event>, n: nat, p: Post, r: Ref, c: Condition) {
    && StatusOf(p, r)
    && exists was :: Seen(log, n, r, was) && was.IsResource()
         && p.call.sent.obj.cr.conditions == SetCondition(was.cr.conditions, c)
  }

  lemma PutsLater(w: World, x: World, n: nat, p: Post, r: Ref, c: Condition)
    requires w.log <= x.log && Puts(w.log, n, p, r, c)
    ensures Puts(x.log, n, p, r, c)
  {
    var was :| Seen(w.log, n, r, was) && was.IsResource()
      && p.call.sent.obj.cr.conditions == SetCondition(was.cr.conditions, c);
    SeenLater(w, x, n, r, was);
  }

  /** The last write of a pass: its error is the answer, and else this. */
  function Ended(p: Post, well: Outcome): Outcome {
    if p.error.Some? then Failed(p.error.value) else well
  }

  function Uncreated(kind: Kind, why: ApiError): Condition {
    Condition(AVAILABLE, False, "Reconciling", CannotCreate(kind, why))
  }

  predicate Claims(p: Post, r: Ref) {
    && p.call.ToUpdate? && p.call.ref == r && p.call.part.Main? && p.call.sent.obj.IsResource()
    && FINALIZER in p.call.sent.obj.cr.finalizers
  }

  /** A read or a List was not answered, before anything was sent. */
  predicate Blind(s: seq<Post>, out: Outcome) { s == [] && out == Failed(Unavailable) }

  /** What a pass comes to whose first read is not answered, or finds no proxy. */
  predicate NothingRead(fate: Fate, c: Cluster, r: Ref, s: seq<Post>, out: Outcome) {
    && s == []
    && (!fate.Fine? ==> out == Failed(Unavailable))
    && (fate.Fine? ==> r !in c.objs && out == Done)
  }

  // ---- that they do -----------------------------------------------------

  /** A status write of a copy that was read. */
  lemma ReportSends(o: Oracle, w: World, r: Ref, v: Versioned, c: Condition, n: nat)
    returns (p: Post)
    requires n <= |w.log| && Seen(w.log, n, r, v.obj) && v.obj.IsResource() && v.obj.Kind() == r.kind
    ensures var (x, told) := Update(o, w, r, Status, Reporting(v, c.ctype, c.status, c.reason, c.message));
            Sends(w, x, [p]) && Puts(x.log, n, p, r, c) && p.error == ErrorOf(told)
  {
    var sent := Reporting(v, c.ctype, c.status, c.reason, c.message);
    var (x, told) := Update(o, w, r, Status, sent);
    p := Posted(o, w, ToUpdate(r, Status, sent), told);
    UpdateSends(o, w, r, Status, sent);
    SeenLater(w, x, n, r, v.obj);
  }

  lemma {:induction false} FinishSends(o: Oracle, w: World, r: Ref, part: Part, sent: Versioned, well: Outcome)
    returns (p: Post)
    requires sent.obj.Kind() == r.kind
    ensures p.call == ToUpdate(r, part, sent)
    ensures var (x, out) := Finish(o, w, r, part, sent, well); Sends(w, x, [p]) && out == Ended(p, well)
  {
    UpdateSends(o, w, r, part, sent);
    p := Posted(o, w, ToUpdate(r, part, sent), Update(o, w, r, part, sent).1);
  }
}
