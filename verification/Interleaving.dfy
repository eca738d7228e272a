/** Two runs interleaved call by call: between any two calls of one controller the other may
    make any of its own, however old the copies it makes them from. */
module Interleaving {
  import opened Text
  import opened Objects
  import opened Api
  import opened Guarantees
  import opened Runs

  // ---- one call ---------------------------------------------------------

  /** What one write does to the cluster when it gets there. */
  ghost function Effect(c: Cluster, call: Call): Cluster {
    match call
    case ToCreate(r, obj) =>
      if obj.Kind() != r.kind || r in c.objs then c else Committed(c, r, Some(Made(obj, c.next)))
    case ToUpdate(r, part, sent) =>
      if sent.obj.Kind() != r.kind || r !in c.objs || c.objs[r].rv != sent.rv then c
      else
        var merged := Merged(c.objs[r].obj, sent.obj, part, c.next);
        if Forbids(c.objs[r].obj, merged) then c else Committed(c, r, Kept(merged))
    case ToPatch(r, i) =>
      if !r.kind.RuleKind? || r !in c.objs || i >= |c.objs[r].obj.cr.finalizers| then c
      else Committed(c, r, Kept(CutAt(c.objs[r].obj, i)))
  }

  ghost function Committed(c: Cluster, r: Ref, after: Option<Object>): Cluster
    requires after.Some? ==> after.value.Kind() == r.kind
  {
    Commit(World(c, 0, [], []), r, after).c
  }

  function CutAt(obj: Object, i: nat): (r: Object)
    requires obj.RuleObject? && i < |obj.cr.finalizers|
    ensures r.RuleObject? && r.cr.conditions == obj.cr.conditions
  {
    obj.With(obj.cr.(finalizers := Without(obj.cr.finalizers, i)))
  }

  /** It is what the server does with each of the three, unless it refuses the call. */
  lemma EffectOfCreate(o: Oracle, w: World, r: Ref, obj: Object)
    requires obj.Kind() == r.kind
    ensures var c := o.interfere(w.calls, w.c);
            Create(o, w, r, obj).0.c == if o.fate(w.calls).Rejected? then c else Effect(c, ToCreate(r, obj))
  {
  }

  lemma EffectOfUpdate(o: Oracle, w: World, r: Ref, part: Part, sent: Versioned)
    requires sent.obj.Kind() == r.kind
    ensures var c := o.interfere(w.calls, w.c);
            Update(o, w, r, part, sent).0.c ==
              if o.fate(w.calls).Rejected? then c else Effect(c, ToUpdate(r, part, sent))
  {
  }

  lemma EffectOfPatch(o: Oracle, w: World, r: Ref, i: nat)
    requires r.kind == RuleKind
    ensures var c := o.interfere(w.calls, w.c);
            PatchFinalizer(o, w, r, i).0.c == if o.fate(w.calls).Rejected? then c else Effect(c, ToPatch(r, i))
  {
  }

  /** A cluster that is in order at time `t`, and one that may follow it. */
  ghost predicate Proceeds(c: Cluster, d: Cluster, t: nat) {
    Good(d) && StampsBefore(d, t) && Evolves(c, d)
  }

  lemma CommittedProceeds(c: Cluster, r: Ref, after: Option<Object>, t: nat)
    requires Good(c) && StampsBefore(c, t)
    requires after.Some? ==> after.value.Kind() == r.kind && Sound(after.value, c.next + 1)
    requires after.Some? && after.value.DeploymentObject? ==> StampedBefore(after.value.deployment, t)
    ensures Proceeds(c, Committed(c, r, after), t)
  {
    var d := Committed(c, r, after);
    forall q | q in d.objs
      ensures d.objs[q].rv < d.next && Sound(d.objs[q].obj, d.next)
      ensures d.objs[q].obj.DeploymentObject? ==> StampedBefore(d.objs[q].obj.deployment, t)
    {
      if q != r { assert q in c.objs && d.objs[q] == c.objs[q]; }
    }
  }

  lemma MergedIsSound(c: Cluster, p: Post, t: nat)
    requires Good(c) && StampsBefore(c, t) && SoundPost(p) && p.due <= t && p.call.ToUpdate?
    requires p.call.ref in c.objs
    ensures var stored := c.objs[p.call.ref].obj;
            var m := Merged(stored, p.call.sent.obj, p.call.part, c.next);
            Sound(m, c.next + 1) && (m.DeploymentObject? ==> StampedBefore(m.deployment, t))
  {
    var stored, sent := c.objs[p.call.ref].obj, p.call.sent.obj;
    assert Sound(stored, c.next);
    if sent.DeploymentObject? {
      var placed := Placed(Some(stored.deployment), sent.deployment, c.next);
      assert VolumeNames(placed) == VolumeNames(sent.deployment);
    }
  }

  lemma MadeIsSound(p: Post, t: nat, n: nat)
    requires SoundPost(p) && p.due <= t && p.call.ToCreate?
    ensures var m := Made(p.call.obj, n); Sound(m, n + 1) && (m.DeploymentObject? ==> StampedBefore(m.deployment, t))
  {
    var obj := p.call.obj;
    if obj.DeploymentObject? { assert VolumeNames(Placed(None, obj.deployment, n)) == VolumeNames(obj.deployment); }
  }

  /** A sound write, by whomever, and however old the copy it was made from, keeps the cluster
      in order: if the version it was read at is still current it takes effect, and if not, it
      does nothing. */
  lemma EffectProceeds(c: Cluster, p: Post, t: nat)
    requires Good(c) && StampsBefore(c, t) && SoundPost(p) && p.due <= t
    ensures Proceeds(c, Effect(c, p.call), t)
  {
    match p.call
    case ToCreate(r, obj) =>
      if r !in c.objs {
        MadeIsSound(p, t, c.next);
        CommittedProceeds(c, r, Some(Made(obj, c.next)), t);
      }
    case ToUpdate(r, part, sent) =>
      if r in c.objs && c.objs[r].rv == sent.rv {
        var merged := Merged(c.objs[r].obj, sent.obj, part, c.next);
        MergedIsSound(c, p, t);
        if !Forbids(c.objs[r].obj, merged) { CommittedProceeds(c, r, Kept(merged), t); }
      }
    case ToPatch(r, i) =>
      if r in c.objs && i < |c.objs[r].obj.cr.finalizers| {
        assert Sound(c.objs[r].obj, c.next);
        CommittedProceeds(c, r, Kept(CutAt(c.objs[r].obj, i)), t);
      }
  }

  // ---- any number of calls ----------------------------------------------

  /** These writes arrive, one after the other. */
  ghost function Delivered(c: Cluster, posts: seq<Post>): Cluster
    decreases |posts|
  {
    if posts == [] then c else Delivered(Effect(c, posts[0].call), posts[1..])
  }

  /** A delivery that would hold back a write that is not sound, or not yet due. */
  ghost function Screened(c: Cluster, posts: seq<Post>, t: nat): Cluster
    decreases |posts|
  {
    if posts == [] then c
    else Screened(if Passes(posts[0], t) then Effect(c, posts[0].call) else c, posts[1..], t)
  }

  ghost predicate Passes(p: Post, t: nat) { SoundPost(p) && p.due <= t }

  lemma {:induction false} ScreenedProceeds(c: Cluster, posts: seq<Post>, t: nat)
    requires Good(c) && StampsBefore(c, t)
    ensures Proceeds(c, Screened(c, posts, t), t)
    decreases |posts|
  {
    if posts != [] {
      var d := if Passes(posts[0], t) then Effect(c, posts[0].call) else c;
      if Passes(posts[0], t) { EffectProceeds(c, posts[0], t); }
      ScreenedProceeds(d, posts[1..], t);
      EvolvesTransitive(c, d, Screened(d, posts[1..], t));
    }
  }

  lemma EvolvesTransitive(c: Cluster, d: Cluster, e: Cluster)
    requires Evolves(c, d) && Evolves(d, e)
    ensures Evolves(c, e)
  {
  }

  lemma {:induction false} NothingHeldBack(c: Cluster, posts: seq<Post>, t: nat)
    requires forall p | p in posts :: Passes(p, t)
    ensures Screened(c, posts, t) == Delivered(c, posts)
    decreases |posts|
  {
    if posts != [] {
      assert posts[0] in posts;
      forall p | p in posts[1..] ensures Passes(p, t) { assert p in posts; }
      NothingHeldBack(Effect(c, posts[0].call), posts[1..], t);
    }
  }

  /** Before its call `n`, besides whatever others do, these writes of the other controller arrive. */
  ghost function Meanwhile(o: Oracle, posts: nat -> seq<Post>, n: nat, c: Cluster): Cluster {
    Screened(o.interfere(n, c), posts(n), o.now(n + 1))
  }

  ghost function Amid(o: Oracle, posts: nat -> seq<Post>): Oracle {
    o.(interfere := (n: nat, c: Cluster) => Meanwhile(o, posts, n, c))
  }

  lemma AmidIsLawful(o: Oracle, posts: nat -> seq<Post>)
    requires Lawful(o)
    ensures Lawful(Amid(o, posts))
  {
    var p := Amid(o, posts);
    assert forall m: nat, n: nat | m < n :: p.now(m) < p.now(n);
    forall n: nat, c: Cluster ensures Behaves(p, n, c) {
      if Good(c) && StampsBefore(c, o.now(n)) {
        assert Behaves(o, n, c);
        var d := o.interfere(n, c);
        ScreenedProceeds(d, posts(n), o.now(n + 1));
        EvolvesTransitive(c, d, Meanwhile(o, posts, n, c));
      }
    }
  }

  // ---- two runs ---------------------------------------------------------

  /** What arrives is what the other has sent, in whatever order, by the time of the call. */
  ghost predicate ArrivesFrom(o: Oracle, posts: nat -> seq<Post>, w: World, x: World) {
    && w.posts <= x.posts
    && forall n: nat, p | p in posts(n) :: p in x.posts[|w.posts|..] && p.due <= o.now(n + 1)
  }

  lemma SentIsScreenedForNothing(o: Oracle, posts: nat -> seq<Post>, w: World, x: World, n: nat, c: Cluster)
    requires ArrivesFrom(o, posts, w, x) && PostsSound(w, x)
    ensures Amid(o, posts).interfere(n, c) == Delivered(o.interfere(n, c), posts(n))
  {
    forall p | p in posts(n) ensures Passes(p, o.now(n + 1)) {
      var i :| 0 <= i < |x.posts[|w.posts|..]| && x.posts[|w.posts|..][i] == p;
      assert SoundPost(x.posts[|w.posts| + i]);
    }
    NothingHeldBack(o.interfere(n, c), posts(n), o.now(n + 1));
  }

  /** Two runs over one cluster, each among the writes of the other, call by call: a pass may
      be suspended between any two of its calls, and resume with the copies it has. Both runs
      keep every guarantee, and the screen never holds back anything that either of them
      sends: the interleaving is that of the bare writes. */
  lemma {:induction false} RunsInterleave(o: Oracle, w: World, turns: seq<Turn>, mine: nat -> seq<Post>,
                       p: Oracle, v: World, others: seq<Turn>, theirs: nat -> seq<Post>)
    requires Lawful(o) && InOrder(o, w) && Lawful(p) && InOrder(p, v)
    requires var x, y := Run(Amid(o, theirs), w, turns), Run(Amid(p, mine), v, others);
             ArrivesFrom(o, theirs, v, y) && ArrivesFrom(p, mine, w, x)
    ensures var x, y := Run(Amid(o, theirs), w, turns), Run(Amid(p, mine), v, others);
            && Leads(Amid(o, theirs), w, x) && Leads(Amid(p, mine), v, y)
            && (forall i | |w.log| <= i < |x.log| :: Accounted(x.log, |w.log|, i))
            && (forall i | |v.log| <= i < |y.log| :: Accounted(y.log, |v.log|, i))
    ensures forall n: nat, c: Cluster :: Amid(o, theirs).interfere(n, c) == Delivered(o.interfere(n, c), theirs(n))
    ensures forall n: nat, c: Cluster :: Amid(p, mine).interfere(n, c) == Delivered(p.interfere(n, c), mine(n))
  {
    var x, y := Run(Amid(o, theirs), w, turns), Run(Amid(p, mine), v, others);
    AmidIsLawful(o, theirs);
    AmidIsLawful(p, mine);
    RunIsSafe(Amid(o, theirs), w, turns);
    RunIsSafe(Amid(p, mine), v, others);
    forall n: nat, c: Cluster ensures Amid(o, theirs).interfere(n, c) == Delivered(o.interfere(n, c), theirs(n)) {
      SentIsScreenedForNothing(o, theirs, v, y, n, c);
    }
    forall n: nat, c: Cluster ensures Amid(p, mine).interfere(n, c) == Delivered(p.interfere(n, c), mine(n)) {
      SentIsScreenedForNothing(p, mine, w, x, n, c);
    }
  }
}
