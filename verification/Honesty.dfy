/** What the answers and the status writes of the controllers are worth, in one pass and over
    whole runs, for any oracle whatever: with any faults, and whatever others do in between. */
module Honesty {
  import opened Text
  import opened Objects
  import opened Api
  import opened ProxyPasses
  import opened RulesPasses
  import opened Runs
  import opened Answers
  import ProxyAnswers
  import RulesAnswers

  /** The first read was not answered: an error. It found nothing: done. Nothing was sent, and
      the cluster is as others have left it. */
  ghost predicate FoundNothing(o: Oracle, w: World, r: Ref, x: World, s: seq<Post>, out: Outcome) {
    && s == [] && x.c == o.interfere(w.calls, w.c)
    && out == (if o.fate(w.calls).Fine? then Done else Failed(Unavailable))
    && (o.fate(w.calls).Fine? ==> r !in x.c.objs)
  }

  /** A pass of the proxy controller, by what it has read first. Its status writes claim
      Available=True only for what it has verified; a failed write of a workload is told of with
      Available=False or is answered with an error; and it is done only after a confirmation
      or a release that has succeeded. */
  lemma {:induction false} ProxyPassIsHonest(o: Oracle, w: World, k: Key) returns (s: seq<Post>)
    ensures var (x, out) := ProxyPass(o, w, k);
            && Sends(w, x, s)
            && if x.log == w.log then FoundNothing(o, w, ProxyRef(k), x, s, out)
               else
                 var first := x.log[|w.log|];
                 && first.Read? && first.ref == ProxyRef(k) && first.obj.ProxyObject?
                 && ProxyAnswers.Sincere(x.log, |w.log|, k, first.obj.spec, s, out)
  {
    s := ProxyAnswers.PassAnswers(o, w, k);
    var (x, out) := ProxyPass(o, w, k);
    if x.log != w.log { ProxyAnswers.PassesHonest(x.log, |w.log|, k, x.log[|w.log|].obj, s, out); }
  }

  /** A pass of the rules controller, likewise. It claims Available=True only together with the
      checksum of the spec that it has read, also after a failed write of the ConfigMap, which
      it has told of before. */
  lemma {:induction false} RulesPassIsHonest(o: Oracle, w: World, k: Key) returns (s: seq<Post>)
    ensures var (x, out) := RulesPass(o, w, k);
            && Sends(w, x, s)
            && if x.log == w.log then FoundNothing(o, w, RuleRef(k), x, s, out)
               else
                 var first := x.log[|w.log|];
                 && first.Read? && first.ref == RuleRef(k) && first.obj.RuleObject?
                 && RulesAnswers.Sincere(o, x.log, |w.log|, k, first.obj, s, out)
  {
    s := RulesAnswers.PassAnswers(o, w, k);
    var (x, out) := RulesPass(o, w, k);
    if x.log != w.log { RulesAnswers.PassesSincere(o, x.log, |w.log|, k, x.log[|w.log|].obj, s, out); }
  }

  // ---- over whole runs --------------------------------------------------

  /** The pass from `w` to `x` was one on the proxy `k`, and has earned what this write claims. */
  ghost predicate EarnedIn(w: World, x: World, turn: Turn, k: Key, p: Post) {
    && turn == ProxyTurn(k) && w.log < x.log
    && x.log[|w.log|].Read? && x.log[|w.log|].ref == ProxyRef(k) && x.log[|w.log|].obj.ProxyObject?
    && ProxyAnswers.Earned(x.log, |w.log|, k, x.log[|w.log|].obj.spec, p)
  }

  lemma {:induction false} TakeEarns(o: Oracle, w: World, turn: Turn, k: Key) returns (s: seq<Post>)
    ensures Sends(w, Take(o, w, turn), s)
    ensures forall p | p in s && StatusOf(p, ProxyRef(k)) :: EarnedIn(w, Take(o, w, turn), turn, k, p)
  {
    match turn
    case ProxyTurn(j) =>
      s := ProxyPassIsHonest(o, w, j);
    case RulesTurn(j) =>
      s := RulesPassIsHonest(o, w, j);
  }

  lemma {:induction false} RunSends(o: Oracle, w: World, turns: seq<Turn>) returns (s: seq<Post>)
    ensures Sends(w, Run(o, w, turns), s)
    decreases |turns|
  {
    s := [];
    if turns != [] {
      var y := Take(o, w, turns[0]);
      var a := TakeEarns(o, w, turns[0], match turns[0] case ProxyTurn(k) => k case RulesTurn(k) => k);
      var b := RunSends(o, y, turns[1..]);
      SendsTransitive(w, y, Run(o, w, turns), a, b);
      s := a + b;
    }
  }

  /** Over every run: a status of a proxy that claims Available=True, beyond what it said when it
      was read, was written in a pass, the t-th, that had read Deployment and Service with the
      wanted size and the wanted ports. */
  lemma {:induction false} AvailableIsEarned(o: Oracle, w: World, turns: seq<Turn>, i: nat, k: Key) returns (t: nat)
    requires |w.posts| <= i < |Run(o, w, turns).posts| && StatusOf(Run(o, w, turns).posts[i], ProxyRef(k))
    ensures t < |turns|
    ensures var posts, before, after := Run(o, w, turns).posts, Run(o, w, turns[..t]), Run(o, w, turns[..t + 1]);
            && before.posts <= after.posts <= posts && |before.posts| <= i < |after.posts|
            && EarnedIn(before, after, turns[t], k, posts[i])
    decreases |turns|
  {
    var y := Take(o, w, turns[0]);
    var a := TakeEarns(o, w, turns[0], k);
    var b := RunSends(o, y, turns[1..]);
    var posts := Run(o, w, turns).posts;
    assert posts == w.posts + a + b;
    if i < |y.posts| {
      t := 0;
      assert posts[i] == a[i - |w.posts|];
      assert turns[..1] == [turns[0]];
      RunOfMore(o, w, turns, 1);
    } else {
      var u := AvailableIsEarned(o, y, turns[1..], i, k);
      t := u + 1;
      RunOfMore(o, w, turns, t);
      RunOfMore(o, w, turns, t + 1);
    }
  }
}
