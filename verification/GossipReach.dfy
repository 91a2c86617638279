/**
 How far a rumor can get. A node can learn of an injected rumor exactly if a chain
 of peers leads to it that is no longer than the rumor's TTL.
 */
module GossipReach {
  import opened GossipStore
  import opened GossipNode
  import opened Gossip

  /** p may push to q. */
  predicate Feeds(cs: Configs, p: string, q: string) {
    p in cs && cs[p].fanout >= 1 && q in cs[p].peers
  }

  ghost predicate IsPath(cs: Configs, path: seq<string>) {
    && path != [] && (forall i :: 0 <= i < |path| ==> path[i] in cs)
    && (forall i, l :: 0 <= i && l == i + 1 && l < |path| ==> Feeds(cs, path[i], path[l]))
  }

  ghost predicate Joins(cs: Configs, path: seq<string>, p: string, q: string, ttl: int) {
    && IsPath(cs, path) && path[0] == p && path[|path| - 1] == q
    && (|path| == 1 || |path| - 1 <= ttl)
  }

  /** A chain of at most ttl pushes can lead from p to q. */
  ghost predicate Within(cs: Configs, p: string, q: string, ttl: int) {
    exists path :: Joins(cs, path, p, q, ttl)
  }

  /** The TTL an injection really has. */
  function TtlOf(cs: Configs, p: string, ttl: int): int {
    if ttl > 0 || p !in cs then ttl else cs[p].ttl
  }

  // ----------------------------------------------------------------- no further

  /** Every injection on record was made, with the TTL asked for or else the node's own. */
  lemma {:induction false} InjectionsMade(run: Run, cs: Configs, k: nat, r: Rumor) returns (j: nat)
    requires Valid(run, cs) && k < |run.states| && r in run.states[k].injections
    ensures j < k && j < |run.acts| && run.acts[j].Inject?
    ensures var a := run.acts[j]; a.node in cs && r == Rumor(a.id, TtlOf(cs, a.node, a.ttl), a.body, a.node, a.now)
  {
    hide IsPerm, Lists, TickSends, DigestSends, MissingSends, FetchSends, Picked, Pushable, Coherent, Added;
    assert k > 0 ==> Follows(run, cs, k - 1);
    if r in run.states[k - 1].injections {
      j := InjectionsMade(run, cs, k - 1, r);
    } else {
      j := k - 1;
    }
  }

  lemma PushedFeeds(cs: Configs, c: Cluster, q: string, p: string, id: string)
    requires TicksOk(cs, c) && SentOk(c) && Pushed(c, q, p, id)
    ensures Feeds(cs, q, p)
  {
    hide Carries, OncePerNode;
    var e :| e in c.wire && e.src == q && e.dst == p && e.msg.Push?;
    var k :| 0 <= k < |c.ticks| && e in Messages(c.ticks[k]);
    var t := c.ticks[k];
    assert TickOk(cs, c, t);
    ChosenDistinct(t.targets, cs[q].peers);
  }

  /** Whatever a node knows was injected within reach. */
  lemma KnownWithin(run: Run, cs: Configs, k: nat, q: string, id: string) returns (r: Rumor)
    requires Valid(run, cs) && k < |run.states| && Knows(run.states[k], q, id)
    ensures r in run.states[k].injections && r.id == id && Within(cs, r.origin, q, r.ttl)
  {
    hide TicksOk, SentOk, WireOk, TrailsOk, Pushed, Feeds;
    RunOk(run, cs, k);
    TtlConserved(run, cs, k, q, id);
    var c := run.states[k];
    var path := c.trails[(q, id)].path;
    r := c.trails[(q, id)].injected;
    forall i, l | 0 <= i && l == i + 1 && l < |path|
      ensures Feeds(cs, path[i], path[l]) && path[i] in cs
    {
      PushedFeeds(cs, c, path[i], path[l], id);
      Feeder(cs, path[i], path[l]);
    }
    forall i | 0 <= i < |path|
      ensures path[i] in cs
    {
      if i + 1 < |path| {
        assert Feeds(cs, path[i], path[i + 1]) && path[i] in cs;
      }
    }
    assert Joins(cs, path, r.origin, q, r.ttl);
  }

  lemma Feeder(cs: Configs, p: string, q: string)
    requires Feeds(cs, p, q)
    ensures p in cs
  {
  }

  // ------------------------------------------------------------------- that far

  /** A path that meets no node twice. */
  lemma {:induction false} Simple(cs: Configs, path: seq<string>, p: string, q: string, ttl: int)
    returns (short: seq<string>)
    requires Joins(cs, path, p, q, ttl)
    ensures Joins(cs, short, p, q, ttl) && Distinct(short)
    decreases |path|
  {
    if i, l :| 0 <= i < l < |path| && path[i] == path[l] {
      var cut := path[..i] + path[l..];
      Cut(cs, path, i, l);
      short := Simple(cs, cut, p, q, ttl);
    } else {
      short := path;
    }
  }

  lemma Cut(cs: Configs, path: seq<string>, i: nat, l: nat)
    requires IsPath(cs, path) && i < l < |path| && path[i] == path[l]
    ensures var cut := path[..i] + path[l..];
      IsPath(cs, cut) && cut[0] == path[0] && cut[|cut| - 1] == path[|path| - 1] && |cut| < |path|
  {
    hide Feeds;
    var cut := path[..i] + path[l..];
    assert forall x :: 0 <= x < |cut| ==> cut[x] == if x < i then path[x] else path[x + l - i];
    forall x, y | 0 <= x && y == x + 1 && y < |cut|
      ensures Feeds(cs, cut[x], cut[y])
    {
      if y <= i {
        assert Feeds(cs, path[x], path[x + 1]);
        assert cut[y] == path[x + 1];
      } else {
        assert Feeds(cs, path[x + l - i], path[x + l - i + 1]);
      }
    }
  }

  /** A run whose only injections are this one. */
  ghost predicate OnlyInjects(run: Run, cs: Configs, a: Action) {
    Valid(run, cs) && forall k :: 0 <= k < |run.acts| && run.acts[k].Inject? ==> run.acts[k] == a
  }

  /** The rumor has come along the path to its node i, which has not pushed yet; nobody off the path so far knows it. */
  ghost predicate Front(cs: Configs, c: Cluster, path: seq<string>, i: nat, r: Rumor) {
    && Nodes(cs, c) && i < |path| && path[i] in c.stores
    && c.stores[path[i]] == Memory(map[r.id := r], [r.id])
    && (forall x :: x in cs && x !in path[..i + 1] ==> c.stores[x] == BLANK)
  }

  /** Any peer can be among those picked. */
  lemma CanPick(cs: Configs, p: string, q: string) returns (perm: seq<nat>)
    requires Feeds(cs, p, q)
    ensures IsPerm(perm, |cs[p].peers|) && q in Picked(cs[p].peers, cs[p].fanout, perm)
  {
    var peers := cs[p].peers;
    var x: nat :| x < |peers| && peers[x] == q;
    perm := Completed([x], |peers|);
    if cs[p].fanout < |peers| {
      assert Picked(peers, cs[p].fanout, perm)[0] == q;
    }
  }

  lemma Pushes(run: Run, cs: Configs, path: seq<string>, i: nat, r: Rumor, a: Action) returns (run': Run)
    requires OnlyInjects(run, cs, a) && IsPath(cs, path) && Distinct(path) && Front(cs, Last(run), path, i, r)
    requires i + 1 < |path|
    ensures OnlyInjects(run', cs, a) && Nodes(cs, Last(run'))
    ensures forall x :: x in cs && x !in path[..i + 1] ==> Last(run').stores[x] == BLANK
    ensures Envelope(path[i], path[i + 1], Push([r])) in Last(run').wire
  {
    hide Valid, Coherent;
    var p, q := path[i], path[i + 1];
    assert Feeds(cs, p, q);
    var perm := CanPick(cs, p, q);
    var c := Last(run);
    run' := Then(run, cs, TickOnce(p, perm));
    assert Pushable(c.stores[p]) == [r];
    var out := Picked(cs[p].peers, cs[p].fanout, perm);
    var x :| 0 <= x < |out| && out[x] == q;
    assert SendAll(p, out, Push([r]))[x] == Envelope(p, q, Push([r]));
    assert p in path[..i + 1];
  }

  lemma Moves(run: Run, cs: Configs, path: seq<string>, i: nat, r: Rumor, a: Action) returns (run': Run)
    requires OnlyInjects(run, cs, a) && IsPath(cs, path) && Distinct(path) && Front(cs, Last(run), path, i, r)
    requires i + 1 < |path| && r.ttl > 0
    ensures OnlyInjects(run', cs, a) && Front(cs, Last(run'), path, i + 1, r.(ttl := r.ttl - 1))
  {
    hide OnlyInjects, Coherent, Feeds;
    run' := Pushes(run, cs, path, i, r, a);
    var p, q := path[i], path[i + 1];
    assert q !in path[..i + 1] && path[..i + 2] == path[..i + 1] + [q];
    run' := Takes(run', cs, p, q, r, a);
  }

  /** A node that knows nothing takes the push. */
  lemma Takes(run: Run, cs: Configs, p: string, q: string, r: Rumor, a: Action) returns (run': Run)
    requires OnlyInjects(run, cs, a) && Nodes(cs, Last(run)) && p in cs && q in cs && r.ttl > 0
    requires Envelope(p, q, Push([r])) in Last(run).wire && Last(run).stores[q] == BLANK
    ensures OnlyInjects(run', cs, a) && Nodes(cs, Last(run'))
    ensures Last(run').stores == Last(run).stores[q := Memory(map[r.id := r.(ttl := r.ttl - 1)], [r.id])]
  {
    hide Valid, Coherent;
    run' := Then(run, cs, TakePush(Envelope(p, q, Push([r])), 0));
    assert Last(run').stores[q] == Memory(map[r.id := r.(ttl := r.ttl - 1)], [r.id]);
  }

  lemma {:induction false} Travels(run: Run, cs: Configs, path: seq<string>, i: nat, r: Rumor, a: Action)
    returns (run': Run)
    requires OnlyInjects(run, cs, a) && IsPath(cs, path) && Distinct(path) && Front(cs, Last(run), path, i, r)
    requires |path| - 1 - i <= r.ttl || i == |path| - 1
    ensures OnlyInjects(run', cs, a) && Knows(Last(run'), path[|path| - 1], r.id)
    decreases |path| - i
  {
    hide OnlyInjects, IsPath, Nodes;
    if i == |path| - 1 {
      run' := run;
    } else {
      run' := Moves(run, cs, path, i, r, a);
      run' := Travels(run', cs, path, i + 1, r.(ttl := r.ttl - 1), a);
    }
  }

  /** Within its TTL a rumor can get anywhere. */
  lemma CanReach(cs: Configs, a: Action, q: string) returns (run: Run)
    requires a.Inject? && Within(cs, a.node, q, TtlOf(cs, a.node, a.ttl))
    ensures OnlyInjects(run, cs, a) && Knows(Last(run), q, a.id)
  {
    hide Feeds;
    var p, ttl := a.node, TtlOf(cs, a.node, a.ttl);
    var path :| Joins(cs, path, p, q, ttl);
    path := Simple(cs, path, p, q, ttl);
    run := Run([Start(cs)], []);
    NeverStuck(run, cs);
    run := Then(run, cs, a);
    var r := Rumor(a.id, ttl, a.body, p, a.now);
    assert Last(run).stores[p] == Memory(map[r.id := r], [r.id]);
    assert path[..1] == [p];
    run := Travels(run, cs, path, 0, r, a);
  }

  /** A node can learn of an injected rumor iff a chain of pushes no longer than its TTL can lead there. */
  lemma ReachExact(cs: Configs, a: Action, q: string)
    requires a.Inject? && a.node in cs
    ensures (exists run :: OnlyInjects(run, cs, a) && Knows(Last(run), q, a.id))
       <==> Within(cs, a.node, q, TtlOf(cs, a.node, a.ttl))
  {
    if run :| OnlyInjects(run, cs, a) && Knows(Last(run), q, a.id) {
      var k := |run.states| - 1;
      var r := KnownWithin(run, cs, k, q, a.id);
      var j := InjectionsMade(run, cs, k, r);
      assert run.acts[j] == a;
    }
    if Within(cs, a.node, q, TtlOf(cs, a.node, a.ttl)) {
      var run := CanReach(cs, a, q);
    }
  }
}
