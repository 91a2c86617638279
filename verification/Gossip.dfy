/**
 A cluster of gossip nodes that never restart, over a network that may lose,
 repeat, delay and reorder messages. Handlers are interleaved rumor by rumor.
 History: one record per push tick, and for every stored copy the trail of nodes
 it was pushed along from the injection it stems from.
 */
module Gossip {
  import opened GossipStore
  import opened GossipNode

  /** A tick that pushed: one message with these rumors to each target. */
  datatype Tick = Tick(node: string, rumors: seq<Rumor>, targets: seq<string>)

  datatype Trail = Trail(path: seq<string>, injected: Rumor)

  datatype Cluster = Cluster(
    stores: map<string, Memory>,
    wire: set<Envelope>,
    ticks: seq<Tick>,
    trails: map<(string, string), Trail>,
    injections: set<Rumor>)

  type Configs = map<string, Config>

  datatype Action =
    | Inject(node: string, id: string, body: seq<Byte>, ttl: int, now: int)
    | TickOnce(node: string, perm: seq<nat>)
    | TakePush(e: Envelope, i: nat)
    | SendDigest(node: string, ids: seq<string>, perm: seq<nat>)
    | TakeDigest(e: Envelope, ours: seq<string>)
    | TakeMissing(e: Envelope)
    | TakeFetchRep(e: Envelope, i: nat)

  function Start(cs: Configs): Cluster {
    Cluster(map p | p in cs :: BLANK, {}, [], map[], {})
  }

  ghost predicate Nodes(cs: Configs, c: Cluster) {
    c.stores.Keys == cs.Keys && forall p :: p in c.stores ==> Coherent(c.stores[p])
  }

  /** e is on the wire for a node of the cluster. */
  predicate Arrives(c: Cluster, e: Envelope) {
    e in c.wire && e.dst in c.stores && e.src in c.stores
  }

  ghost predicate Enabled(cs: Configs, c: Cluster, a: Action)
    requires Nodes(cs, c)
  {
    match a
    case Inject(p, _, _, _, _) => p in cs
    case TickOnce(p, perm) => p in cs && IsPerm(perm, |cs[p].peers|)
    case TakePush(e, i) => Arrives(c, e) && e.msg.Push? && i < |e.msg.rumors|
    case SendDigest(p, ids, perm) => p in cs && IsPerm(perm, |cs[p].peers|) && Lists(ids, c.stores[p])
    case TakeDigest(e, ours) => Arrives(c, e) && e.msg.Digest? && Lists(ours, c.stores[e.dst])
    case TakeMissing(e) => Arrives(c, e) && e.msg.Missing?
    case TakeFetchRep(e, i) => Arrives(c, e) && e.msg.FetchRep? && i < |e.msg.rumors|
  }

  function Sent(es: seq<Envelope>): set<Envelope> {
    set e | e in es
  }

  /** The store of p becomes s; a rumor new to p gets its trail. */
  function Learn(c: Cluster, p: string, s: Memory, id: string, t: Trail): Cluster
    requires p in c.stores
  {
    c.(stores := c.stores[p := s],
       trails := if id !in c.stores[p].seen && id in s.seen then c.trails[(p, id) := t] else c.trails)
  }

  function TrailOf(c: Cluster, p: string, id: string, r: Rumor): Trail {
    if (p, id) in c.trails then c.trails[(p, id)] else Trail([], r)
  }

  ghost function Do(cs: Configs, c: Cluster, a: Action): Cluster
    requires Nodes(cs, c) && Enabled(cs, c, a)
  {
    match a
    case Inject(p, id, body, ttl, now) =>
      var r := Injected(cs[p], p, id, body, ttl, now);
      Learn(c, p, Added(c.stores[p], r), id, Trail([p], r)).(injections := c.injections + {r})
    case TickOnce(p, perm) =>
      var s := c.stores[p];
      c.(stores := c.stores[p := s.(queue := [])],
         wire := c.wire + Sent(TickSends(cs[p], p, s, perm)),
         ticks := if s.queue == [] then c.ticks
                  else c.ticks + [Tick(p, Pushable(s), Picked(cs[p].peers, cs[p].fanout, perm))])
    case TakePush(e, i) =>
      var r := e.msg.rumors[i];
      var t := TrailOf(c, e.src, r.id, r);
      Learn(c, e.dst, TakePushed(c.stores[e.dst], r), r.id, t.(path := t.path + [e.dst]))
    case SendDigest(p, ids, perm) => c.(wire := c.wire + Sent(DigestSends(cs[p], p, ids, perm)))
    case TakeDigest(e, ours) => c.(wire := c.wire + Sent(MissingSends(e.dst, ours, e.msg.ids, e.src)))
    case TakeMissing(e) => c.(wire := c.wire + Sent(FetchSends(e.dst, c.stores[e.dst], e.msg.ids, e.src)))
    case TakeFetchRep(e, i) =>
      var r := e.msg.rumors[i];
      Learn(c, e.dst, TakeFetched(c.stores[e.dst], r), r.id, TrailOf(c, e.src, r.id, r))
  }

  // ------------------------------------------------------------- the wire

  /** p holds exactly this copy of r. */
  predicate Holds(c: Cluster, p: string, r: Rumor) {
    p in c.stores && r.id in c.stores[p].seen && c.stores[p].seen[r.id] == r
  }

  predicate Knows(c: Cluster, p: string, id: string) {
    p in c.stores && id in c.stores[p].seen
  }

  /** A push carries its sender's copies, Missing lists what its sender has, a fetch reply is no news where it goes. */
  ghost predicate Honest(c: Cluster, e: Envelope) {
    match e.msg
    case Push(rs) => forall r :: r in rs ==> Holds(c, e.src, r)
    case Digest(_) => true
    case Missing(ids) => forall id :: id in ids ==> Knows(c, e.src, id)
    case FetchRep(rs) => forall r :: r in rs ==> Knows(c, e.dst, r.id)
  }

  ghost predicate WireOk(c: Cluster) {
    forall e :: e in c.wire ==> Honest(c, e)
  }

  /** Stores only grow, and what they hold never changes. */
  ghost predicate Grows(c: Cluster, d: Cluster) {
    && c.stores.Keys <= d.stores.Keys
    && forall p, id :: p in c.stores && id in c.stores[p].seen ==>
         id in d.stores[p].seen && d.stores[p].seen[id] == c.stores[p].seen[id]
  }

  lemma HonestStays(c: Cluster, d: Cluster, e: Envelope)
    requires Grows(c, d) && Honest(c, e)
    ensures Honest(d, e)
  {
    match e.msg
    case Push(rs) => assert forall r :: Holds(c, e.src, r) ==> Holds(d, e.src, r);
    case Digest(_) =>
    case Missing(ids) => assert forall id :: Knows(c, e.src, id) ==> Knows(d, e.src, id);
    case FetchRep(rs) => assert forall id :: Knows(c, e.dst, id) ==> Knows(d, e.dst, id);
  }

  lemma StoreGrows(cs: Configs, c: Cluster, d: Cluster, p: string, s: Memory)
    requires Nodes(cs, c) && p in c.stores && d.stores == c.stores[p := s] && Coherent(s)
    requires forall id :: id in c.stores[p].seen ==> id in s.seen && s.seen[id] == c.stores[p].seen[id]
    ensures Nodes(cs, d) && Grows(c, d)
  {
    hide Coherent;
  }

  lemma StepGrows(cs: Configs, c: Cluster, a: Action)
    requires Nodes(cs, c) && Enabled(cs, c, a)
    ensures Nodes(cs, Do(cs, c, a)) && Grows(c, Do(cs, c, a))
  {
    hide Coherent, Grows, IsPerm, Lists, TickSends, DigestSends, MissingSends, FetchSends, Picked, Pushable,
         Sent, Added;
    var d := Do(cs, c, a);
    match a
    case Inject(p, id, body, ttl, now) =>
      AddedCoherent(c.stores[p], Injected(cs[p], p, id, body, ttl, now));
      StoreGrows(cs, c, d, p, d.stores[p]);
    case TickOnce(p, perm) =>
      Emptied(c.stores[p]);
      StoreGrows(cs, c, d, p, d.stores[p]);
    case TakePush(e, i) =>
      var r := e.msg.rumors[i];
      AddedCoherent(c.stores[e.dst], r.(ttl := r.ttl - 1));
      StoreGrows(cs, c, d, e.dst, d.stores[e.dst]);
    case TakeFetchRep(e, i) =>
      AddedCoherent(c.stores[e.dst], e.msg.rumors[i]);
      StoreGrows(cs, c, d, e.dst, d.stores[e.dst]);
    case _ => SameStores(c, d);
  }

  lemma Emptied(s: Memory)
    requires Coherent(s)
    ensures Coherent(s.(queue := []))
  {
  }

  lemma SameStores(c: Cluster, d: Cluster)
    requires d.stores == c.stores
    ensures Grows(c, d)
  {
  }

  /** What a step puts on the wire is honest. */
  lemma NewHonest(cs: Configs, c: Cluster, a: Action, e: Envelope)
    requires Nodes(cs, c) && Enabled(cs, c, a) && WireOk(c)
    requires e in Do(cs, c, a).wire && e !in c.wire
    ensures Honest(c, e)
  {
    hide IsPerm;
    match a
    case TickOnce(p, perm) =>
      var rs := Pushable(c.stores[p]);
      assert forall i :: 0 <= i < |rs| ==> Holds(c, p, rs[i]);
    case TakeMissing(x) => assert Honest(c, x);
    case _ =>
  }

  lemma StepWire(cs: Configs, c: Cluster, a: Action)
    requires Nodes(cs, c) && Enabled(cs, c, a) && WireOk(c)
    ensures WireOk(Do(cs, c, a))
  {
    hide Do, Honest, Grows;
    StepGrows(cs, c, a);
    var d := Do(cs, c, a);
    forall e | e in d.wire
      ensures Honest(d, e)
    {
      if e !in c.wire {
        NewHonest(cs, c, a, e);
      }
      HonestStays(c, d, e);
    }
  }

  // ------------------------------------------------------------- the ticks

  predicate Carries(t: Tick, id: string) {
    exists i :: 0 <= i < |t.rumors| && t.rumors[i].id == id
  }

  /** Ticked IDs are known and out of the queue; no node ticks an ID twice. */
  ghost predicate TicksOk(cs: Configs, c: Cluster) {
    && (forall k :: 0 <= k < |c.ticks| ==> TickOk(cs, c, c.ticks[k]))
    && OncePerNode(c.ticks)
  }

  ghost predicate TickOk(cs: Configs, c: Cluster, t: Tick) {
    && t.node in cs && t.node in c.stores && Chosen(t.targets, cs[t.node].peers, cs[t.node].fanout)
    && forall id :: Carries(t, id) ==> id in c.stores[t.node].seen && id !in c.stores[t.node].queue
  }

  ghost predicate OncePerNode(ticks: seq<Tick>) {
    forall k, l, id :: 0 <= k < l < |ticks| && Carries(ticks[k], id) && Carries(ticks[l], id) ==>
      ticks[k].node != ticks[l].node
  }

  /** The queue never takes back an ID the node has seen. */
  lemma TickStays(cs: Configs, c: Cluster, a: Action, t: Tick)
    requires Nodes(cs, c) && Enabled(cs, c, a) && TickOk(cs, c, t)
    ensures TickOk(cs, Do(cs, c, a), t)
  {
    hide Carries, IsPerm, Lists, TickSends, DigestSends, MissingSends, FetchSends, Picked, Pushable, Sent, Coherent;
    hide Chosen;
    match a
    case _ =>
  }

  lemma StepTicks(cs: Configs, c: Cluster, a: Action)
    requires Nodes(cs, c) && Enabled(cs, c, a) && TicksOk(cs, c)
    ensures TicksOk(cs, Do(cs, c, a))
  {
    hide IsPerm, Carries, TickOk;
    var d := Do(cs, c, a);
    forall k | 0 <= k < |c.ticks|
      ensures TickOk(cs, d, c.ticks[k])
    {
      TickStays(cs, c, a, c.ticks[k]);
    }
    if a.TickOnce? && c.stores[a.node].queue != [] {
      NewTick(cs, c, a);
    }
  }

  lemma NewTick(cs: Configs, c: Cluster, a: Action)
    requires Nodes(cs, c) && Enabled(cs, c, a) && TicksOk(cs, c) && a.TickOnce? && c.stores[a.node].queue != []
    ensures var d := Do(cs, c, a);
      |d.ticks| == |c.ticks| + 1 && TickOk(cs, d, d.ticks[|c.ticks|]) && OncePerNode(d.ticks)
  {
    hide IsPerm, Chosen;
    var d := Do(cs, c, a);
    var t := d.ticks[|c.ticks|];
    PickedIsChoice(cs[a.node].peers, cs[a.node].fanout, a.perm);
    assert forall id :: Carries(t, id) ==> id in c.stores[a.node].queue;
    forall k, l, id | 0 <= k < l < |d.ticks| && Carries(d.ticks[k], id) && Carries(d.ticks[l], id)
      ensures d.ticks[k].node != d.ticks[l].node
    {
      assert TickOk(cs, c, c.ticks[k]);
    }
  }

  // ------------------------------------------------- what the ticks put on the wire

  /** The messages of one tick. */
  ghost function Messages(t: Tick): set<Envelope> {
    set d | d in t.targets :: Envelope(t.node, d, Push(t.rumors))
  }

  /** The pushes on the wire are the messages of the recorded ticks. */
  ghost predicate SentOk(c: Cluster) {
    && (forall e :: e in c.wire && e.msg.Push? ==> exists k :: 0 <= k < |c.ticks| && e in Messages(c.ticks[k]))
    && (forall k, e :: 0 <= k < |c.ticks| && e in Messages(c.ticks[k]) ==> e in c.wire)
  }

  lemma StepSent(cs: Configs, c: Cluster, a: Action)
    requires Nodes(cs, c) && Enabled(cs, c, a) && SentOk(c)
    ensures SentOk(Do(cs, c, a))
  {
    hide IsPerm, Lists, Pushable, Picked, Coherent, Messages;
    var d := Do(cs, c, a);
    forall e | e in d.wire && e.msg.Push?
      ensures exists k :: 0 <= k < |d.ticks| && e in Messages(d.ticks[k])
    {
      if e in c.wire {
        var k :| 0 <= k < |c.ticks| && e in Messages(c.ticks[k]);
        assert e in Messages(d.ticks[k]);
      } else {
        NewPush(cs, c, a, e);
      }
    }
    forall k, e | 0 <= k < |d.ticks| && e in Messages(d.ticks[k])
      ensures e in d.wire
    {
      if k == |c.ticks| {
        AllSent(cs, c, a, e);
      }
    }
  }

  lemma AllSent(cs: Configs, c: Cluster, a: Action, e: Envelope)
    requires Nodes(cs, c) && Enabled(cs, c, a) && |Do(cs, c, a).ticks| == |c.ticks| + 1
    requires e in Messages(Do(cs, c, a).ticks[|c.ticks|])
    ensures e in Do(cs, c, a).wire
  {
    hide IsPerm, Lists, Pushable, Picked, Coherent;
    match a
    case TickOnce(p, perm) =>
      var out := Picked(cs[p].peers, cs[p].fanout, perm);
      var i :| 0 <= i < |out| && out[i] == e.dst;
      assert TickSends(cs[p], p, c.stores[p], perm)[i] == e;
    case _ =>
  }

  lemma NewPush(cs: Configs, c: Cluster, a: Action, e: Envelope)
    requires Nodes(cs, c) && Enabled(cs, c, a) && e in Do(cs, c, a).wire && e !in c.wire && e.msg.Push?
    ensures |Do(cs, c, a).ticks| == |c.ticks| + 1 && e in Messages(Do(cs, c, a).ticks[|c.ticks|])
  {
    hide IsPerm, Lists, Pushable, Picked, Coherent;
    match a
    case TickOnce(p, perm) =>
    case _ =>
  }

  // ------------------------------------------------------------- the trails

  /** A stored copy stems from an injection; each push on its trail cost one TTL and changed nothing else. */
  ghost predicate TrailOk(c: Cluster, p: string, id: string)
    requires Knows(c, p, id)
  {
    && (p, id) in c.trails
    && var t, r := c.trails[(p, id)], c.stores[p].seen[id];
    && t.injected in c.injections
    && t.path != [] && t.path[0] == t.injected.origin && t.path[|t.path| - 1] == p
    && r.ttl + (|t.path| - 1) == t.injected.ttl
    && r == t.injected.(ttl := r.ttl)
    && (|t.path| > 1 ==> r.ttl >= 0 && Pushed(c, t.path[|t.path| - 2], p, id))
  }

  /** q sent p a push with this ID. */
  ghost predicate Pushed(c: Cluster, q: string, p: string, id: string) {
    exists e :: e in c.wire && e.src == q && e.dst == p && e.msg.Push? && exists r :: r in e.msg.rumors && r.id == id
  }

  /** Every node on a trail holds the rumor, by the part of the trail that leads to it. */
  ghost predicate TrailRooted(c: Cluster, p: string, id: string)
    requires (p, id) in c.trails
  {
    var t := c.trails[(p, id)];
    forall i :: 0 <= i < |t.path| ==>
      (t.path[i], id) in c.trails && c.trails[(t.path[i], id)] == Trail(t.path[..i + 1], t.injected)
  }

  ghost predicate TrailsOk(c: Cluster) {
    && (forall p, id :: Knows(c, p, id) ==> TrailOk(c, p, id))
    && (forall p, id :: (p, id) in c.trails ==> Knows(c, p, id) && TrailRooted(c, p, id))
  }

  /** Adding the trail of a copy new to p, which extends a known trail by p. */
  lemma ExtendTrail(c: Cluster, d: Cluster, q: string, p: string, r: Rumor)
    requires TrailsOk(c) && Holds(c, q, r) && p in c.stores && !Knows(c, p, r.id) && r.ttl > 0
    requires d.stores == c.stores[p := Added(c.stores[p], r.(ttl := r.ttl - 1))] && d.injections == c.injections
    requires (q, r.id) in c.trails && Pushed(c, q, p, r.id) && d.wire == c.wire
    requires d.trails == c.trails[(p, r.id) := c.trails[(q, r.id)].(path := c.trails[(q, r.id)].path + [p])]
    ensures TrailsOk(d)
  {
    hide TrailRooted, Coherent;
    assert TrailOk(c, q, r.id) && TrailRooted(c, q, r.id);
    assert (p, r.id) !in c.trails;
    RootedMore(c, d, q, p, r.id);
    OthersKept(c, d, p, r.id);
  }

  lemma RootedMore(c: Cluster, d: Cluster, q: string, p: string, id: string)
    requires (q, id) in c.trails && TrailRooted(c, q, id) && (p, id) !in c.trails
    requires d.trails == c.trails[(p, id) := c.trails[(q, id)].(path := c.trails[(q, id)].path + [p])]
    ensures TrailRooted(d, p, id)
  {
    var t, u := c.trails[(q, id)], d.trails[(p, id)];
    forall i | 0 <= i < |u.path|
      ensures (u.path[i], id) in d.trails && d.trails[(u.path[i], id)] == Trail(u.path[..i + 1], u.injected)
    {
      if i < |t.path| {
        assert u.path[..i + 1] == t.path[..i + 1];
        assert (t.path[i], id) in c.trails;
      } else {
        assert u.path[..i + 1] == u.path;
      }
    }
  }

  /** A trail added for (p, id) leaves all others as they are. */
  lemma OthersKept(c: Cluster, d: Cluster, p: string, id: string)
    requires TrailsOk(c) && (p, id) !in c.trails && p in c.stores && (p, id) in d.trails
    requires c.injections <= d.injections && c.wire <= d.wire && d.trails == c.trails[(p, id) := d.trails[(p, id)]]
    requires d.stores.Keys == c.stores.Keys
    requires forall q, x :: (q, x) != (p, id) ==> (Knows(d, q, x) <==> Knows(c, q, x))
    requires forall q, x :: Knows(c, q, x) ==> Knows(d, q, x) && d.stores[q].seen[x] == c.stores[q].seen[x]
    requires Knows(d, p, id) && TrailOk(d, p, id) && TrailRooted(d, p, id)
    ensures TrailsOk(d)
  {
    hide TrailOk, TrailRooted;
    forall q, x | Knows(d, q, x)
      ensures TrailOk(d, q, x)
    {
      if (q, x) != (p, id) {
        assert Knows(c, q, x) && TrailOk(c, q, x);
        KnownTrail(c, q, x);
        TrailKept(c, d, q, x);
      }
    }
    forall q, x | (q, x) in d.trails
      ensures Knows(d, q, x) && TrailRooted(d, q, x)
    {
      if (q, x) != (p, id) {
        assert (q, x) in c.trails && TrailRooted(c, q, x);
        RootKept(c, d, q, x);
      }
    }
  }

  lemma TrailKept(c: Cluster, d: Cluster, q: string, x: string)
    requires Knows(c, q, x) && TrailOk(c, q, x) && c.injections <= d.injections && c.wire <= d.wire
    requires (q, x) in c.trails && (q, x) in d.trails && d.trails[(q, x)] == c.trails[(q, x)]
    requires Knows(d, q, x) && d.stores[q].seen[x] == c.stores[q].seen[x]
    ensures TrailOk(d, q, x)
  {
  }

  lemma RootKept(c: Cluster, d: Cluster, q: string, x: string)
    requires (q, x) in c.trails && TrailRooted(c, q, x)
    requires forall y :: y in c.trails ==> y in d.trails && d.trails[y] == c.trails[y]
    ensures TrailRooted(d, q, x)
  {
  }

  lemma InjectTrail(cs: Configs, c: Cluster, a: Action)
    requires Nodes(cs, c) && Enabled(cs, c, a) && TrailsOk(c) && a.Inject?
    ensures TrailsOk(Do(cs, c, a))
  {
    hide Coherent;
    var d := Do(cs, c, a);
    if Knows(c, a.node, a.id) {
      SameTrails(c, d);
    } else {
      OthersKept(c, d, a.node, a.id);
    }
  }

  /** Nothing learned, nothing changed. */
  lemma SameTrails(c: Cluster, d: Cluster)
    requires TrailsOk(c) && d.trails == c.trails && c.injections <= d.injections && c.wire <= d.wire
    requires d.stores.Keys == c.stores.Keys
    requires forall p :: p in c.stores ==> d.stores[p].seen == c.stores[p].seen
    ensures TrailsOk(d)
  {
    forall q, x | Knows(d, q, x)
      ensures TrailOk(d, q, x)
    {
      assert Knows(c, q, x) && TrailOk(c, q, x);
    }
    forall q, x | (q, x) in d.trails
      ensures Knows(d, q, x) && TrailRooted(d, q, x)
    {
      assert Knows(c, q, x) && TrailRooted(c, q, x);
    }
  }

  lemma StepTrails(cs: Configs, c: Cluster, a: Action)
    requires Nodes(cs, c) && Enabled(cs, c, a) && WireOk(c) && TrailsOk(c)
    ensures TrailsOk(Do(cs, c, a))
  {
    hide TrailsOk, Coherent, IsPerm, Lists, TickSends, DigestSends, MissingSends, FetchSends, Picked, Pushable, Sent;
    var d := Do(cs, c, a);
    match a
    case Inject(_, _, _, _, _) => InjectTrail(cs, c, a);
    case TakePush(e, i) =>
      var r := e.msg.rumors[i];
      assert Honest(c, e) && Holds(c, e.src, r);
      if r.ttl > 0 && !Knows(c, e.dst, r.id) {
        KnownTrail(c, e.src, r.id);
        assert Pushed(c, e.src, e.dst, r.id);
        ExtendTrail(c, d, e.src, e.dst, r);
      } else {
        SameTrails(c, d);
      }
    case TakeFetchRep(e, i) =>
      assert Honest(c, e) && Knows(c, e.dst, e.msg.rumors[i].id);
      SameTrails(c, d);
    case _ => SameTrails(c, d);
  }

  lemma KnownTrail(c: Cluster, p: string, id: string)
    requires TrailsOk(c) && Knows(c, p, id)
    ensures (p, id) in c.trails
  {
    assert TrailOk(c, p, id);
  }

  // ------------------------------------------------------------------ runs

  datatype Run = Run(states: seq<Cluster>, acts: seq<Action>)

  ghost predicate Valid(run: Run, cs: Configs) {
    && |run.states| == |run.acts| + 1
    && run.states[0] == Start(cs)
    && forall k :: 0 <= k < |run.acts| ==> Follows(run, cs, k)
  }

  ghost predicate Follows(run: Run, cs: Configs, k: nat)
    requires k < |run.acts| && |run.states| == |run.acts| + 1
  {
    && Nodes(cs, run.states[k]) && Enabled(cs, run.states[k], run.acts[k])
    && run.states[k + 1] == Do(cs, run.states[k], run.acts[k])
  }

  lemma {:induction false} RunOk(run: Run, cs: Configs, k: nat)
    requires Valid(run, cs) && k < |run.states|
    ensures var c := run.states[k]; Nodes(cs, c) && WireOk(c) && TicksOk(cs, c) && SentOk(c) && TrailsOk(c)
  {
    hide Enabled, Do, TickOk, TrailOk;
    if k > 0 {
      RunOk(run, cs, k - 1);
      hide WireOk, TicksOk, SentOk, TrailsOk;
      assert Follows(run, cs, k - 1);
      var c, a := run.states[k - 1], run.acts[k - 1];
      StepGrows(cs, c, a);
      StepWire(cs, c, a);
      StepTicks(cs, c, a);
      StepSent(cs, c, a);
      StepTrails(cs, c, a);
    }
  }

  ghost function Extend(run: Run, cs: Configs, a: Action): Run
    requires run.states != [] && Nodes(cs, run.states[|run.states| - 1])
    requires Enabled(cs, run.states[|run.states| - 1], a)
  {
    Run(run.states + [Do(cs, run.states[|run.states| - 1], a)], run.acts + [a])
  }

  /** Every enabled action of every reachable cluster extends the run. */
  lemma NeverStuck(run: Run, cs: Configs)
    requires Valid(run, cs)
    ensures Nodes(cs, run.states[|run.acts|])
    ensures forall a: Action :: Enabled(cs, run.states[|run.acts|], a) ==> Valid(Extend(run, cs, a), cs)
  {
    hide Enabled, Do, WireOk, TicksOk, TrailsOk, SentOk;
    RunOk(run, cs, |run.acts|);
    forall a: Action | Enabled(cs, run.states[|run.acts|], a)
      ensures Valid(Extend(run, cs, a), cs)
    {
      var more := Extend(run, cs, a);
      forall k | 0 <= k < |more.acts|
        ensures Follows(more, cs, k)
      {
        assert k < |run.acts| ==> Follows(run, cs, k);
      }
    }
  }

  function Last(run: Run): Cluster {
    if run.states == [] then Start(map[]) else run.states[|run.states| - 1]
  }

  lemma Then(run: Run, cs: Configs, a: Action) returns (run': Run)
    requires Valid(run, cs) && Nodes(cs, Last(run)) && Enabled(cs, Last(run), a)
    ensures Valid(run', cs) && Last(run') == Do(cs, Last(run), a) && run'.acts == run.acts + [a]
    ensures Nodes(cs, Last(run'))
  {
    hide Do, Enabled, Nodes;
    NeverStuck(run, cs);
    run' := Extend(run, cs, a);
    NeverStuck(run', cs);
  }

  /** The digest exchange never changes any store: only injections and pushes do. */
  lemma OnlyPushSpreads(run: Run, cs: Configs, k: nat)
    requires Valid(run, cs) && k < |run.acts| && !run.acts[k].Inject? && !run.acts[k].TakePush?
    ensures run.states[k].stores.Keys == run.states[k + 1].stores.Keys == cs.Keys
    ensures forall p :: p in cs ==> run.states[k + 1].stores[p].seen == run.states[k].stores[p].seen
    ensures !run.acts[k].TickOnce? ==> run.states[k + 1].stores == run.states[k].stores
  {
    hide TrailsOk, TicksOk, Coherent, IsPerm, Lists, TickSends, DigestSends, MissingSends, FetchSends, Picked,
         Pushable, Sent;
    RunOk(run, cs, k);
    assert Follows(run, cs, k);
    var c, a := run.states[k], run.acts[k];
    if a.TakeFetchRep? {
      assert Honest(c, a.e);
      assert Knows(c, a.e.dst, a.e.msg.rumors[a.i].id);
      assert c.stores[a.e.dst := c.stores[a.e.dst]] == c.stores;
    }
  }

  /** A tick takes the whole queue, in order, and pushes it to its targets: as many different peers as it may. */
  lemma TickAnswer(run: Run, cs: Configs, k: nat, p: string, perm: seq<nat>)
    requires Valid(run, cs) && k < |run.acts| && run.acts[k] == TickOnce(p, perm)
    ensures p in cs && p in run.states[k].stores && p in run.states[k + 1].stores
    ensures run.states[k + 1].stores[p].queue == [] && run.states[k + 1].stores[p].seen == run.states[k].stores[p].seen
    ensures var c, d := run.states[k], run.states[k + 1];
      var s := c.stores[p];
      if s.queue == [] then
        d.ticks == c.ticks && d.wire == c.wire
      else
        && |d.ticks| == |c.ticks| + 1 && d.ticks[..|c.ticks|] == c.ticks
        && var t := d.ticks[|c.ticks|];
           && t.node == p && |t.rumors| == |s.queue|
           && (forall i :: 0 <= i < |s.queue| ==> s.queue[i] in s.seen && t.rumors[i] == s.seen[s.queue[i]])
           && Chosen(t.targets, cs[p].peers, cs[p].fanout)
           && d.wire == c.wire + Messages(t)
  {
    hide IsPerm, Chosen, WireOk, TicksOk, SentOk, TrailsOk;
    RunOk(run, cs, k);
    assert Follows(run, cs, k);
    var c, d := run.states[k], run.states[k + 1];
    PickedIsChoice(cs[p].peers, cs[p].fanout, perm);
    if c.stores[p].queue != [] {
      var t := d.ticks[|c.ticks|];
      SentIsMessages(t, SendAll(p, t.targets, Push(t.rumors)));
    }
  }

  lemma SentIsMessages(t: Tick, es: seq<Envelope>)
    requires es == SendAll(t.node, t.targets, Push(t.rumors))
    ensures Sent(es) == Messages(t)
  {
    forall e | e in Messages(t)
      ensures e in es
    {
      var i :| 0 <= i < |t.targets| && t.targets[i] == e.dst;
      assert es[i] == e;
    }
  }

  /** Where a node's peers are distinct, so are the targets of each of its ticks. */
  lemma TargetsDistinct(run: Run, cs: Configs, n: nat, k: nat)
    requires Valid(run, cs) && n < |run.states| && k < |run.states[n].ticks|
    ensures var t := run.states[n].ticks[k];
      t.node in cs && |t.targets| == Least(cs[t.node].fanout, |cs[t.node].peers|)
      && (forall x :: x in t.targets ==> x in cs[t.node].peers)
      && (Distinct(cs[t.node].peers) ==> Distinct(t.targets))
  {
    hide WireOk, SentOk, TrailsOk;
    RunOk(run, cs, n);
    var t := run.states[n].ticks[k];
    assert TickOk(cs, run.states[n], t);
    ChosenDistinct(t.targets, cs[t.node].peers);
  }

  lemma ChosenDistinct(out: seq<string>, peers: seq<string>)
    requires multiset(out) <= multiset(peers)
    ensures forall x :: x in out ==> x in peers
    ensures Distinct(peers) ==> Distinct(out)
  {
    forall x | x in out
      ensures x in peers
    {
      assert x in multiset(out);
    }
    if Distinct(peers) {
      forall i, k | 0 <= i < k < |out|
        ensures out[i] != out[k]
      {
        TwiceThere(out, i, k);
        OnceOnly(peers, out[i]);
      }
    }
  }

  lemma TwiceThere(out: seq<string>, i: nat, k: nat)
    requires i < k < |out|
    ensures out[i] == out[k] ==> multiset(out)[out[i]] >= 2
  {
    assert out == out[..i] + [out[i]] + out[i + 1..k] + [out[k]] + out[k + 1..];
  }

  lemma {:induction false} OnceOnly(peers: seq<string>, x: string)
    requires Distinct(peers)
    ensures multiset(peers)[x] <= 1
  {
    if peers != [] {
      OnceOnly(peers[1..], x);
      assert peers == [peers[0]] + peers[1..];
      if peers[0] == x {
        assert x !in peers[1..];
      }
    }
  }

  /** A node pushes an ID in at most one tick. */
  lemma PushedOnce(run: Run, cs: Configs, n: nat, k: nat, l: nat, id: string)
    requires Valid(run, cs) && n < |run.states| && k < l < |run.states[n].ticks|
    requires Carries(run.states[n].ticks[k], id) && Carries(run.states[n].ticks[l], id)
    ensures run.states[n].ticks[k].node != run.states[n].ticks[l].node
  {
    hide TickOk, TrailsOk, WireOk, Carries;
    RunOk(run, cs, n);
  }

  /** The push messages carrying id that nodes of ps sent. */
  ghost function Spent(ticks: seq<Tick>, id: string, ps: set<string>): nat {
    if ticks == [] then 0
    else
      var t := ticks[|ticks| - 1];
      Spent(ticks[..|ticks| - 1], id, ps) + if t.node in ps && Carries(t, id) then |t.targets| else 0
  }

  lemma {:induction false} SpentWithout(ticks: seq<Tick>, id: string, ps: set<string>, p: string)
    requires forall k :: 0 <= k < |ticks| && Carries(ticks[k], id) ==> ticks[k].node != p
    ensures Spent(ticks, id, ps) == Spent(ticks, id, ps - {p})
  {
    hide Carries;
    if ticks != [] {
      SpentWithout(ticks[..|ticks| - 1], id, ps, p);
    }
  }

  lemma {:induction false} SpentBounded(ticks: seq<Tick>, id: string, ps: set<string>, fanout: nat)
    requires OncePerNode(ticks) && forall k :: 0 <= k < |ticks| ==> |ticks[k].targets| <= fanout
    ensures Spent(ticks, id, ps) <= |ps| * fanout
    decreases |ticks|
  {
    hide Carries;
    if ticks != [] {
      var last := |ticks| - 1;
      var t := ticks[last];
      if t.node in ps && Carries(t, id) {
        SpentWithout(ticks[..last], id, ps, t.node);
        SpentBounded(ticks[..last], id, ps - {t.node}, fanout);
        assert |ps| * fanout == |ps - {t.node}| * fanout + fanout;
      } else {
        SpentBounded(ticks[..last], id, ps, fanout);
      }
    }
  }

  lemma TicksWithin(run: Run, cs: Configs, k: nat, fanout: nat)
    requires Valid(run, cs) && k < |run.states| && forall p :: p in cs ==> cs[p].fanout <= fanout
    ensures OncePerNode(run.states[k].ticks) && SentOk(run.states[k])
    ensures forall i :: 0 <= i < |run.states[k].ticks| ==>
      run.states[k].ticks[i].node in cs && |run.states[k].ticks[i].targets| <= fanout
  {
    hide WireOk, TrailsOk, SentOk, OncePerNode, Carries;
    RunOk(run, cs, k);
    var c := run.states[k];
    forall i | 0 <= i < |c.ticks|
      ensures c.ticks[i].node in cs && |c.ticks[i].targets| <= fanout
    {
      assert TickOk(cs, c, c.ticks[i]);
    }
  }

  lemma {:induction false} FewMessages(node: string, rumors: seq<Rumor>, targets: seq<string>)
    ensures |Messages(Tick(node, rumors, targets))| <= |targets|
    decreases |targets|
  {
    var all := Messages(Tick(node, rumors, targets));
    if targets == [] {
      assert all == {};
    } else {
      var last := |targets| - 1;
      FewMessages(node, rumors, targets[..last]);
      var one := Envelope(node, targets[last], Push(rumors));
      assert all == Messages(Tick(node, rumors, targets[..last])) + {one} by {
        assert targets == targets[..last] + [targets[last]];
      }
    }
  }

  predicate CarriesId(e: Envelope, id: string) {
    e.msg.Push? && exists i :: 0 <= i < |e.msg.rumors| && e.msg.rumors[i].id == id
  }

  /** Messages that stem from the ticks are at most as many as the ticks sent. */
  lemma {:induction false} SpentCovers(es: set<Envelope>, ticks: seq<Tick>, id: string, ps: set<string>)
    requires forall e :: e in es ==> CarriesId(e, id) && exists k :: 0 <= k < |ticks| && e in Messages(ticks[k])
    requires forall k :: 0 <= k < |ticks| ==> ticks[k].node in ps
    ensures |es| <= Spent(ticks, id, ps)
    decreases |ticks|
  {
    hide Messages, Carries, CarriesId;
    if ticks == [] {
      assert es == {};
    } else {
      var last := |ticks| - 1;
      var t := ticks[last];
      var rest := es - Messages(t);
      forall e | e in rest
        ensures exists k :: 0 <= k < |ticks[..last]| && e in Messages(ticks[..last][k])
      {
        var k :| 0 <= k < |ticks| && e in Messages(ticks[k]);
        assert ticks[..last][k] == ticks[k];
      }
      SpentCovers(rest, ticks[..last], id, ps);
      TickCovers(es, t, id);
      assert es == rest + es * Messages(t);
    }
  }

  lemma TickCovers(es: set<Envelope>, t: Tick, id: string)
    requires forall e :: e in es ==> CarriesId(e, id)
    ensures |es * Messages(t)| <= if Carries(t, id) then |t.targets| else 0
  {
    forall e | e in es * Messages(t)
      ensures Carries(t, id)
    {
      assert CarriesId(e, id);
    }
    if Carries(t, id) {
      FewMessages(t.node, t.rumors, t.targets);
      Subset(es * Messages(t), Messages(t));
    } else {
      assert es * Messages(t) == {};
    }
  }

  lemma {:induction false} Subset(a: set<Envelope>, b: set<Envelope>)
    requires a <= b
    ensures |a| <= |b|
  {
    if a != {} {
      var e :| e in a;
      Subset(a - {e}, b - {e});
    }
  }

  /** Push messages carrying an ID never exceed nodes times fanout, counted as sent and counted on the wire. */
  lemma PushBudget(run: Run, cs: Configs, k: nat, id: string, fanout: nat)
    requires Valid(run, cs) && k < |run.states| && forall p :: p in cs ==> cs[p].fanout <= fanout
    ensures Spent(run.states[k].ticks, id, cs.Keys) <= |cs| * fanout
    ensures |set e | e in run.states[k].wire && CarriesId(e, id)| <= |cs| * fanout
  {
    hide Carries, OncePerNode, CarriesId, Spent, Messages;
    TicksWithin(run, cs, k, fanout);
    var c := run.states[k];
    SpentBounded(c.ticks, id, cs.Keys, fanout);
    assert |cs.Keys| == |cs|;
    var es := set e | e in c.wire && CarriesId(e, id);
    forall e | e in es
      ensures exists i :: 0 <= i < |c.ticks| && e in Messages(c.ticks[i])
    {
      IsPush(e, id);
    }
    SpentCovers(es, c.ticks, id, cs.Keys);
  }

  lemma IsPush(e: Envelope, id: string)
    requires CarriesId(e, id)
    ensures e.msg.Push?
  {
  }

  /** Stored TTL plus hops is the injected TTL; body, origin and time are the injected ones. */
  lemma TtlConserved(run: Run, cs: Configs, k: nat, p: string, id: string)
    requires Valid(run, cs) && k < |run.states| && Knows(run.states[k], p, id)
    ensures (p, id) in run.states[k].trails
    ensures var c := run.states[k]; var t, r := c.trails[(p, id)], c.stores[p].seen[id]; var hops := |t.path| - 1;
            && t.injected in c.injections && t.injected.id == id
            && 0 <= hops && r.ttl + hops == t.injected.ttl && (hops > 0 ==> hops <= t.injected.ttl)
            && r.body == t.injected.body && r.origin == t.injected.origin && r.injectTS == t.injected.injectTS
            && t.path[0] == t.injected.origin && t.path[hops] == p
            && forall i, l :: 0 <= i < hops && l == i + 1 ==> Pushed(c, t.path[i], t.path[l], id)
  {
    hide WireOk, TicksOk, TrailRooted, Pushed;
    RunOk(run, cs, k);
    var c := run.states[k];
    assert TrailOk(c, p, id) && c.stores[p].seen[id].id == id;
    var t := c.trails[(p, id)];
    forall i, l | 0 <= i < |t.path| - 1 && l == i + 1
      ensures Pushed(c, t.path[i], t.path[l], id)
    {
      EveryHopPushed(c, p, id, l);
    }
  }

  lemma EveryHopPushed(c: Cluster, p: string, id: string, l: nat)
    requires TrailsOk(c) && Knows(c, p, id) && (p, id) in c.trails && 0 < l < |c.trails[(p, id)].path|
    ensures Pushed(c, c.trails[(p, id)].path[l - 1], c.trails[(p, id)].path[l], id)
  {
    hide Pushed;
    var t := c.trails[(p, id)];
    assert TrailRooted(c, p, id);
    var q := t.path[l];
    assert Knows(c, q, id) && TrailOk(c, q, id);
    assert c.trails[(q, id)].path == t.path[..l + 1];
  }

  /** No copy passes a node twice. */
  lemma TrailsAreSimple(run: Run, cs: Configs, k: nat, p: string, id: string, i: nat, l: nat)
    requires Valid(run, cs) && k < |run.states| && (p, id) in run.states[k].trails
    requires i < l < |run.states[k].trails[(p, id)].path|
    ensures run.states[k].trails[(p, id)].path[i] != run.states[k].trails[(p, id)].path[l]
  {
    hide WireOk, TicksOk, TrailOk;
    RunOk(run, cs, k);
    var c := run.states[k];
    assert TrailRooted(c, p, id);
    var path := c.trails[(p, id)].path;
    assert |path[..i + 1]| != |path[..l + 1]|;
    assert c.trails[(path[i], id)].path == path[..i + 1] && c.trails[(path[l], id)].path == path[..l + 1];
  }
}
