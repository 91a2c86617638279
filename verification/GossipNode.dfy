/**
 One gossip node: injection, the push tick and the four message handlers. The
 messages a call sends are its result; the random permutation and the clock are
 parameters.
 */
module GossipNode {
  import opened GossipStore

  datatype Config = Config(ttl: int, fanout: nat, peers: seq<string>)

  datatype Msg =
    | Push(rumors: seq<Rumor>)
    | Digest(ids: seq<string>)
    | Missing(ids: seq<string>)
    | FetchRep(rumors: seq<Rumor>)

  datatype Envelope = Envelope(src: string, dst: string, msg: Msg)

  /** What rand.Perm(n) may return. */
  predicate IsPerm(perm: seq<nat>, n: nat) {
    && |perm| == n
    && (forall i :: 0 <= i < n ==> perm[i] < n)
    && (forall i, k :: 0 <= i < k < n ==> perm[i] != perm[k])
  }

  function Picked(peers: seq<string>, k: nat, perm: seq<nat>): (out: seq<string>)
    requires IsPerm(perm, |peers|)
  {
    if k >= |peers| then peers else seq(k, i requires 0 <= i < k => peers[perm[i]])
  }

  function Least(a: nat, b: nat): nat {
    if a < b then a else b
  }

  /** out is a choice of k of these, or all of them if there are fewer. */
  ghost predicate Chosen(out: seq<string>, peers: seq<string>, k: nat) {
    |out| == Least(k, |peers|) && multiset(out) <= multiset(peers)
  }

  predicate Places(places: seq<nat>, n: nat) {
    && (forall i :: 0 <= i < |places| ==> places[i] < n)
    && (forall i, k :: 0 <= i < k < |places| ==> places[i] != places[k])
  }

  function AtPlaces(peers: seq<string>, places: seq<nat>): seq<string>
    requires Places(places, |peers|)
  {
    seq(|places|, i requires 0 <= i < |places| => peers[places[i]])
  }

  /** The other places, once the first one is taken out. */
  function Moved(places: seq<nat>, n: nat): (moved: seq<nat>)
    requires places != [] && Places(places, n)
    ensures Places(moved, n - 1)
  {
    seq(|places| - 1, i requires 0 <= i < |places| - 1 =>
      assert places[i + 1] != places[0]; if places[i + 1] < places[0] then places[i + 1] else places[i + 1] - 1)
  }

  lemma FirstTakenOut(peers: seq<string>, places: seq<nat>)
    requires places != [] && Places(places, |peers|)
    ensures var x := places[0]; var fewer := peers[..x] + peers[x + 1..];
      |fewer| == |peers| - 1 && AtPlaces(peers, places) == [peers[x]] + AtPlaces(fewer, Moved(places, |peers|))
  {
    var x := places[0];
    var fewer, moved := peers[..x] + peers[x + 1..], Moved(places, |peers|);
    forall i | 0 <= i < |moved|
      ensures fewer[moved[i]] == peers[places[i + 1]]
    {
      assert places[i + 1] != x;
    }
  }

  lemma {:induction false} PlacesChosen(peers: seq<string>, places: seq<nat>)
    requires Places(places, |peers|)
    ensures multiset(AtPlaces(peers, places)) <= multiset(peers)
    decreases |places|
  {
    if places != [] {
      var x := places[0];
      var fewer := peers[..x] + peers[x + 1..];
      FirstTakenOut(peers, places);
      hide AtPlaces;
      PlacesChosen(fewer, Moved(places, |peers|));
      assert peers == peers[..x] + [peers[x]] + peers[x + 1..];
    }
  }

  /** Whatever the permutation, the picked peers are a choice of k of them. */
  lemma PickedIsChoice(peers: seq<string>, k: nat, perm: seq<nat>)
    requires IsPerm(perm, |peers|)
    ensures Chosen(Picked(peers, k, perm), peers, k)
  {
    if k < |peers| {
      PlacesChosen(peers, perm[..k]);
      assert Picked(peers, k, perm) == AtPlaces(peers, perm[..k]);
    }
  }

  /** Distinct places can be completed to a permutation. */
  lemma {:induction false} Completed(places: seq<nat>, n: nat) returns (perm: seq<nat>)
    requires |places| <= n && Places(places, n)
    ensures IsPerm(perm, n) && places <= perm
    decreases n - |places|
  {
    if |places| == n {
      perm := places;
    } else {
      var x := Unused(places, n);
      perm := Completed(places + [x], n);
    }
  }

  lemma {:induction false} Unused(places: seq<nat>, n: nat) returns (x: nat)
    requires |places| < n
    ensures x < n && x !in places
  {
    if places == [] {
      x := 0;
    } else if n - 1 !in places {
      x := n - 1;
    } else {
      var i :| 0 <= i < |places| && places[i] == n - 1;
      var rest := places[..i] + places[i + 1..];
      x := Unused(rest, n - 1);
      assert forall y :: y in places ==> y == n - 1 || y in rest;
    }
  }

  /** And every choice of fewer than all peers can come up, in every order. */
  lemma AnyChoice(peers: seq<string>, places: seq<nat>) returns (perm: seq<nat>)
    requires |places| < |peers| && Places(places, |peers|)
    ensures IsPerm(perm, |peers|) && Picked(peers, |places|, perm) == AtPlaces(peers, places)
  {
    perm := Completed(places, |peers|);
  }

  function Injected(cfg: Config, self: string, id: string, body: seq<Byte>, ttl: int, now: int): Rumor {
    Rumor(id, if ttl <= 0 then cfg.ttl else ttl, body, self, now)
  }

  /** One rumor of a push. */
  function TakePushed(s: Memory, r: Rumor): Memory {
    if r.ttl <= 0 then s else Added(s, r.(ttl := r.ttl - 1))
  }

  /** One rumor of a fetch reply: kept with the TTL it came with. */
  function TakeFetched(s: Memory, r: Rumor): Memory {
    if r.ttl <= 0 then s else Added(s, r)
  }

  function TakeAllPushed(s: Memory, rs: seq<Rumor>): Memory {
    if rs == [] then s else TakePushed(TakeAllPushed(s, rs[..|rs| - 1]), rs[|rs| - 1])
  }

  function TakeAllFetched(s: Memory, rs: seq<Rumor>): Memory {
    if rs == [] then s else TakeFetched(TakeAllFetched(s, rs[..|rs| - 1]), rs[|rs| - 1])
  }

  function SendAll(src: string, dsts: seq<string>, m: Msg): (out: seq<Envelope>)
    ensures |out| == |dsts| && forall i :: 0 <= i < |out| ==> out[i] == Envelope(src, dsts[i], m)
  {
    seq(|dsts|, i requires 0 <= i < |dsts| => Envelope(src, dsts[i], m))
  }

  function TickSends(cfg: Config, self: string, s: Memory, perm: seq<nat>): seq<Envelope>
    requires Coherent(s) && IsPerm(perm, |cfg.peers|)
  {
    if s.queue == [] then [] else SendAll(self, Picked(cfg.peers, cfg.fanout, perm), Push(Pushable(s)))
  }

  function Without(a: seq<string>, b: seq<string>): (out: seq<string>)
    ensures forall x :: x in out <==> x in a && x !in b
  {
    if a == [] then []
    else
      var rest := Without(a[..|a| - 1], b);
      var x := a[|a| - 1];
      if x in b then rest else rest + [x]
  }

  ghost predicate KeptAt(a: seq<string>, b: seq<string>, at: seq<nat>) {
    |Without(a, b)| == |at| && forall i :: 0 <= i < |at| ==> at[i] < |a| && Without(a, b)[i] == a[at[i]]
  }

  /** The result keeps the elements b lacks, all of them and in order. */
  lemma {:induction false} WithoutKeeps(a: seq<string>, b: seq<string>) returns (at: seq<nat>)
    ensures Selects(a, at, iset x | x !in b) && KeptAt(a, b, at)
  {
    hide Selects;
    var wanted := iset x | x !in b;
    if a == [] {
      at := [];
      SelectsNone(wanted);
    } else {
      var last := |a| - 1;
      at := WithoutKeeps(a[..last], b);
      SelectsMore(a, at, wanted);
      if a[last] !in b {
        at := at + [last];
      }
    }
  }

  function DigestSends(cfg: Config, self: string, ids: seq<string>, perm: seq<nat>): seq<Envelope>
    requires IsPerm(perm, |cfg.peers|)
  {
    if cfg.peers == [] || ids == [] then []
    else [Envelope(self, Picked(cfg.peers, 1, perm)[0], Digest(ids))]
  }

  /** Every peer is sent the digest for some permutation. */
  lemma AnyPeerAsked(cfg: Config, self: string, ids: seq<string>, q: string) returns (perm: seq<nat>)
    requires q in cfg.peers && ids != []
    ensures IsPerm(perm, |cfg.peers|) && DigestSends(cfg, self, ids, perm) == [Envelope(self, q, Digest(ids))]
  {
    var x: nat :| x < |cfg.peers| && cfg.peers[x] == q;
    perm := Completed([x], |cfg.peers|);
  }

  function MissingSends(self: string, ours: seq<string>, theirs: seq<string>, remote: string): seq<Envelope> {
    if Without(ours, theirs) == [] then [] else [Envelope(self, remote, Missing(Without(ours, theirs)))]
  }

  function FetchSends(self: string, s: Memory, ids: seq<string>, remote: string): seq<Envelope>
    requires Coherent(s)
  {
    if Found(s, ids) == [] then [] else [Envelope(self, remote, FetchRep(Found(s, ids)))]
  }

  lemma FoundMembers(s: Memory, ids: seq<string>)
    requires Coherent(s)
    ensures forall r :: r in Found(s, ids) <==> r.id in ids && r.id in s.seen && s.seen[r.id] == r
    ensures Found(s, ids) == [] <==> forall x :: x in ids ==> x !in s.seen
  {
    var at := FoundAll(s, ids);
    forall r: Rumor | r.id in ids && r.id in s.seen && s.seen[r.id] == r
      ensures r in Found(s, ids)
    {
      var x: nat :| x < |ids| && ids[x] == r.id;
      var i :| 0 <= i < |at| && at[i] == x;
      assert Found(s, ids)[i] == r;
    }
  }

  // ----------------------------------------------------- rumors taken one by one

  predicate Alive(r: Rumor, id: string) {
    r.id == id && r.ttl > 0
  }

  predicate FirstAlive(rs: seq<Rumor>, id: string, i: nat) {
    i < |rs| && Alive(rs[i], id) && forall k :: 0 <= k < i ==> !Alive(rs[k], id)
  }

  /**
   What taking rs leaves of an ID: the copy already known, or else the first one
   that may still travel, at the given cost; and a new ID waits for its push.
   */
  ghost predicate TakesFirst(s: Memory, rs: seq<Rumor>, cost: int, id: string, t: Memory) {
    && s.queue <= t.queue
    && (id in t.seen <==> id in s.seen || exists i: nat :: FirstAlive(rs, id, i))
    && (id in s.seen ==> t.seen[id] == s.seen[id] && id !in t.queue[|s.queue|..])
    && (id !in s.seen ==>
          forall i: nat :: FirstAlive(rs, id, i) ==>
            t.seen[id] == rs[i].(ttl := rs[i].ttl - cost) && id in t.queue[|s.queue|..])
  }

  lemma OneMore(s: Memory, rs: seq<Rumor>, cost: int, id: string, t: Memory, t': Memory)
    requires rs != [] && TakesFirst(s, rs[..|rs| - 1], cost, id, t)
    requires var r := rs[|rs| - 1];
      t' == if r.ttl <= 0 then t else Added(t, r.(ttl := r.ttl - cost))
    ensures TakesFirst(s, rs, cost, id, t')
  {
    var last := |rs| - 1;
    assert forall i: nat :: i < last ==> (FirstAlive(rs, id, i) <==> FirstAlive(rs[..last], id, i));
    if t' != t {
      assert t'.queue[|s.queue|..] == t.queue[|s.queue|..] + [rs[last].id];
    }
    if id !in t.seen && Alive(rs[last], id) {
      SomeAlive(rs[..last], id);
      assert FirstAlive(rs, id, last);
    }
  }

  /** Where some copy is alive there is a first one. */
  lemma {:induction false} SomeAlive(rs: seq<Rumor>, id: string)
    ensures (exists i: nat :: FirstAlive(rs, id, i)) || forall k :: 0 <= k < |rs| ==> !Alive(rs[k], id)
  {
    if rs != [] {
      var last := |rs| - 1;
      SomeAlive(rs[..last], id);
      if i: nat :| FirstAlive(rs[..last], id, i) {
        assert FirstAlive(rs, id, i);
      } else if Alive(rs[last], id) {
        assert FirstAlive(rs, id, last);
      }
    }
  }

  lemma {:induction false} PushTaken(s: Memory, rs: seq<Rumor>, id: string)
    ensures TakesFirst(s, rs, 1, id, TakeAllPushed(s, rs))
  {
    if rs != [] {
      PushTaken(s, rs[..|rs| - 1], id);
      OneMore(s, rs, 1, id, TakeAllPushed(s, rs[..|rs| - 1]), TakeAllPushed(s, rs));
    }
  }

  lemma {:induction false} FetchTaken(s: Memory, rs: seq<Rumor>, id: string)
    ensures TakesFirst(s, rs, 0, id, TakeAllFetched(s, rs))
  {
    if rs != [] {
      FetchTaken(s, rs[..|rs| - 1], id);
      OneMore(s, rs, 0, id, TakeAllFetched(s, rs[..|rs| - 1]), TakeAllFetched(s, rs));
    }
  }

  /** diff: the elements of a that b lacks, in the order of a. */
  method Diff(a: seq<string>, b: seq<string>) returns (out: seq<string>)
    ensures out == Without(a, b)
  {
    var bset: set<string> := {};
    var i := 0;
    while i < |b|
      invariant 0 <= i <= |b|
      invariant forall x :: x in bset <==> x in b[..i]
    {
      assert b[..i + 1] == b[..i] + [b[i]];
      bset := bset + {b[i]};
      i := i + 1;
    }
    assert b[..|b|] == b;
    out := [];
    i := 0;
    while i < |a|
      invariant 0 <= i <= |a|
      invariant out == Without(a[..i], b)
    {
      assert a[..i + 1][..i] == a[..i];
      if a[i] !in bset {
        out := out + [a[i]];
      }
      i := i + 1;
    }
    assert a[..|a|] == a;
  }

  class Node {
    const id: string
    const cfg: Config
    const store: Store

    constructor (id: string, cfg: Config)
      ensures this.id == id && this.cfg == cfg && fresh(store)
      ensures store.State() == BLANK && Coherent(store.State())
    {
      this.id, this.cfg := id, cfg;
      store := new Store();
    }

    method Inject(rid: string, body: seq<Byte>, ttl: int, now: int)
      requires Coherent(store.State())
      modifies store
      ensures store.State() == Added(old(store.State()), Injected(cfg, id, rid, body, ttl, now))
      ensures Coherent(store.State())
      ensures rid in old(store.seen) ==> store.State() == old(store.State())
      ensures rid !in old(store.seen) ==>
        && store.seen == old(store.seen)[rid := Rumor(rid, if ttl > 0 then ttl else cfg.ttl, body, id, now)]
        && store.newIDs == old(store.newIDs) + [rid]
    {
      var t := ttl;
      if t <= 0 {
        t := cfg.ttl;
      }
      var isNew := store.Add(Rumor(rid, t, body, id, now));
    }

    method PickPeers(k: nat, perm: seq<nat>) returns (out: seq<string>)
      requires IsPerm(perm, |cfg.peers|)
      ensures out == Picked(cfg.peers, k, perm) && Chosen(out, cfg.peers, k)
    {
      PickedIsChoice(cfg.peers, k, perm);
      if |cfg.peers| == 0 {
        return [];
      }
      if k >= |cfg.peers| {
        return cfg.peers;
      }
      out := [];
      var i := 0;
      while i < k
        invariant 0 <= i <= k
        invariant out == Picked(cfg.peers, k, perm)[..i]
      {
        out := out + [cfg.peers[perm[i]]];
        i := i + 1;
      }
    }

    method TickOnce(perm: seq<nat>) returns (sent: seq<Envelope>)
      requires Coherent(store.State()) && IsPerm(perm, |cfg.peers|)
      modifies store
      ensures sent == TickSends(cfg, id, old(store.State()), perm)
      ensures store.State() == old(store.State()).(queue := []) && Coherent(store.State())
    {
      sent := [];
      var rs := store.ReadyToPush();
      if |rs| == 0 {
        return;
      }
      var peers := PickPeers(cfg.fanout, perm);
      var i := 0;
      while i < |peers|
        invariant 0 <= i <= |peers|
        invariant sent == SendAll(id, peers, Push(rs))[..i]
      {
        sent := sent + [Envelope(id, peers[i], Push(rs))];
        i := i + 1;
      }
    }

    method HandlePush(rs: seq<Rumor>)
      requires Coherent(store.State())
      modifies store
      ensures store.State() == TakeAllPushed(old(store.State()), rs) && Coherent(store.State())
    {
      var i := 0;
      while i < |rs|
        invariant 0 <= i <= |rs| && Coherent(store.State())
        invariant store.State() == TakeAllPushed(old(store.State()), rs[..i])
      {
        assert rs[..i + 1][..i] == rs[..i];
        if rs[i].ttl > 0 {
          var isNew := store.Add(rs[i].(ttl := rs[i].ttl - 1));
        }
        i := i + 1;
      }
      assert rs[..|rs|] == rs;
    }

    method HandleFetchRep(rs: seq<Rumor>)
      requires Coherent(store.State())
      modifies store
      ensures store.State() == TakeAllFetched(old(store.State()), rs) && Coherent(store.State())
    {
      var i := 0;
      while i < |rs|
        invariant 0 <= i <= |rs| && Coherent(store.State())
        invariant store.State() == TakeAllFetched(old(store.State()), rs[..i])
      {
        assert rs[..i + 1][..i] == rs[..i];
        if rs[i].ttl > 0 {
          var isNew := store.Add(rs[i]);
        }
        i := i + 1;
      }
      assert rs[..|rs|] == rs;
    }

    method SendDigest(perm: seq<nat>) returns (ghost ids: seq<string>, sent: seq<Envelope>)
      requires IsPerm(perm, |cfg.peers|)
      ensures Lists(ids, store.State()) && sent == DigestSends(cfg, id, ids, perm)
      ensures sent == [] <==> cfg.peers == [] || store.seen == map[]
      ensures sent != [] ==>
        |sent| == 1 && sent[0].dst in cfg.peers && sent[0].msg.Digest? && Lists(sent[0].msg.ids, store.State())
    {
      sent := [];
      var peers := PickPeers(1, perm);
      var d := store.Digest();
      ids := d;
      assert store.seen == map[] <==> d == [] by {
        assert d != [] ==> d[0] in d;
        assert d == [] ==> store.seen == map[];
      }
      if |peers| == 0 || |d| == 0 {
        return;
      }
      sent := [Envelope(id, peers[0], Digest(d))];
    }

    method HandleDigest(theirs: seq<string>, remote: string) returns (ghost ours: seq<string>, sent: seq<Envelope>)
      ensures Lists(ours, store.State()) && sent == MissingSends(id, ours, theirs, remote)
      ensures sent == [] <==> forall x :: x in store.seen ==> x in theirs
      ensures sent != [] ==> |sent| == 1 && sent[0].dst == remote && sent[0].msg.Missing?
                             && forall x :: x in sent[0].msg.ids <==> x in store.seen && x !in theirs
    {
      sent := [];
      var d := store.Digest();
      ours := d;
      var missing := Diff(d, theirs);
      if |missing| > 0 {
        assert missing[0] in missing;
        sent := [Envelope(id, remote, Missing(missing))];
      }
    }

    method HandleMissing(ids: seq<string>, remote: string) returns (sent: seq<Envelope>)
      requires Coherent(store.State())
      ensures sent == FetchSends(id, store.State(), ids, remote)
      ensures sent == [] <==> forall x :: x in ids ==> x !in store.seen
      ensures sent != [] ==> |sent| == 1 && sent[0].dst == remote && sent[0].msg.FetchRep?
                             && forall r :: r in sent[0].msg.rumors <==>
                                  r.id in ids && r.id in store.seen && store.seen[r.id] == r
    {
      FoundMembers(store.State(), ids);
      sent := [];
      var rs := store.LookupMany(ids);
      if |rs| != 0 {
        sent := [Envelope(id, remote, FetchRep(rs))];
      }
    }

    /** Handle: the dispatch on the message's type. */
    method Handle(m: Msg, remote: string) returns (ghost ours: seq<string>, sent: seq<Envelope>)
      requires Coherent(store.State())
      modifies store
      ensures Coherent(store.State()) && (m.Digest? ==> Lists(ours, old(store.State())))
      ensures match m
        case Push(rs) => store.State() == TakeAllPushed(old(store.State()), rs) && sent == []
        case Digest(ids) => store.State() == old(store.State()) && sent == MissingSends(id, ours, ids, remote)
        case Missing(ids) =>
          store.State() == old(store.State()) && sent == FetchSends(id, old(store.State()), ids, remote)
        case FetchRep(rs) => store.State() == TakeAllFetched(old(store.State()), rs) && sent == []
    {
      ours, sent := [], [];
      match m
      case Push(rs) => HandlePush(rs);
      case Digest(ids) => ours, sent := HandleDigest(ids, remote);
      case Missing(ids) => sent := HandleMissing(ids, remote);
      case FetchRep(rs) => HandleFetchRep(rs);
    }
  }
}
