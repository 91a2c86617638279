/**
 The rumor store of a gossip node: what it has seen, and which IDs wait for
 their one push.
 */
module GossipStore {
  type Byte = b: nat | b < 256

  datatype Rumor = Rumor(id: string, ttl: int, body: seq<Byte>, origin: string, injectTS: int)

  datatype Memory = Memory(seen: map<string, Rumor>, queue: seq<string>)

  const BLANK := Memory(map[], [])

  predicate Distinct(ids: seq<string>) {
    forall i, k :: 0 <= i < k < |ids| ==> ids[i] != ids[k]
  }

  /** Rumors are filed under their own ID; the queue lists seen IDs, none twice. */
  predicate Coherent(s: Memory) {
    && (forall id :: id in s.seen ==> s.seen[id].id == id)
    && (forall i :: 0 <= i < |s.queue| ==> s.queue[i] in s.seen)
    && Distinct(s.queue)
  }

  function Added(s: Memory, r: Rumor): Memory {
    if r.id in s.seen then s else Memory(s.seen[r.id := r], s.queue + [r.id])
  }

  lemma AddedCoherent(s: Memory, r: Rumor)
    requires Coherent(s)
    ensures Coherent(Added(s, r))
    ensures forall id :: id in s.seen ==> id in Added(s, r).seen && Added(s, r).seen[id] == s.seen[id]
  {
    var t := Added(s, r);
    if r.id !in s.seen {
      forall i, k | 0 <= i < k < |t.queue|
        ensures t.queue[i] != t.queue[k]
      {
        assert k < |s.queue| || t.queue[k] == r.id;
      }
    }
  }

  /** The rumors a tick takes, in the order in which they were learned. */
  function Pushable(s: Memory): (rs: seq<Rumor>)
    requires Coherent(s)
    ensures |rs| == |s.queue| && forall i :: 0 <= i < |rs| ==> rs[i] == s.seen[s.queue[i]] && rs[i].id == s.queue[i]
  {
    seq(|s.queue|, i requires 0 <= i < |s.queue| => s.seen[s.queue[i]])
  }

  /** ids lists the keys of the store, each once, in any order. */
  ghost predicate Lists(ids: seq<string>, s: Memory) {
    Distinct(ids) && forall id :: id in ids <==> id in s.seen
  }

  function Found(s: Memory, ids: seq<string>): (rs: seq<Rumor>)
    requires forall id :: id in s.seen ==> s.seen[id].id == id
    ensures forall r :: r in rs ==> r.id in ids && r.id in s.seen && s.seen[r.id] == r
  {
    if ids == [] then []
    else
      var rest := Found(s, ids[..|ids| - 1]);
      var id := ids[|ids| - 1];
      if id in s.seen then rest + [s.seen[id]] else rest
  }

  /** at lists, in order, all places of a whose element is wanted. */
  ghost predicate Selects(a: seq<string>, at: seq<nat>, wanted: iset<string>) {
    && (forall i :: 0 <= i < |at| ==> at[i] < |a| && a[at[i]] in wanted)
    && (forall i, k :: 0 <= i < k < |at| ==> at[i] < at[k])
    && (forall x: nat :: x < |a| && a[x] in wanted ==> Mentions(at, x))
  }

  predicate Mentions(at: seq<nat>, x: nat) {
    x in at
  }

  lemma SelectsMore(a: seq<string>, at: seq<nat>, wanted: iset<string>)
    requires a != [] && Selects(a[..|a| - 1], at, wanted)
    ensures Selects(a, if a[|a| - 1] in wanted then at + [|a| - 1] else at, wanted)
    ensures forall i :: 0 <= i < |at| ==> at[i] < |a| - 1 && a[..|a| - 1][at[i]] == a[at[i]]
  {
    hide Mentions;
    var last := |a| - 1;
    assert forall x: nat :: x < last ==> a[..last][x] == a[x];
    ListedMore(at, last);
  }

  lemma ListedMore(at: seq<nat>, last: nat)
    ensures Mentions(at + [last], last) && forall x :: Mentions(at, x) ==> Mentions(at + [last], x)
  {
  }

  lemma SelectsNone(wanted: iset<string>)
    ensures Selects([], [], wanted)
  {
  }

  /** The rumors found at these places. */
  ghost predicate FoundAt(s: Memory, ids: seq<string>, at: seq<nat>) {
    && (forall id :: id in s.seen ==> s.seen[id].id == id)
    && |Found(s, ids)| == |at|
    && forall i :: 0 <= i < |at| ==>
         at[i] < |ids| && ids[at[i]] in s.seen && Found(s, ids)[i] == s.seen[ids[at[i]]]
  }

  /** A lookup returns the known rumors among those asked for, all of them and in the order asked. */
  lemma {:induction false} FoundAll(s: Memory, ids: seq<string>) returns (at: seq<nat>)
    requires forall id :: id in s.seen ==> s.seen[id].id == id
    ensures Selects(ids, at, iset id | id in s.seen) && FoundAt(s, ids, at)
  {
    hide Selects;
    var wanted := iset id | id in s.seen;
    if ids == [] {
      at := [];
      SelectsNone(wanted);
    } else {
      var last := |ids| - 1;
      at := FoundAll(s, ids[..last]);
      SelectsMore(ids, at, wanted);
      if ids[last] in s.seen {
        at := at + [last];
      }
    }
  }

  class Store {
    var seen: map<string, Rumor>
    var newIDs: seq<string>

    ghost function State(): Memory
      reads this
    {
      Memory(seen, newIDs)
    }

    constructor ()
      ensures State() == BLANK && Coherent(State())
    {
      seen, newIDs := map[], [];
    }

    method Add(r: Rumor) returns (isNew: bool)
      requires Coherent(State())
      modifies this
      ensures State() == Added(old(State()), r) && Coherent(State())
      ensures isNew <==> r.id !in old(seen)
    {
      AddedCoherent(State(), r);
      if r.id in seen {
        return false;
      }
      seen := seen[r.id := r];
      newIDs := newIDs + [r.id];
      return true;
    }

    method ReadyToPush() returns (out: seq<Rumor>)
      requires Coherent(State())
      modifies this
      ensures out == Pushable(old(State()))
      ensures State() == old(State()).(queue := []) && Coherent(State())
    {
      out := [];
      if |newIDs| == 0 {
        return;
      }
      var i := 0;
      while i < |newIDs|
        invariant 0 <= i <= |newIDs| && State() == old(State())
        invariant out == Pushable(old(State()))[..i]
      {
        out := out + [seen[newIDs[i]]];
        i := i + 1;
      }
      newIDs := [];
    }

    method Digest() returns (ids: seq<string>)
      ensures Lists(ids, State())
    {
      ids := [];
      var left := seen.Keys;
      while left != {}
        invariant left <= seen.Keys && Distinct(ids)
        invariant forall id :: id in ids <==> id in seen && id !in left
        decreases left
      {
        var id :| id in left;
        ids := ids + [id];
        left := left - {id};
      }
    }

    method LookupMany(ids: seq<string>) returns (out: seq<Rumor>)
      requires Coherent(State())
      ensures out == Found(State(), ids)
    {
      out := [];
      var i := 0;
      while i < |ids|
        invariant 0 <= i <= |ids|
        invariant out == Found(State(), ids[..i])
      {
        assert ids[..i + 1][..i] == ids[..i];
        if ids[i] in seen {
          out := out + [seen[ids[i]]];
        }
        i := i + 1;
      }
      assert ids[..|ids|] == ids;
    }
  }
}
