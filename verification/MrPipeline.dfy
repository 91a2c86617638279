/**
 What a MapReduce job computes: group all emitted pairs by key, reduce each
 group, list the results by increasing key. And that cutting the pairs into
 shards by a hash of the key, reducing the shards one by one and merging the
 outputs gives the same list, whatever the hash and the number of shards.
 */
module MrPipeline {
  import opened MrOrder

  datatype KeyValue = KeyValue(key: string, value: string)

  datatype Input = Input(file: string, contents: string)

  /** The input files, the number of shards, the hash, and the user's two functions. */
  datatype Job = Job(
    name: string,
    inputs: seq<Input>,
    nReduce: nat,
    hash: string -> nat,
    mapF: (string, string) -> seq<KeyValue>,
    reduceF: (string, seq<string>) -> string)
  {
    /** What map task m emits. */
    function Emits(m: nat): seq<KeyValue>
      requires m < |inputs|
    {
      mapF(inputs[m].file, inputs[m].contents)
    }

    function Pairs(): (p: seq<seq<KeyValue>>)
      ensures |p| == |inputs| && forall m :: 0 <= m < |p| ==> p[m] == Emits(m)
    {
      seq(|inputs|, m requires 0 <= m < |inputs| => Emits(m))
    }
  }

  // -------------------------------------------------------------- the meaning

  ghost function Keys(kvs: seq<KeyValue>): set<string> {
    set kv | kv in kvs :: kv.key
  }

  /** The values of a key, in order of emission. */
  function Values(k: string, kvs: seq<KeyValue>): seq<string> {
    if kvs == [] then []
    else (if kvs[0].key == k then [kvs[0].value] else []) + Values(k, kvs[1..])
  }

  /** The pairs of a table, one per key, by increasing key. */
  ghost function Listing(t: map<string, string>): seq<KeyValue> {
    var ks := SortedKeys(t.Keys);
    seq(|ks|, i requires 0 <= i < |ks| => assert ks[i] in Elements(ks); KeyValue(ks[i], t[ks[i]]))
  }

  ghost function Reduced(kvs: seq<KeyValue>, reduceF: (string, seq<string>) -> string): map<string, string> {
    map k | k in Keys(kvs) :: reduceF(k, Values(k, kvs))
  }

  /** The simple program the sharded one must equal. */
  ghost function GroupBy(kvs: seq<KeyValue>, reduceF: (string, seq<string>) -> string): seq<KeyValue> {
    Listing(Reduced(kvs, reduceF))
  }

  function Flatten(parts: seq<seq<KeyValue>>): seq<KeyValue> {
    if parts == [] then [] else parts[0] + Flatten(parts[1..])
  }

  ghost function Meaning(j: Job): seq<KeyValue> {
    GroupBy(Flatten(j.Pairs()), j.reduceF)
  }

  // ----------------------------------------------------------------- sharding

  function Shard(j: Job, key: string): (r: nat)
    requires j.nReduce >= 1
    ensures r < j.nReduce
  {
    j.hash(key) % j.nReduce
  }

  /** The pairs of one reduce task, in order. */
  function Part(j: Job, kvs: seq<KeyValue>, r: nat): seq<KeyValue>
    requires j.nReduce >= 1
  {
    if kvs == [] then []
    else (if Shard(j, kvs[0].key) == r then [kvs[0]] else []) + Part(j, kvs[1..], r)
  }

  lemma {:induction false} PartJoin(j: Job, a: seq<KeyValue>, b: seq<KeyValue>, r: nat)
    requires j.nReduce >= 1
    ensures Part(j, a + b, r) == Part(j, a, r) + Part(j, b, r)
  {
    if a == [] {
      assert a + b == b;
    } else {
      assert (a + b)[1..] == a[1..] + b;
      PartJoin(j, a[1..], b, r);
    }
  }

  lemma {:induction false} ValuesJoin(k: string, a: seq<KeyValue>, b: seq<KeyValue>)
    ensures Values(k, a + b) == Values(k, a) + Values(k, b)
  {
    if a == [] {
      assert a + b == b;
    } else {
      assert (a + b)[1..] == a[1..] + b;
      ValuesJoin(k, a[1..], b);
    }
  }

  /** The shard of map task m for reduce task r, for every m. */
  function Column(j: Job, r: nat): (parts: seq<seq<KeyValue>>)
    requires j.nReduce >= 1
    ensures |parts| == |j.inputs|
  {
    seq(|j.inputs|, m requires 0 <= m < |j.inputs| => Part(j, j.Emits(m), r))
  }

  /** Reading a reduce task's files in task order gives exactly its shard of all pairs. */
  lemma ColumnIsShard(j: Job, r: nat)
    requires j.nReduce >= 1
    ensures Flatten(Column(j, r)) == Part(j, Flatten(j.Pairs()), r)
  {
    FlattenParts(j, j.Pairs(), Column(j, r), r);
  }

  lemma {:induction false} FlattenParts(j: Job, pairs: seq<seq<KeyValue>>, parts: seq<seq<KeyValue>>, r: nat)
    requires j.nReduce >= 1 && |parts| == |pairs|
    requires forall m :: 0 <= m < |pairs| ==> parts[m] == Part(j, pairs[m], r)
    ensures Flatten(parts) == Part(j, Flatten(pairs), r)
  {
    if pairs != [] {
      FlattenParts(j, pairs[1..], parts[1..], r);
      PartJoin(j, pairs[0], Flatten(pairs[1..]), r);
    }
  }

  /** A shard holds a key with all of its values or not at all. */
  lemma {:induction false} ShardValues(j: Job, kvs: seq<KeyValue>, r: nat, k: string)
    requires j.nReduce >= 1
    ensures Values(k, Part(j, kvs, r)) == if Shard(j, k) == r then Values(k, kvs) else []
  {
    if kvs != [] {
      ShardValues(j, kvs[1..], r, k);
      var rest := Part(j, kvs[1..], r);
      if Shard(j, kvs[0].key) == r {
        ValuesJoin(k, [kvs[0]], rest);
        assert [kvs[0]][1..] == [];
      } else {
        assert Part(j, kvs, r) == rest;
      }
    }
  }

  lemma {:induction false} HasValues(k: string, kvs: seq<KeyValue>)
    ensures k in Keys(kvs) <==> Values(k, kvs) != []
  {
    if kvs != [] {
      HasValues(k, kvs[1..]);
      assert kvs == [kvs[0]] + kvs[1..];
      assert k in Keys(kvs) <==> k == kvs[0].key || k in Keys(kvs[1..]);
    }
  }

  lemma ShardReduced(j: Job, kvs: seq<KeyValue>, r: nat, k: string)
    requires j.nReduce >= 1
    ensures k in Reduced(Part(j, kvs, r), j.reduceF) <==> k in Reduced(kvs, j.reduceF) && Shard(j, k) == r
    ensures k in Reduced(kvs, j.reduceF) && Shard(j, k) == r ==>
      Reduced(Part(j, kvs, r), j.reduceF)[k] == Reduced(kvs, j.reduceF)[k]
  {
    ShardValues(j, kvs, r, k);
    HasValues(k, kvs);
    HasValues(k, Part(j, kvs, r));
  }

  // ------------------------------------------------------------------ merging

  /** Reading a listing back into a table, later pairs winning. */
  function Load(t: map<string, string>, kvs: seq<KeyValue>): map<string, string>
    decreases |kvs|
  {
    if kvs == [] then t else Load(t[kvs[0].key := kvs[0].value], kvs[1..])
  }

  /** Every pair of the listing is an entry of the table. */
  ghost predicate From(l: seq<KeyValue>, u: map<string, string>) {
    forall i :: 0 <= i < |l| ==> l[i].key in u && l[i].value == u[l[i].key]
  }

  lemma ListingIsFrom(u: map<string, string>)
    ensures From(Listing(u), u) && Keys(Listing(u)) == u.Keys
  {
    var ks := SortedKeys(u.Keys);
    var l := Listing(u);
    forall i | 0 <= i < |l|
      ensures l[i].key == ks[i] && l[i].key in u && l[i].value == u[l[i].key] && l[i].key in Keys(l)
    {
      assert ks[i] in Elements(ks);
      assert l[i] in l;
    }
    forall k | k in u.Keys
      ensures k in Keys(l)
    {
      assert k in Elements(ks);
      var i :| 0 <= i < |ks| && ks[i] == k;
      assert l[i].key == k;
    }
  }

  lemma {:induction false} LoadPairs(t: map<string, string>, u: map<string, string>, l: seq<KeyValue>)
    requires From(l, u)
    ensures Load(t, l).Keys == t.Keys + Keys(l)
    ensures forall k :: k in Load(t, l) ==> Load(t, l)[k] == if k in Keys(l) then u[k] else t[k]
    decreases |l|
  {
    if l != [] {
      var t1 := t[l[0].key := l[0].value];
      assert From(l[1..], u);
      LoadPairs(t1, u, l[1..]);
      FirstKey(l);
    }
  }

  lemma FirstKey(l: seq<KeyValue>)
    requires l != []
    ensures Keys(l) == {l[0].key} + Keys(l[1..])
  {
    assert l == [l[0]] + l[1..];
  }

  /** Loading the listing of a table lays that table over the one already read. */
  lemma LoadListing(t: map<string, string>, u: map<string, string>)
    ensures Load(t, Listing(u)) == t + u
  {
    hide Listing, Load;
    ListingIsFrom(u);
    LoadPairs(t, u, Listing(u));
  }

  /** The output of reduce task r. */
  ghost function ReducerOutput(j: Job, r: nat): seq<KeyValue>
    requires j.nReduce >= 1
  {
    GroupBy(Flatten(Column(j, r)), j.reduceF)
  }

  /** The table after the outputs of reduce tasks 0 to upto - 1 were read. */
  ghost function Merged(j: Job, upto: nat): map<string, string>
    requires j.nReduce >= 1
  {
    if upto == 0 then map[] else Load(Merged(j, upto - 1), ReducerOutput(j, upto - 1))
  }

  /** After reading some outputs the table has exactly the keys of those shards, fully reduced. */
  lemma {:induction false} MergedIsPartial(j: Job, upto: nat)
    requires 1 <= j.nReduce && upto <= j.nReduce
    ensures var all := Reduced(Flatten(j.Pairs()), j.reduceF);
      Merged(j, upto) == map k | k in all && Shard(j, k) < upto :: all[k]
  {
    hide Listing, Load, Part, Values, Flatten, Reduced;
    if upto > 0 {
      var kvs := Flatten(j.Pairs());
      var all := Reduced(kvs, j.reduceF);
      var r := upto - 1;
      MergedIsPartial(j, r);
      ColumnIsShard(j, r);
      var u := Reduced(Part(j, kvs, r), j.reduceF);
      LoadListing(Merged(j, r), u);
      forall k: string
        ensures k in u <==> k in all && Shard(j, k) == r
        ensures k in u ==> u[k] == all[k]
      {
        ShardReduced(j, kvs, r, k);
      }
    }
  }

  /** Sharding preserves meaning: the merged output is the plain group-by of all emitted pairs. */
  lemma ShardingPreservesMeaning(j: Job)
    requires j.nReduce >= 1
    ensures Listing(Merged(j, j.nReduce)) == Meaning(j)
  {
    MergedIsPartial(j, j.nReduce);
    var all := Reduced(Flatten(j.Pairs()), j.reduceF);
    assert Merged(j, j.nReduce) == all;
  }

  /** Hence the number of reduce tasks and the hash make no difference. */
  lemma ShardingIsInvisible(j: Job, n: nat, h: string -> nat)
    requires j.nReduce >= 1 && n >= 1
    ensures var j' := j.(nReduce := n, hash := h);
      Listing(Merged(j', n)) == Listing(Merged(j, j.nReduce))
  {
    hide Merged, Listing, GroupBy, Flatten;
    var j' := j.(nReduce := n, hash := h);
    ShardingPreservesMeaning(j);
    ShardingPreservesMeaning(j');
    assert j'.Pairs() == j.Pairs();
  }

  // ------------------------------------------------- the meaning, pair by pair

  /** Where a pair was emitted: its map task and its place there. */
  datatype Place = Place(task: nat, at: nat)

  predicate Before(x: Place, y: Place) {
    x.task < y.task || (x.task == y.task && x.at < y.at)
  }

  predicate Emitted(parts: seq<seq<KeyValue>>, x: Place, k: string) {
    x.task < |parts| && x.at < |parts[x.task]| && parts[x.task][x.at].key == k
  }

  /** vals are the values emitted under k from `from` on, each once, at these places, in order of task and emission. */
  ghost predicate Gathers(parts: seq<seq<KeyValue>>, k: string, from: Place, places: seq<Place>, vals: seq<string>) {
    && |places| == |vals|
    && (forall i :: 0 <= i < |places| ==>
          Emitted(parts, places[i], k) && !Before(places[i], from)
          && parts[places[i].task][places[i].at].value == vals[i])
    && (forall i, j :: 0 <= i < j < |places| ==> Before(places[i], places[j]))
    && (forall x :: Emitted(parts, x, k) && !Before(x, from) ==> x in places)
  }

  ghost predicate Gathered(parts: seq<seq<KeyValue>>, k: string, vals: seq<string>) {
    exists places :: Gathers(parts, k, Place(0, 0), places, vals)
  }

  lemma GatherOne(parts: seq<seq<KeyValue>>, k: string, from: Place, places: seq<Place>, vals: seq<string>)
    requires Emitted(parts, from, k) && Gathers(parts, k, Place(from.task, from.at + 1), places, vals)
    ensures Gathers(parts, k, from, [from] + places, [parts[from.task][from.at].value] + vals)
  {
    var more, vals' := [from] + places, [parts[from.task][from.at].value] + vals;
    assert forall i :: 0 < i < |more| ==> more[i] == places[i - 1] && vals'[i] == vals[i - 1];
    assert more[0] == from;
    forall x | Emitted(parts, x, k) && !Before(x, from)
      ensures x in more
    {
      assert x == from || x in places;
    }
  }

  lemma GatherSkip(parts: seq<seq<KeyValue>>, k: string, from: Place, to: Place, places: seq<Place>, vals: seq<string>)
    requires Gathers(parts, k, to, places, vals) && Before(from, to)
    requires forall x :: Emitted(parts, x, k) && !Before(x, from) ==> !Before(x, to)
    ensures Gathers(parts, k, from, places, vals)
  {
    hide Emitted;
  }

  /** The values of k emitted from `from` on. */
  function ValuesFrom(parts: seq<seq<KeyValue>>, k: string, from: Place): seq<string>
    requires from.task < |parts| && from.at <= |parts[from.task]|
  {
    Values(k, parts[from.task][from.at..]) + Values(k, Flatten(parts[from.task + 1..]))
  }

  lemma ValuesOnward(parts: seq<seq<KeyValue>>, k: string, from: Place)
    requires from.task < |parts| && from.at <= |parts[from.task]|
    ensures var part := parts[from.task];
      && (from.at < |part| ==>
            ValuesFrom(parts, k, from) == (if part[from.at].key == k then [part[from.at].value] else [])
                                            + ValuesFrom(parts, k, Place(from.task, from.at + 1)))
      && (from.at == |part| && from.task + 1 < |parts| ==>
            ValuesFrom(parts, k, from) == ValuesFrom(parts, k, Place(from.task + 1, 0)))
      && (from.at == |part| && from.task + 1 == |parts| ==> ValuesFrom(parts, k, from) == [])
  {
    var part := parts[from.task];
    if from.at < |part| {
      assert part[from.at..][1..] == part[from.at + 1..];
    } else if from.task + 1 < |parts| {
      FlatValues(k, parts[from.task + 1..]);
      assert parts[from.task + 1][0..] == parts[from.task + 1];
      assert parts[from.task + 1..][1..] == parts[from.task + 2..];
    }
  }

  lemma {:induction false} ValuesGather(parts: seq<seq<KeyValue>>, k: string, from: Place) returns (places: seq<Place>)
    requires from.task < |parts| && from.at <= |parts[from.task]|
    ensures Gathers(parts, k, from, places, ValuesFrom(parts, k, from))
    decreases |parts| - from.task, |parts[from.task]| - from.at
  {
    hide Gathers, ValuesFrom;
    var part := parts[from.task];
    ValuesOnward(parts, k, from);
    if from.at < |part| {
      var next := Place(from.task, from.at + 1);
      places := ValuesGather(parts, k, next);
      if part[from.at].key == k {
        GatherOne(parts, k, from, places, ValuesFrom(parts, k, next));
        places := [from] + places;
      } else {
        GatherSkip(parts, k, from, next, places, ValuesFrom(parts, k, next));
        assert [] + ValuesFrom(parts, k, next) == ValuesFrom(parts, k, next);
      }
    } else if from.task + 1 < |parts| {
      var next := Place(from.task + 1, 0);
      places := ValuesGather(parts, k, next);
      GatherSkip(parts, k, from, next, places, ValuesFrom(parts, k, next));
    } else {
      places := [];
      GatherNone(parts, k, from);
    }
  }

  lemma GatherNone(parts: seq<seq<KeyValue>>, k: string, from: Place)
    requires forall x :: Emitted(parts, x, k) ==> Before(x, from)
    ensures Gathers(parts, k, from, [], [])
  {
  }

  lemma FlatValues(k: string, parts: seq<seq<KeyValue>>)
    requires parts != []
    ensures Values(k, Flatten(parts)) == Values(k, parts[0]) + Values(k, Flatten(parts[1..]))
  {
    ValuesJoin(k, parts[0], Flatten(parts[1..]));
  }

  /** The values of a key, as the reduce function gets them. */
  lemma AllGathered(parts: seq<seq<KeyValue>>, k: string)
    ensures Gathered(parts, k, Values(k, Flatten(parts)))
  {
    if parts == [] {
      assert Gathers(parts, k, Place(0, 0), [], []);
    } else {
      var places := ValuesGather(parts, k, Place(0, 0));
      assert parts[0][0..] == parts[0];
      FlatValues(k, parts);
    }
  }

  /** The pair of an emitted key with the reduction of all its values. */
  ghost predicate IsReduction(j: Job, kv: KeyValue) {
    exists vals :: Gathered(j.Pairs(), kv.key, vals) && vals != [] && kv.value == j.reduceF(kv.key, vals)
  }

  /** The output lists each emitted key once, in strictly increasing order, with the reduction of all its values. */
  lemma MeaningLists(j: Job)
    ensures var out := Meaning(j);
      && (forall a, b :: 0 <= a < b < |out| ==> Below(out[a].key, out[b].key))
      && (forall a :: 0 <= a < |out| ==> IsReduction(j, out[a]))
      && (forall x, k :: Emitted(j.Pairs(), x, k) ==> exists a :: 0 <= a < |out| && out[a].key == k)
  {
    hide Emitted, Gathered, Below, Values, Flatten;
    var kvs := Flatten(j.Pairs());
    var t := Reduced(kvs, j.reduceF);
    var ks, out := SortedKeys(t.Keys), Meaning(j);
    forall a | 0 <= a < |out|
      ensures out[a].key == ks[a] && ks[a] in t.Keys
    {
      assert ks[a] in Elements(ks);
    }
    forall a | 0 <= a < |out|
      ensures IsReduction(j, out[a])
    {
      AllGathered(j.Pairs(), ks[a]);
      HasValues(ks[a], kvs);
    }
    forall x, k | Emitted(j.Pairs(), x, k)
      ensures exists a :: 0 <= a < |out| && out[a].key == k
    {
      EmittedHasKey(j.Pairs(), x, k);
      assert k in t.Keys && k in Elements(ks);
      var a :| 0 <= a < |ks| && ks[a] == k;
      assert out[a].key == k;
    }
  }

  lemma EmittedHasKey(parts: seq<seq<KeyValue>>, x: Place, k: string)
    requires Emitted(parts, x, k)
    ensures k in Keys(Flatten(parts))
  {
    AllGathered(parts, k);
    HasValues(k, Flatten(parts));
  }
}
