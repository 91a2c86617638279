/**
 The tasks of a job over a shared file system: doMap, doReduce and merge with
 their loops, each proved to change the files exactly as its effect says, and
 Sequential, which runs them in order.
 */
module MrTasks {
  import opened MrOrder
  import opened MrNames
  import opened MrPipeline

  type Files = map<string, seq<KeyValue>>

  // ------------------------------------------------------------ effect of doMap

  /** Writes the non-empty parts below `upto`; a part without pairs gets no file. */
  function WriteParts(fs: Files, j: Job, m: nat, kvs: seq<KeyValue>, upto: nat): Files
    requires j.nReduce >= 1
  {
    if upto == 0 then fs
    else
      var g := WriteParts(fs, j, m, kvs, upto - 1);
      var part := Part(j, kvs, upto - 1);
      if part == [] then g else g[ReduceName(j.name, m, upto - 1) := part]
  }

  function MapEffect(fs: Files, j: Job, m: nat): Files
    requires j.nReduce >= 1 && m < |j.inputs|
  {
    WriteParts(fs, j, m, j.Emits(m), j.nReduce)
  }

  /** f is not one of the files map task m writes for these pairs. */
  ghost predicate Untouched(j: Job, m: nat, kvs: seq<KeyValue>, upto: nat, f: string)
    requires j.nReduce >= 1
  {
    forall r: nat :: r < upto && Part(j, kvs, r) != [] ==> f != ReduceName(j.name, m, r)
  }

  lemma {:induction false} PartWritten(fs: Files, j: Job, m: nat, kvs: seq<KeyValue>, upto: nat, r: nat)
    requires j.nReduce >= 1 && r < upto && Part(j, kvs, r) != []
    ensures var f := ReduceName(j.name, m, r);
      f in WriteParts(fs, j, m, kvs, upto) && WriteParts(fs, j, m, kvs, upto)[f] == Part(j, kvs, r)
  {
    hide ReduceName, Part;
    if r < upto - 1 {
      PartWritten(fs, j, m, kvs, upto - 1, r);
      if ReduceName(j.name, m, r) == ReduceName(j.name, m, upto - 1) {
        ReduceNameInjective(j.name, m, r, m, upto - 1);
      }
    }
  }

  lemma {:induction false} OtherKept(fs: Files, j: Job, m: nat, kvs: seq<KeyValue>, upto: nat, f: string)
    requires j.nReduce >= 1 && Untouched(j, m, kvs, upto, f)
    ensures f in WriteParts(fs, j, m, kvs, upto) <==> f in fs
    ensures f in fs ==> WriteParts(fs, j, m, kvs, upto)[f] == fs[f]
  {
    hide ReduceName, Part;
    if upto > 0 {
      OtherKept(fs, j, m, kvs, upto - 1, f);
    }
  }

  lemma PartMore(j: Job, kvs: seq<KeyValue>, kv: KeyValue, r: nat)
    requires j.nReduce >= 1
    ensures Part(j, kvs + [kv], r) == if Shard(j, kv.key) == r then Part(j, kvs, r) + [kv] else Part(j, kvs, r)
  {
    PartJoin(j, kvs, [kv], r);
    assert [kv][1..] == [];
  }

  /** One more pair: its file is created if it was the first of its shard, and grows by the pair. */
  function EncodePair(fs: Files, j: Job, m: nat, kvs: seq<KeyValue>, kv: KeyValue): Files
    requires j.nReduce >= 1
  {
    var r := Shard(j, kv.key);
    fs[ReduceName(j.name, m, r) := Part(j, kvs, r) + [kv]]
  }

  lemma PairEncoded(fs: Files, j: Job, m: nat, kvs: seq<KeyValue>, kv: KeyValue)
    requires j.nReduce >= 1
    ensures EncodePair(WriteParts(fs, j, m, kvs, j.nReduce), j, m, kvs, kv)
         == WriteParts(fs, j, m, kvs + [kv], j.nReduce)
  {
    hide ReduceName, Part, WriteParts;
    var n := j.nReduce;
    var a, b := EncodePair(WriteParts(fs, j, m, kvs, n), j, m, kvs, kv), WriteParts(fs, j, m, kvs + [kv], n);
    forall f: string
      ensures f in a <==> f in b
      ensures f in a ==> a[f] == b[f]
    {
      PairEncodedAt(fs, j, m, kvs, kv, f);
    }
  }

  lemma PairEncodedAt(fs: Files, j: Job, m: nat, kvs: seq<KeyValue>, kv: KeyValue, f: string)
    requires j.nReduce >= 1
    ensures var a := EncodePair(WriteParts(fs, j, m, kvs, j.nReduce), j, m, kvs, kv);
      var b := WriteParts(fs, j, m, kvs + [kv], j.nReduce);
      (f in a <==> f in b) && (f in a ==> a[f] == b[f])
  {
    hide ReduceName, Part, WriteParts;
    var n, all, r := j.nReduce, kvs + [kv], Shard(j, kv.key);
    PartMore(j, kvs, kv, r);
    if f == ReduceName(j.name, m, r) {
      PartWritten(fs, j, m, all, n, r);
    } else if q: nat :| q < n && Part(j, all, q) != [] && f == ReduceName(j.name, m, q) {
      PartMore(j, kvs, kv, q);
      PartWritten(fs, j, m, all, n, q);
      PartWritten(fs, j, m, kvs, n, q);
    } else {
      forall q: nat | q < n && Part(j, kvs, q) != []
        ensures f != ReduceName(j.name, m, q)
      {
        PartMore(j, kvs, kv, q);
      }
      OtherKept(fs, j, m, kvs, n, f);
      OtherKept(fs, j, m, all, n, f);
    }
  }

  predicate Routed(j: Job, kv: KeyValue, r: nat)
    requires j.nReduce >= 1
  {
    j.hash(kv.key) % j.nReduce == r
  }

  lemma {:induction false} PartMembers(j: Job, kvs: seq<KeyValue>, r: nat, kv: KeyValue)
    requires j.nReduce >= 1
    ensures kv in Part(j, kvs, r) <==> kv in kvs && Routed(j, kv, r)
  {
    if kvs != [] {
      PartMembers(j, kvs[1..], r, kv);
      assert kvs == [kvs[0]] + kvs[1..];
    }
  }

  lemma HasMember(kvs: seq<KeyValue>)
    ensures kvs == [] || kvs[0] in kvs
  {
  }

  /** After a map task each pair it emitted is in the file its hash selects; a file nothing goes to is as it was. */
  lemma MapRoutes(fs: Files, j: Job, m: nat, r: nat)
    requires j.nReduce >= 1 && m < |j.inputs| && r < j.nReduce
    ensures var f, after := ReduceName(j.name, m, r), MapEffect(fs, j, m);
      if exists kv :: kv in j.Emits(m) && Routed(j, kv, r) then
        f in after && forall kv :: kv in after[f] <==> kv in j.Emits(m) && Routed(j, kv, r)
      else
        (f in after <==> f in fs) && (f in fs ==> after[f] == fs[f])
  {
    hide ReduceName, Part, WriteParts, Routed;
    var kvs := j.Emits(m);
    forall kv
      ensures kv in Part(j, kvs, r) <==> kv in kvs && Routed(j, kv, r)
    {
      PartMembers(j, kvs, r, kv);
    }
    if kv :| kv in kvs && Routed(j, kv, r) {
      PartWritten(fs, j, m, kvs, j.nReduce, r);
    } else {
      HasMember(Part(j, kvs, r));
      forall q: nat | q < j.nReduce && Part(j, kvs, q) != []
        ensures ReduceName(j.name, m, r) != ReduceName(j.name, m, q)
      {
        if ReduceName(j.name, m, r) == ReduceName(j.name, m, q) {
          ReduceNameInjective(j.name, m, r, m, q);
        }
      }
      OtherKept(fs, j, m, kvs, j.nReduce, ReduceName(j.name, m, r));
    }
  }

  // ------------------------------------------------- effects of doReduce and merge

  function Content(fs: Files, f: string): seq<KeyValue> {
    if f in fs then fs[f] else []
  }

  /** Everything reduce task r reads, in map task order; a missing file reads as empty. */
  function ReadUpto(fs: Files, j: Job, r: nat, upto: nat): seq<KeyValue> {
    if upto == 0 then [] else ReadUpto(fs, j, r, upto - 1) + Content(fs, ReduceName(j.name, upto - 1, r))
  }

  ghost function ReduceEffect(fs: Files, j: Job, r: nat): Files {
    fs[MergeName(j.name, r) := GroupBy(ReadUpto(fs, j, r, |j.inputs|), j.reduceF)]
  }

  ghost function LoadUpto(fs: Files, j: Job, upto: nat): map<string, string> {
    if upto == 0 then map[] else Load(LoadUpto(fs, j, upto - 1), Content(fs, MergeName(j.name, upto - 1)))
  }

  ghost predicate OutputsPresent(fs: Files, j: Job) {
    forall r: nat :: r < j.nReduce ==> MergeName(j.name, r) in fs
  }

  ghost function MergeEffect(fs: Files, j: Job): Files {
    fs[OutName(j.name) := Listing(LoadUpto(fs, j, j.nReduce))]
  }

  // ----------------------------------------------------------------- the tasks

  class FileSystem {
    var files: Files

    /** doMap: each pair goes to the file of its shard; a file is created when its first pair arrives. */
    method DoMap(j: Job, m: nat)
      requires j.nReduce >= 1 && m < |j.inputs|
      modifies this
      ensures files == MapEffect(old(files), j, m)
    {
      hide ReduceName, Part, WriteParts;
      var kvs := j.mapF(j.inputs[m].file, j.inputs[m].contents);
      var created := new bool[j.nReduce](_ => false);
      NothingWritten(files, j, m);
      var i := 0;
      while i < |kvs|
        invariant 0 <= i <= |kvs| && created.Length == j.nReduce
        invariant forall r: nat :: r < j.nReduce ==> (created[r] <==> Part(j, kvs[..i], r) != [])
        invariant files == WriteParts(old(files), j, m, kvs[..i], j.nReduce)
        modifies this, created
      {
        var kv := kvs[i];
        var r := j.hash(kv.key) % j.nReduce;
        var f := ReduceName(j.name, m, r);
        ghost var before := files;
        if !created[r] {
          files := files[f := []];
          created[r] := true;
        } else {
          PartWritten(old(files), j, m, kvs[..i], j.nReduce, r);
        }
        files := files[f := files[f] + [kv]];
        assert files == EncodePair(before, j, m, kvs[..i], kv);
        PairEncoded(old(files), j, m, kvs[..i], kv);
        assert kvs[..i + 1] == kvs[..i] + [kv];
        forall q: nat | q < j.nReduce
          ensures Part(j, kvs[..i + 1], q) != [] <==> created[q]
        {
          PartMore(j, kvs[..i], kv, q);
        }
        i := i + 1;
      }
      assert kvs[..|kvs|] == kvs;
    }

    /** The decode loop of one intermediate file: each value is appended under its key. */
    method FillBuckets(file: seq<KeyValue>, buckets: map<string, seq<string>>, ghost sofar: seq<KeyValue>)
      returns (out: map<string, seq<string>>)
      requires Bucketed(buckets, sofar)
      ensures Bucketed(out, sofar + file)
    {
      out := buckets;
      var i := 0;
      assert sofar + file[..0] == sofar;
      while i < |file|
        invariant 0 <= i <= |file| && Bucketed(out, sofar + file[..i])
      {
        var kv := file[i];
        assert sofar + file[..i + 1] == sofar + file[..i] + [kv];
        BucketMore(out, sofar + file[..i], kv);
        out := out[kv.key := (if kv.key in out then out[kv.key] else []) + [kv.value]];
        i := i + 1;
      }
      assert file[..|file|] == file;
    }

    /** doReduce: read the task's files, group by key, reduce in key order, write one output file. */
    method DoReduce(j: Job, r: nat)
      modifies this
      ensures files == ReduceEffect(old(files), j, r)
    {
      hide ReduceName, MergeName, Listing;
      var buckets: map<string, seq<string>> := map[];
      var m := 0;
      while m < |j.inputs|
        invariant files == old(files)
        invariant 0 <= m <= |j.inputs| && Bucketed(buckets, ReadUpto(files, j, r, m))
      {
        buckets := FillBuckets(Content(files, ReduceName(j.name, m, r)), buckets, ReadUpto(files, j, r, m));
        m := m + 1;
      }
      ghost var kvs := ReadUpto(files, j, r, m);
      var out := ReduceBuckets(j, buckets, kvs);
      files := files[MergeName(j.name, r) := out];
    }

    /** merge: load every reducer's output, in order, and write the table out by key. False stands for log.Fatal. */
    method Merge(j: Job) returns (ok: bool)
      modifies this
      ensures ok == OutputsPresent(old(files), j)
      ensures files == if ok then MergeEffect(old(files), j) else old(files)
    {
      hide MergeName, Listing, Load;
      var table: map<string, string> := map[];
      var i := 0;
      while i < j.nReduce
        invariant files == old(files)
        invariant 0 <= i <= j.nReduce && table == LoadUpto(files, j, i)
        invariant forall r: nat :: r < i ==> MergeName(j.name, r) in files
      {
        var f := MergeName(j.name, i);
        if f !in files {
          return false;
        }
        table := LoadFile(table, files[f]);
        i := i + 1;
      }
      var ks := CollectKeys(table.Keys);
      var keys := SortKeys(ks);
      var out: seq<KeyValue> := [];
      var x := 0;
      while x < |keys|
        invariant files == old(files)
        invariant 0 <= x <= |keys| && |out| == x
        invariant forall y :: 0 <= y < x ==> keys[y] in table && out[y] == KeyValue(keys[y], table[keys[y]])
      {
        assert keys[x] in Elements(keys);
        out := out + [KeyValue(keys[x], table[keys[x]])];
        x := x + 1;
      }
      IsListing(table, keys, out);
      files := files[OutName(j.name) := out];
      return true;
    }

    /** Sequential: all map tasks, all reduce tasks, merge. */
    method Sequential(j: Job) returns (ok: bool)
      requires j.nReduce >= 1
      modifies this
      ensures ok && files == SequentialEffect(old(files), j)
      ensures OutName(j.name) in files && files[OutName(j.name)] == FinalOutput(old(files), j)
      ensures NoLeftovers(old(files), j) ==> files[OutName(j.name)] == Meaning(j)
    {
      hide ReduceName, MergeName, OutName, Meaning, MapEffect, ReduceEffect, MergeEffect, OutputsPresent;
      hide FinalOutput, NoLeftovers;
      var i := 0;
      while i < |j.inputs|
        invariant 0 <= i <= |j.inputs| && files == MapAll(old(files), j, i)
      {
        DoMap(j, i);
        i := i + 1;
      }
      var r := 0;
      while r < j.nReduce
        invariant 0 <= r <= j.nReduce && files == ReduceAll(MapAll(old(files), j, |j.inputs|), j, r)
      {
        DoReduce(j, r);
        r := r + 1;
      }
      SequentialLeaves(old(files), j);
      if NoLeftovers(old(files), j) {
        CleanOutput(old(files), j);
      }
      ok := Merge(j);
    }
  }

  function MapAll(fs: Files, j: Job, upto: nat): Files
    requires j.nReduce >= 1 && upto <= |j.inputs|
  {
    if upto == 0 then fs else MapEffect(MapAll(fs, j, upto - 1), j, upto - 1)
  }

  ghost function ReduceAll(fs: Files, j: Job, upto: nat): Files {
    if upto == 0 then fs else ReduceEffect(ReduceAll(fs, j, upto - 1), j, upto - 1)
  }

  ghost function SequentialEffect(fs: Files, j: Job): Files
    requires j.nReduce >= 1
  {
    MergeEffect(ReduceAll(MapAll(fs, j, |j.inputs|), j, j.nReduce), j)
  }

  // ------------------------------------------------------------ grouping by key

  ghost predicate Bucketed(buckets: map<string, seq<string>>, kvs: seq<KeyValue>) {
    buckets.Keys == Keys(kvs) && forall k :: k in buckets ==> buckets[k] == Values(k, kvs)
  }

  lemma BucketMore(buckets: map<string, seq<string>>, kvs: seq<KeyValue>, kv: KeyValue)
    requires Bucketed(buckets, kvs)
    ensures Bucketed(buckets[kv.key := (if kv.key in buckets then buckets[kv.key] else []) + [kv.value]], kvs + [kv])
  {
    var all := kvs + [kv];
    assert Keys(all) == Keys(kvs) + {kv.key} by {
      assert forall x :: x in all <==> x in kvs || x == kv;
    }
    forall k: string
      ensures Values(k, all) == Values(k, kvs) + if kv.key == k then [kv.value] else []
    {
      ValuesJoin(k, kvs, [kv]);
      assert [kv][1..] == [];
    }
    HasValues(kv.key, kvs);
  }

  /** Ranging over a map's keys, in whatever order. */
  method CollectKeys(ks: set<string>) returns (keys: seq<string>)
    ensures Elements(keys) == ks
    ensures forall i, j :: 0 <= i < j < |keys| ==> keys[i] != keys[j]
  {
    keys := [];
    var left := ks;
    while left != {}
      invariant left <= ks && Elements(keys) == ks - left
      invariant forall i, j :: 0 <= i < j < |keys| ==> keys[i] != keys[j]
      decreases left
    {
      var k :| k in left;
      assert k !in Elements(keys);
      OneMore(keys, k);
      keys := keys + [k];
      left := left - {k};
    }
  }

  lemma OneMore(keys: seq<string>, k: string)
    ensures Elements(keys + [k]) == Elements(keys) + {k}
  {
    forall x | x in Elements(keys) + {k}
      ensures x in keys + [k]
    {
      assert x in keys || x in [k];
    }
  }

  /** The sort and the reduce loop: one output pair per bucket, by key. */
  method ReduceBuckets(j: Job, buckets: map<string, seq<string>>, ghost kvs: seq<KeyValue>) returns (out: seq<KeyValue>)
    requires Bucketed(buckets, kvs)
    ensures out == GroupBy(kvs, j.reduceF)
  {
    var ks := CollectKeys(buckets.Keys);
    var keys := SortKeys(ks);
    out := [];
    var i := 0;
    while i < |keys|
      invariant 0 <= i <= |keys| && |out| == i
      invariant forall x :: 0 <= x < i ==>
        keys[x] in buckets && out[x] == KeyValue(keys[x], j.reduceF(keys[x], buckets[keys[x]]))
    {
      assert keys[i] in Elements(keys);
      out := out + [KeyValue(keys[i], j.reduceF(keys[i], buckets[keys[i]]))];
      i := i + 1;
    }
    ReducedListing(kvs, buckets, keys, out, j.reduceF);
  }

  method LoadFile(table: map<string, string>, kvs: seq<KeyValue>) returns (out: map<string, string>)
    ensures out == Load(table, kvs)
  {
    out := table;
    var i := 0;
    assert kvs[0..] == kvs;
    while i < |kvs|
      invariant 0 <= i <= |kvs| && Load(table, kvs) == Load(out, kvs[i..])
    {
      assert kvs[i..][1..] == kvs[i + 1..];
      out := out[kvs[i].key := kvs[i].value];
      i := i + 1;
    }
  }

  lemma IsListing(t: map<string, string>, keys: seq<string>, out: seq<KeyValue>)
    requires Increasing(keys) && Elements(keys) == t.Keys && |out| == |keys|
    requires forall x :: 0 <= x < |keys| ==> keys[x] in t && out[x] == KeyValue(keys[x], t[keys[x]])
    ensures out == Listing(t)
  {
    OneArrangement(keys, SortedKeys(t.Keys));
  }

  lemma ReducedListing(kvs: seq<KeyValue>, buckets: map<string, seq<string>>, keys: seq<string>, out: seq<KeyValue>,
                       reduceF: (string, seq<string>) -> string)
    requires Bucketed(buckets, kvs) && Increasing(keys) && Elements(keys) == buckets.Keys && |out| == |keys|
    requires forall x :: 0 <= x < |keys| ==>
      keys[x] in buckets && out[x] == KeyValue(keys[x], reduceF(keys[x], buckets[keys[x]]))
    ensures out == GroupBy(kvs, reduceF)
  {
    hide Listing;
    IsListing(Reduced(kvs, reduceF), keys, out);
  }

  lemma NothingWritten(fs: Files, j: Job, m: nat)
    requires j.nReduce >= 1
    ensures forall r: nat :: Part(j, [], r) == []
    ensures WriteParts(fs, j, m, [], j.nReduce) == fs
  {
    NoParts(fs, j, m, j.nReduce);
  }

  lemma {:induction false} NoParts(fs: Files, j: Job, m: nat, upto: nat)
    requires j.nReduce >= 1
    ensures WriteParts(fs, j, m, [], upto) == fs
  {
    if upto > 0 {
      NoParts(fs, j, m, upto - 1);
    }
  }

  // --------------------------------------------------- what the files then hold

  /**
   What the file of map task m for reduce task r holds once the task is done: its
   part, or, if that is empty, whatever was there before the job.
   */
  function Shown(base: Files, j: Job, m: nat, r: nat): seq<KeyValue>
    requires j.nReduce >= 1 && m < |j.inputs|
  {
    var part := Part(j, j.Emits(m), r);
    if part != [] then part else Content(base, ReduceName(j.name, m, r))
  }

  /** Files of empty parts are as they were before the job. */
  ghost predicate LeftAlone(fs: Files, base: Files, j: Job)
    requires j.nReduce >= 1
  {
    forall m: nat, r: nat :: m < |j.inputs| && r < j.nReduce && Part(j, j.Emits(m), r) == [] ==>
      Content(fs, ReduceName(j.name, m, r)) == Content(base, ReduceName(j.name, m, r))
  }

  ghost predicate MapDone(fs: Files, base: Files, j: Job, m: nat)
    requires j.nReduce >= 1 && m < |j.inputs|
  {
    forall r: nat :: r < j.nReduce ==> Content(fs, ReduceName(j.name, m, r)) == Shown(base, j, m, r)
  }

  ghost predicate MapsDone(fs: Files, base: Files, j: Job, upto: nat)
    requires j.nReduce >= 1 && upto <= |j.inputs|
  {
    LeftAlone(fs, base, j) && forall m: nat :: m < upto ==> MapDone(fs, base, j, m)
  }

  /** Everything reduce task r reads. */
  function ShownColumn(base: Files, j: Job, r: nat): (parts: seq<seq<KeyValue>>)
    requires j.nReduce >= 1
    ensures |parts| == |j.inputs|
  {
    seq(|j.inputs|, m requires 0 <= m < |j.inputs| => Shown(base, j, m, r))
  }

  ghost function TaskOutput(base: Files, j: Job, r: nat): seq<KeyValue>
    requires j.nReduce >= 1
  {
    GroupBy(Flatten(ShownColumn(base, j, r)), j.reduceF)
  }

  ghost predicate ReduceDone(fs: Files, base: Files, j: Job, r: nat)
    requires j.nReduce >= 1
  {
    MergeName(j.name, r) in fs && fs[MergeName(j.name, r)] == TaskOutput(base, j, r)
  }

  ghost predicate ReducesDone(fs: Files, base: Files, j: Job, upto: nat)
    requires j.nReduce >= 1
  {
    forall r: nat :: r < upto ==> ReduceDone(fs, base, j, r)
  }

  /** The table after the outputs of reduce tasks 0 to upto - 1 were read. */
  ghost function Table(base: Files, j: Job, upto: nat): map<string, string>
    requires j.nReduce >= 1
  {
    if upto == 0 then map[] else Load(Table(base, j, upto - 1), TaskOutput(base, j, upto - 1))
  }

  /** The output of the job, started over any files whatever. */
  ghost function FinalOutput(base: Files, j: Job): seq<KeyValue>
    requires j.nReduce >= 1
  {
    Listing(Table(base, j, j.nReduce))
  }

  /** What map task m leaves in a file, by who the file belongs to. */
  lemma MapEffectAt(fs: Files, j: Job, m: nat, q: nat, r: nat)
    requires j.nReduce >= 1 && m < |j.inputs| && r < j.nReduce
    ensures var g, f := MapEffect(fs, j, m), ReduceName(j.name, q, r);
      if q == m && Part(j, j.Emits(m), r) != [] then f in g && g[f] == Part(j, j.Emits(m), r)
      else (f in g <==> f in fs) && (f in g ==> g[f] == fs[f])
  {
    hide ReduceName, Part, WriteParts;
    if q == m && Part(j, j.Emits(m), r) != [] {
      PartWritten(fs, j, m, j.Emits(m), j.nReduce, r);
    } else {
      var f := ReduceName(j.name, q, r);
      forall x: nat | x < j.nReduce && Part(j, j.Emits(m), x) != []
        ensures f != ReduceName(j.name, m, x)
      {
        if f == ReduceName(j.name, m, x) {
          ReduceNameInjective(j.name, q, r, m, x);
        }
      }
      OtherKept(fs, j, m, j.Emits(m), j.nReduce, f);
    }
  }

  lemma MapEffectElsewhere(fs: Files, j: Job, m: nat, r: nat)
    requires j.nReduce >= 1 && m < |j.inputs|
    ensures var g, f := MapEffect(fs, j, m), MergeName(j.name, r);
      (f in g <==> f in fs) && (f in g ==> g[f] == fs[f])
  {
    hide ReduceName, MergeName, Part, WriteParts;
    var f := MergeName(j.name, r);
    forall x: nat | x < j.nReduce && Part(j, j.Emits(m), x) != []
      ensures f != ReduceName(j.name, m, x)
    {
      NamesDistinct(j.name, m, x, r);
    }
    OtherKept(fs, j, m, j.Emits(m), j.nReduce, f);
  }

  /** A map attempt, first or late, completes its own task and disturbs no other. */
  lemma MapLands(fs: Files, base: Files, j: Job, m: nat)
    requires j.nReduce >= 1 && m < |j.inputs| && LeftAlone(fs, base, j)
    ensures var g := MapEffect(fs, j, m);
      && LeftAlone(g, base, j) && MapDone(g, base, j, m)
      && (forall q: nat :: q < |j.inputs| && MapDone(fs, base, j, q) ==> MapDone(g, base, j, q))
      && (forall r: nat :: Content(g, MergeName(j.name, r)) == Content(fs, MergeName(j.name, r)))
      && (forall r: nat :: MergeName(j.name, r) in g <==> MergeName(j.name, r) in fs)
  {
    hide ReduceName, MergeName, Part, MapEffect;
    var g := MapEffect(fs, j, m);
    forall q: nat, r: nat | q < |j.inputs| && r < j.nReduce
      ensures q == m ==> Content(g, ReduceName(j.name, m, r)) == Shown(base, j, m, r)
      ensures q != m || Part(j, j.Emits(m), r) == [] ==>
        Content(g, ReduceName(j.name, q, r)) == Content(fs, ReduceName(j.name, q, r))
    {
      MapEffectAt(fs, j, m, q, r);
    }
    forall q: nat | q < |j.inputs| && MapDone(fs, base, j, q)
      ensures MapDone(g, base, j, q)
    {
      forall r: nat | r < j.nReduce
        ensures Content(g, ReduceName(j.name, q, r)) == Shown(base, j, q, r)
      {
        assert Content(fs, ReduceName(j.name, q, r)) == Shown(base, j, q, r);
      }
    }
    forall r: nat
      ensures Content(g, MergeName(j.name, r)) == Content(fs, MergeName(j.name, r))
      ensures MergeName(j.name, r) in g <==> MergeName(j.name, r) in fs
    {
      MapEffectElsewhere(fs, j, m, r);
    }
  }

  lemma {:induction false} ReadsShown(fs: Files, base: Files, j: Job, r: nat, upto: nat)
    requires j.nReduce >= 1 && r < j.nReduce && upto <= |j.inputs| && MapsDone(fs, base, j, |j.inputs|)
    ensures ReadUpto(fs, j, r, upto) == Flatten(ShownColumn(base, j, r)[..upto])
  {
    hide ReduceName, Shown, LeftAlone, Flatten, Content;
    if upto > 0 {
      ReadsShown(fs, base, j, r, upto - 1);
      assert MapDone(fs, base, j, upto - 1);
      var col := ShownColumn(base, j, r);
      FlattenMore(col[..upto - 1], col[upto - 1]);
      assert col[..upto] == col[..upto - 1] + [col[upto - 1]];
    } else {
      NothingRead(ShownColumn(base, j, r));
    }
  }

  lemma NothingRead(parts: seq<seq<KeyValue>>)
    ensures Flatten(parts[..0]) == []
  {
  }

  lemma {:induction false} FlattenMore(parts: seq<seq<KeyValue>>, p: seq<KeyValue>)
    ensures Flatten(parts + [p]) == Flatten(parts) + p
  {
    if parts == [] {
      assert [p][1..] == [];
    } else {
      FlattenMore(parts[1..], p);
      assert (parts + [p])[1..] == parts[1..] + [p];
    }
  }

  /** A reduce attempt over complete map output, first or late, leaves the one right output file. */
  lemma ReduceLands(fs: Files, base: Files, j: Job, r: nat)
    requires j.nReduce >= 1 && r < j.nReduce && MapsDone(fs, base, j, |j.inputs|)
    ensures var g := ReduceEffect(fs, j, r);
      && MapsDone(g, base, j, |j.inputs|) && ReduceDone(g, base, j, r)
      && (forall q: nat :: q != r && ReduceDone(fs, base, j, q) ==> ReduceDone(g, base, j, q))
  {
    hide ReduceName, MergeName, Part, GroupBy, Shown;
    var g := ReduceEffect(fs, j, r);
    ReadsShown(fs, base, j, r, |j.inputs|);
    assert ShownColumn(base, j, r)[..|j.inputs|] == ShownColumn(base, j, r);
    forall m: nat, x: nat
      ensures Content(g, ReduceName(j.name, m, x)) == Content(fs, ReduceName(j.name, m, x))
    {
      NamesDistinct(j.name, m, x, r);
    }
    SameParts(fs, g, base, j);
    forall q: nat | q != r && ReduceDone(fs, base, j, q)
      ensures ReduceDone(g, base, j, q)
    {
      if MergeName(j.name, q) == MergeName(j.name, r) {
        MergeNameInjective(j.name, q, r);
      }
    }
  }

  lemma SameParts(fs: Files, g: Files, base: Files, j: Job)
    requires j.nReduce >= 1 && MapsDone(fs, base, j, |j.inputs|)
    requires forall m: nat, r: nat :: Content(g, ReduceName(j.name, m, r)) == Content(fs, ReduceName(j.name, m, r))
    ensures MapsDone(g, base, j, |j.inputs|)
  {
    hide ReduceName, Part, Shown, Content;
    forall m: nat | m < |j.inputs|
      ensures MapDone(g, base, j, m)
    {
      assert MapDone(fs, base, j, m);
    }
  }

  lemma {:induction false} LoadsOutputs(fs: Files, base: Files, j: Job, upto: nat)
    requires j.nReduce >= 1 && upto <= j.nReduce && ReducesDone(fs, base, j, j.nReduce)
    ensures LoadUpto(fs, j, upto) == Table(base, j, upto)
  {
    hide MergeName, Load, TaskOutput;
    if upto > 0 {
      LoadsOutputs(fs, base, j, upto - 1);
      assert ReduceDone(fs, base, j, upto - 1);
    }
  }

  /** With every reducer's output in place, merge writes the final output. */
  lemma MergeGivesOutput(fs: Files, base: Files, j: Job)
    requires j.nReduce >= 1 && ReducesDone(fs, base, j, j.nReduce)
    ensures OutputsPresent(fs, j)
    ensures OutName(j.name) in MergeEffect(fs, j) && MergeEffect(fs, j)[OutName(j.name)] == FinalOutput(base, j)
  {
    hide MergeName, OutName, Listing, TaskOutput, Table;
    LoadsOutputs(fs, base, j, j.nReduce);
    forall r: nat | r < j.nReduce
      ensures MergeName(j.name, r) in fs
    {
      assert ReduceDone(fs, base, j, r);
    }
  }

  lemma {:induction false} MapAllDone(fs: Files, j: Job, upto: nat)
    requires j.nReduce >= 1 && upto <= |j.inputs|
    ensures MapsDone(MapAll(fs, j, upto), fs, j, upto)
  {
    hide MapEffect, MergeName, ReduceName, MapDone, Part;
    if upto > 0 {
      MapAllDone(fs, j, upto - 1);
      MapLands(MapAll(fs, j, upto - 1), fs, j, upto - 1);
    }
  }

  lemma {:induction false} ReduceAllDone(fs: Files, base: Files, j: Job, upto: nat)
    requires j.nReduce >= 1 && upto <= j.nReduce && MapsDone(fs, base, j, |j.inputs|)
    ensures MapsDone(ReduceAll(fs, j, upto), base, j, |j.inputs|)
    ensures ReducesDone(ReduceAll(fs, j, upto), base, j, upto)
  {
    hide ReduceEffect, MapsDone, ReduceDone;
    if upto > 0 {
      ReduceAllDone(fs, base, j, upto - 1);
      ReduceLands(ReduceAll(fs, j, upto - 1), base, j, upto - 1);
    }
  }

  /** What a sequential run leaves, whatever files it finds. */
  lemma SequentialLeaves(fs: Files, j: Job)
    requires j.nReduce >= 1
    ensures OutputsPresent(ReduceAll(MapAll(fs, j, |j.inputs|), j, j.nReduce), j)
    ensures OutName(j.name) in SequentialEffect(fs, j)
    ensures SequentialEffect(fs, j)[OutName(j.name)] == FinalOutput(fs, j)
  {
    hide MapAll, ReduceAll, MergeEffect, OutName, OutputsPresent, FinalOutput;
    MapAllDone(fs, j, |j.inputs|);
    var g := MapAll(fs, j, |j.inputs|);
    ReduceAllDone(g, fs, j, j.nReduce);
    MergeGivesOutput(ReduceAll(g, j, j.nReduce), fs, j);
  }

  /** No earlier job of this name left anything where this one has nothing to write. */
  ghost predicate NoLeftovers(base: Files, j: Job)
    requires j.nReduce >= 1
  {
    forall m: nat, r: nat :: m < |j.inputs| && r < j.nReduce && Part(j, j.Emits(m), r) == [] ==>
      Content(base, ReduceName(j.name, m, r)) == []
  }

  lemma {:induction false} CleanTable(base: Files, j: Job, upto: nat)
    requires j.nReduce >= 1 && NoLeftovers(base, j) && upto <= j.nReduce
    ensures Table(base, j, upto) == Merged(j, upto)
  {
    hide GroupBy, Load, ReduceName, Part, Flatten;
    if upto > 0 {
      CleanTable(base, j, upto - 1);
      assert ShownColumn(base, j, upto - 1) == Column(j, upto - 1);
    }
  }

  /** Without leftovers the output is the meaning of the job. */
  lemma CleanOutput(base: Files, j: Job)
    requires j.nReduce >= 1 && NoLeftovers(base, j)
    ensures FinalOutput(base, j) == Meaning(j)
  {
    hide Listing, Meaning, Table, Merged, NoLeftovers;
    CleanTable(base, j, j.nReduce);
    ShardingPreservesMeaning(j);
  }

  /** The final output belongs to merge alone. */
  lemma OutKept(fs: Files, j: Job, m: nat)
    requires j.nReduce >= 1 && m < |j.inputs|
    ensures Content(MapEffect(fs, j, m), OutName(j.name)) == Content(fs, OutName(j.name))
    ensures OutName(j.name) in fs ==> OutName(j.name) in MapEffect(fs, j, m)
  {
    hide ReduceName, OutName, Part, WriteParts;
    forall x: nat | x < j.nReduce && Part(j, j.Emits(m), x) != []
      ensures OutName(j.name) != ReduceName(j.name, m, x)
    {
      NamesDistinct(j.name, m, x, 0);
    }
    OtherKept(fs, j, m, j.Emits(m), j.nReduce, OutName(j.name));
  }
}
