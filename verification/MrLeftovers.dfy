/**
 Files of an earlier job of the same name. A map task creates no file for an empty
 part, so what an earlier job left there is read as its output. Which leftovers
 show, exactly.
 */
module MrLeftovers {
  import opened MrNames
  import opened MrPipeline
  import opened MrTasks

  // ------------------------------------------------------------- the condition

  /** What is left where the map tasks have nothing to write for reduce task r. */
  function LeftColumn(base: Files, j: Job, r: nat): (parts: seq<seq<KeyValue>>)
    requires j.nReduce >= 1
    ensures |parts| == |j.inputs|
  {
    seq(|j.inputs|, m requires 0 <= m < |j.inputs| =>
      if Part(j, j.Emits(m), r) == [] then Content(base, ReduceName(j.name, m, r)) else [])
  }

  /** The leftover values of k that reduce task r meets. */
  function Left(base: Files, j: Job, k: string, r: nat): seq<string>
    requires j.nReduce >= 1
  {
    Values(k, Flatten(LeftColumn(base, j, r)))
  }

  function Emitted(j: Job, k: string): seq<string> {
    Values(k, Flatten(j.Pairs()))
  }

  /** Nothing of k is left for reduce tasks from `from` on. */
  ghost predicate NothingLeft(base: Files, j: Job, k: string, from: nat)
    requires j.nReduce >= 1
  {
    forall r: nat :: from <= r < j.nReduce ==> Left(base, j, k, r) == []
  }

  /**
   The leftovers of k do no harm: there are none if k is not emitted; otherwise
   there are none from k's own reduce task on, or the last ones after it repeat
   exactly the values emitted.
   */
  ghost predicate Harmless(base: Files, j: Job, k: string)
    requires j.nReduce >= 1
  {
    if Emitted(j, k) == [] then
      NothingLeft(base, j, k, 0)
    else
      || NothingLeft(base, j, k, Shard(j, k))
      || exists r: nat :: Repeats(base, j, k, r)
  }

  ghost predicate Repeats(base: Files, j: Job, k: string, r: nat)
    requires j.nReduce >= 1
  {
    Shard(j, k) < r < j.nReduce && Left(base, j, k, r) == Emitted(j, k) && NothingLeft(base, j, k, r + 1)
  }

  ghost predicate AllHarmless(base: Files, j: Job)
    requires j.nReduce >= 1
  {
    forall k: string :: Harmless(base, j, k)
  }

  // ------------------------------------------------------- what reaches the output

  /** The values of k that reduce task r reads. */
  function ReadFor(base: Files, j: Job, k: string, r: nat): seq<string>
    requires j.nReduce >= 1
  {
    Values(k, Flatten(ShownColumn(base, j, r)))
  }

  /** The values of k that reach the output: those the last reduce task that meets k reads. */
  function Winning(base: Files, j: Job, k: string, upto: nat): seq<string>
    requires j.nReduce >= 1
  {
    if upto == 0 then []
    else if ReadFor(base, j, k, upto - 1) != [] then ReadFor(base, j, k, upto - 1)
    else Winning(base, j, k, upto - 1)
  }

  lemma {:induction false} LastWins(base: Files, j: Job, k: string, r: nat, upto: nat)
    requires j.nReduce >= 1 && r < upto && ReadFor(base, j, k, r) != []
    requires forall q: nat :: r < q < upto ==> ReadFor(base, j, k, q) == []
    ensures Winning(base, j, k, upto) == ReadFor(base, j, k, r)
  {
    hide ReadFor;
    if r < upto - 1 {
      LastWins(base, j, k, r, upto - 1);
    }
  }

  lemma {:induction false} NoneWins(base: Files, j: Job, k: string, upto: nat)
    requires j.nReduce >= 1 && forall q: nat :: q < upto ==> ReadFor(base, j, k, q) == []
    ensures Winning(base, j, k, upto) == []
  {
    hide ReadFor;
    if upto > 0 {
      NoneWins(base, j, k, upto - 1);
    }
  }

  lemma {:induction false} TableIsWinning(base: Files, j: Job, k: string, upto: nat)
    requires j.nReduce >= 1
    ensures var t, values := Table(base, j, upto), Winning(base, j, k, upto);
      (k in t <==> values != []) && (k in t ==> t[k] == j.reduceF(k, values))
  {
    hide Listing, Load, Values, Flatten, ShownColumn;
    if upto > 0 {
      TableIsWinning(base, j, k, upto - 1);
      var read := Flatten(ShownColumn(base, j, upto - 1));
      LoadListing(Table(base, j, upto - 1), Reduced(read, j.reduceF));
      HasValues(k, read);
    }
  }

  // ----------------------------------------------------- leftovers among the parts

  /** Every file is a part or a leftover. */
  ghost predicate Mixed(shown: seq<seq<KeyValue>>, parts: seq<seq<KeyValue>>, left: seq<seq<KeyValue>>) {
    && |shown| == |parts| == |left|
    && forall m :: 0 <= m < |shown| ==>
         (shown[m] == parts[m] && left[m] == []) || (shown[m] == left[m] && parts[m] == [])
  }

  lemma {:induction false} MixedValues(k: string, shown: seq<seq<KeyValue>>, parts: seq<seq<KeyValue>>,
                                       left: seq<seq<KeyValue>>)
    requires Mixed(shown, parts, left)
    ensures var s, p, l := Values(k, Flatten(shown)), Values(k, Flatten(parts)), Values(k, Flatten(left));
      |s| == |p| + |l| && (l == [] ==> s == p) && (p == [] ==> s == l)
    decreases |shown|
  {
    hide Values;
    if shown != [] {
      MixedValues(k, shown[1..], parts[1..], left[1..]);
      FlatValues(k, shown);
      FlatValues(k, parts);
      FlatValues(k, left);
      NoValues(k);
    } else {
      NoValues(k);
    }
  }

  lemma NoValues(k: string)
    ensures Values(k, []) == []
  {
  }

  /** Away from its own reduce task only leftovers of k are read; there they add to the values emitted. */
  lemma ReadIsMixed(base: Files, j: Job, k: string, r: nat)
    requires j.nReduce >= 1
    ensures r != Shard(j, k) ==> ReadFor(base, j, k, r) == Left(base, j, k, r)
    ensures r == Shard(j, k) ==> |ReadFor(base, j, k, r)| == |Emitted(j, k)| + |Left(base, j, k, r)|
    ensures r == Shard(j, k) && Left(base, j, k, r) == [] ==> ReadFor(base, j, k, r) == Emitted(j, k)
    ensures Emitted(j, k) == [] ==> ReadFor(base, j, k, r) == Left(base, j, k, r)
  {
    hide Values, Flatten, Part;
    var shown, parts, left := ShownColumn(base, j, r), Column(j, r), LeftColumn(base, j, r);
    assert Mixed(shown, parts, left);
    MixedValues(k, shown, parts, left);
    ColumnIsShard(j, r);
    ShardValues(j, Flatten(j.Pairs()), r, k);
  }

  /** What reaches the output for k is what was emitted, exactly when the leftovers of k are harmless. */
  lemma WinningIsHarmless(base: Files, j: Job, k: string)
    requires j.nReduce >= 1
    ensures Winning(base, j, k, j.nReduce) == Emitted(j, k) <==> Harmless(base, j, k)
  {
    hide ReadFor, Left, Emitted, Winning, Shard, Harmless;
    forall r: nat
      ensures r != Shard(j, k) ==> ReadFor(base, j, k, r) == Left(base, j, k, r)
      ensures Emitted(j, k) == [] ==> ReadFor(base, j, k, r) == Left(base, j, k, r)
    {
      ReadIsMixed(base, j, k, r);
    }
    if Emitted(j, k) == [] {
      NotEmitted(base, j, k);
    } else {
      IsEmitted(base, j, k);
    }
  }

  lemma NotEmitted(base: Files, j: Job, k: string)
    requires j.nReduce >= 1 && Emitted(j, k) == []
    requires forall r: nat :: ReadFor(base, j, k, r) == Left(base, j, k, r)
    ensures Winning(base, j, k, j.nReduce) == [] <==> Harmless(base, j, k)
  {
    hide ReadFor, Left, Emitted, Winning, Shard;
    if NothingLeft(base, j, k, 0) {
      NoneWins(base, j, k, j.nReduce);
    } else {
      var r := LastLeft(base, j, k, 0);
      LastWins(base, j, k, r, j.nReduce);
    }
  }

  /** The last reduce task from `from` on that meets leftovers of k. */
  lemma {:induction false} LastLeft(base: Files, j: Job, k: string, from: nat) returns (r: nat)
    requires j.nReduce >= 1 && !NothingLeft(base, j, k, from)
    ensures from <= r < j.nReduce && Left(base, j, k, r) != [] && NothingLeft(base, j, k, r + 1)
    decreases j.nReduce - from
  {
    hide Left;
    var q: nat :| from <= q < j.nReduce && Left(base, j, k, q) != [];
    if NothingLeft(base, j, k, q + 1) {
      r := q;
    } else {
      r := LastLeft(base, j, k, q + 1);
    }
  }

  lemma IsEmitted(base: Files, j: Job, k: string)
    requires j.nReduce >= 1 && Emitted(j, k) != []
    requires forall r: nat :: r != Shard(j, k) ==> ReadFor(base, j, k, r) == Left(base, j, k, r)
    ensures Winning(base, j, k, j.nReduce) == Emitted(j, k) <==> Harmless(base, j, k)
  {
    hide ReadFor, Left, Emitted, Winning;
    var own := Shard(j, k);
    hide Shard;
    ReadIsMixed(base, j, k, own);
    if NothingLeft(base, j, k, own + 1) {
      LastWins(base, j, k, own, j.nReduce);
      OwnLeft(base, j, k);
    } else {
      var r := LastLeft(base, j, k, own + 1);
      LastWins(base, j, k, r, j.nReduce);
      OnlyLast(base, j, k, r);
    }
  }

  /** With nothing after k's own reduce task, only what is left there counts. */
  lemma OwnLeft(base: Files, j: Job, k: string)
    requires j.nReduce >= 1 && Emitted(j, k) != [] && NothingLeft(base, j, k, Shard(j, k) + 1)
    ensures Harmless(base, j, k) <==> Left(base, j, k, Shard(j, k)) == []
  {
    hide Left, Emitted;
  }

  /** With the last leftovers after k's own reduce task, they must repeat the values emitted. */
  lemma OnlyLast(base: Files, j: Job, k: string, r: nat)
    requires j.nReduce >= 1 && Emitted(j, k) != [] && Shard(j, k) < r < j.nReduce
    requires Left(base, j, k, r) != [] && NothingLeft(base, j, k, r + 1)
    ensures Harmless(base, j, k) <==> Left(base, j, k, r) == Emitted(j, k)
  {
    hide Left, Emitted, Shard;
    forall q: nat | Repeats(base, j, k, q)
      ensures q == r
    {
    }
    assert Left(base, j, k, r) == Emitted(j, k) ==> Repeats(base, j, k, r);
  }

  // ---------------------------------------------------------------- theorems

  lemma ReducedAt(kvs: seq<KeyValue>, reduceF: (string, seq<string>) -> string, k: string)
    ensures var t := Reduced(kvs, reduceF);
      (k in t <==> Values(k, kvs) != []) && (k in t ==> t[k] == reduceF(k, Values(k, kvs)))
  {
    hide Values;
    HasValues(k, kvs);
  }

  lemma ListingInjective(t: map<string, string>, u: map<string, string>)
    requires Listing(t) == Listing(u)
    ensures t == u
  {
    hide Listing;
    ListingIsFrom(t);
    ListingIsFrom(u);
    var l := Listing(t);
    forall k | k in t
      ensures k in u && t[k] == u[k]
    {
      assert k in Keys(l);
      var kv :| kv in l && kv.key == k;
      var i :| 0 <= i < |l| && l[i] == kv;
      assert l[i].key in t && l[i].key in u;
    }
  }

  /** Harmless leftovers do not show, whatever the reduce function. */
  lemma HarmlessOutput(base: Files, j: Job)
    requires j.nReduce >= 1 && AllHarmless(base, j)
    ensures FinalOutput(base, j) == Meaning(j)
  {
    hide Listing, Values, Flatten, Table, Winning, Reduced, Harmless;
    var t, u := Table(base, j, j.nReduce), Reduced(Flatten(j.Pairs()), j.reduceF);
    forall k: string
      ensures k in t <==> k in u
      ensures k in t ==> t[k] == u[k]
    {
      assert Harmless(base, j, k);
      WinningIsHarmless(base, j, k);
      TableIsWinning(base, j, k, j.nReduce);
      ReducedAt(Flatten(j.Pairs()), j.reduceF, k);
    }
    assert t == u;
  }

  /** Harmful leftovers show in the output of some reduce function. */
  lemma HarmfulShows(base: Files, j: Job) returns (f: (string, seq<string>) -> string)
    requires j.nReduce >= 1 && !AllHarmless(base, j)
    ensures FinalOutput(base, j.(reduceF := f)) != Meaning(j.(reduceF := f))
  {
    hide Listing, Values, Flatten, Table, Winning, Reduced, Harmless;
    var k: string :| !Harmless(base, j, k);
    WinningIsHarmless(base, j, k);
    var all := Flatten(j.Pairs());
    var right := Values(k, all);
    f := (x, values) => if values == right then "1" else "0";
    var j' := j.(reduceF := f);
    SameJob(base, j, f, k, j.nReduce);
    assert j'.Pairs() == j.Pairs();
    TableIsWinning(base, j', k, j.nReduce);
    ReducedAt(all, f, k);
    if FinalOutput(base, j') == Meaning(j') {
      ListingInjective(Table(base, j', j.nReduce), Reduced(all, f));
      assert false;
    }
  }

  /** What is read does not depend on the reduce function. */
  lemma {:induction false} SameJob(base: Files, j: Job, f: (string, seq<string>) -> string, k: string, upto: nat)
    requires j.nReduce >= 1
    ensures Winning(base, j.(reduceF := f), k, upto) == Winning(base, j, k, upto)
  {
    hide Values, Flatten, Part, Content;
    if upto > 0 {
      SameJob(base, j, f, k, upto - 1);
      var j', r := j.(reduceF := f), upto - 1;
      forall m: nat | m < |j.inputs|
        ensures Shown(base, j', m, r) == Shown(base, j, m, r)
      {
        SamePart(j, f, j.Emits(m), r);
      }
      assert ShownColumn(base, j', r) == ShownColumn(base, j, r);
    }
  }

  lemma {:induction false} SamePart(j: Job, f: (string, seq<string>) -> string, kvs: seq<KeyValue>, r: nat)
    requires j.nReduce >= 1
    ensures Part(j.(reduceF := f), kvs, r) == Part(j, kvs, r)
  {
    if kvs != [] {
      SamePart(j, f, kvs[1..], r);
    }
  }

  /** Where there are no leftovers, there are no harmful ones. */
  lemma CleanIsHarmless(base: Files, j: Job)
    requires j.nReduce >= 1 && NoLeftovers(base, j)
    ensures AllHarmless(base, j)
  {
    hide Values, Flatten, Part, ReduceName, Content, Shard;
    forall k: string, r: nat | r < j.nReduce
      ensures Left(base, j, k, r) == []
    {
      var left := LeftColumn(base, j, r);
      assert forall m :: 0 <= m < |left| ==> left[m] == [];
      AllEmpty(k, left);
    }
  }

  lemma {:induction false} AllEmpty(k: string, parts: seq<seq<KeyValue>>)
    requires forall m :: 0 <= m < |parts| ==> parts[m] == []
    ensures Values(k, Flatten(parts)) == []
  {
    hide Values;
    NoValues(k);
    if parts != [] {
      AllEmpty(k, parts[1..]);
      FlatValues(k, parts);
    }
  }

  /** A leftover key the job never emits shows in the output, whatever the reduce function. */
  lemma StrangeKeyShows(base: Files, j: Job, m: nat, r: nat, kv: KeyValue)
    requires j.nReduce >= 1 && m < |j.inputs| && r < j.nReduce && Part(j, j.Emits(m), r) == []
    requires kv in Content(base, ReduceName(j.name, m, r)) && kv.key !in Keys(Flatten(j.Pairs()))
    ensures FinalOutput(base, j) != Meaning(j)
  {
    hide Part, ReduceName, Flatten, Values, Winning, Table, Listing, Reduced;
    var col := ShownColumn(base, j, r);
    assert kv in col[m];
    InFlatten(col, m, kv);
    HasValues(kv.key, Flatten(col));
    HasValues(kv.key, Flatten(j.Pairs()));
    SomethingWins(base, j, kv.key, r, j.nReduce);
    TableIsWinning(base, j, kv.key, j.nReduce);
    ReducedAt(Flatten(j.Pairs()), j.reduceF, kv.key);
    if FinalOutput(base, j) == Meaning(j) {
      ListingInjective(Table(base, j, j.nReduce), Reduced(Flatten(j.Pairs()), j.reduceF));
      assert false;
    }
  }

  lemma {:induction false} InFlatten(parts: seq<seq<KeyValue>>, m: nat, kv: KeyValue)
    requires m < |parts| && kv in parts[m]
    ensures kv in Flatten(parts)
  {
    if m > 0 {
      InFlatten(parts[1..], m - 1, kv);
    }
  }

  lemma {:induction false} SomethingWins(base: Files, j: Job, k: string, r: nat, upto: nat)
    requires j.nReduce >= 1 && r < upto && ReadFor(base, j, k, r) != []
    ensures Winning(base, j, k, upto) != []
  {
    hide ReadFor;
    if r < upto - 1 {
      SomethingWins(base, j, k, r, upto - 1);
    }
  }
}
