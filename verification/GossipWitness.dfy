/**
 Runs of two gossip nodes. The digest exchange goes all the way and still repairs
 nothing, whether or not the node that lacks the rumor learns it meanwhile.
 */
module GossipWitness {
  import opened GossipStore
  import opened GossipNode
  import opened Gossip

  const A := "A"
  const B := "B"

  /** Two nodes, each the other's only peer. */
  const PAIR: Configs := map[A := Config(8, 1, [B]), B := Config(8, 1, [A])]

  const Q := Rumor("q", 8, [], A, 0)
  const R := Rumor("r", 8, [], B, 0)

  lemma Begin() returns (run: Run)
    ensures Valid(run, PAIR) && Last(run) == Start(PAIR) && run.acts == []
  {
    run := Run([Start(PAIR)], []);
  }

  const A_KNOWS_Q := Memory(map["q" := Q], ["q"])
  const B_KNOWS_R := Memory(map["r" := R], ["r"])

  lemma AInjects() returns (run: Run)
    ensures Valid(run, PAIR) && Nodes(PAIR, Last(run))
    ensures Last(run).stores == map[A := A_KNOWS_Q, B := BLANK]
  {
    hide Valid, Coherent;
    run := Begin();
    NeverStuck(run, PAIR);
    run := Then(run, PAIR, Inject(A, "q", [], 0, 0));
    assert Last(run).stores[A] == A_KNOWS_Q && Last(run).stores[B] == BLANK;
  }

  lemma BothInject() returns (run: Run)
    ensures Valid(run, PAIR) && Nodes(PAIR, Last(run))
    ensures Last(run).stores == map[A := A_KNOWS_Q, B := B_KNOWS_R]
  {
    hide Valid, Coherent;
    run := AInjects();
    run := Then(run, PAIR, Inject(B, "r", [], 0, 0));
    assert Last(run).stores[A] == A_KNOWS_Q && Last(run).stores[B] == B_KNOWS_R;
  }

  lemma ATells(run: Run) returns (run': Run)
    requires Valid(run, PAIR) && Nodes(PAIR, Last(run)) && Last(run).stores == map[A := A_KNOWS_Q, B := B_KNOWS_R]
    ensures Valid(run', PAIR) && Nodes(PAIR, Last(run')) && Last(run').stores == Last(run).stores
    ensures Envelope(A, B, Digest(["q"])) in Last(run').wire
  {
    hide Valid, Coherent;
    ListsOne();
    assert DigestSends(PAIR[A], A, ["q"], [0]) == [Envelope(A, B, Digest(["q"]))];
    hide Lists, DigestSends;
    run' := Then(run, PAIR, SendDigest(A, ["q"], [0]));
  }

  /** A knows q, B knows r; B has A's digest and asks for r, which is the one it has. */
  lemma BAsks() returns (run: Run)
    ensures Valid(run, PAIR) && Nodes(PAIR, Last(run))
    ensures Last(run).stores == map[A := A_KNOWS_Q, B := B_KNOWS_R]
    ensures Envelope(B, A, Missing(["r"])) in Last(run).wire
  {
    hide *;
    run := BothInject();
    run := ATells(run);
    OneMissing();
    BReady(Last(run));
    run := TakesDigest(run, Envelope(A, B, Digest(["q"])), ["r"], Envelope(B, A, Missing(["r"])));
  }

  lemma BReady(c: Cluster)
    requires c.stores == map[A := A_KNOWS_Q, B := B_KNOWS_R] && Envelope(A, B, Digest(["q"])) in c.wire
    ensures Arrives(c, Envelope(A, B, Digest(["q"]))) && Lists(["r"], c.stores[B])
  {
    ListsOne();
    hide Lists;
  }

  lemma TakesDigest(run: Run, e: Envelope, ours: seq<string>, out: Envelope) returns (run': Run)
    requires Valid(run, PAIR) && Nodes(PAIR, Last(run)) && Arrives(Last(run), e) && e.msg.Digest?
    requires Lists(ours, Last(run).stores[e.dst]) && MissingSends(e.dst, ours, e.msg.ids, e.src) == [out]
    ensures Valid(run', PAIR) && Nodes(PAIR, Last(run')) && Last(run').stores == Last(run).stores
    ensures out in Last(run').wire
  {
    hide Valid, Nodes, Lists, MissingSends;
    run' := Then(run, PAIR, TakeDigest(e, ours));
  }

  lemma ListsOne()
    ensures Lists(["q"], A_KNOWS_Q) && Lists(["r"], B_KNOWS_R)
  {
  }

  lemma OneMissing()
    ensures MissingSends(B, ["r"], ["q"], A) == [Envelope(B, A, Missing(["r"]))]
  {
    assert ["r"][..0] == [];
    assert Without([], ["q"]) == [];
    assert Without(["r"], ["q"]) == ["r"];
  }

  /** The whole exchange started by A's digest takes place, and A still lacks r. */
  lemma ExchangeRepairsNothing() returns (run: Run)
    ensures Valid(run, PAIR) && |run.acts| > 0 && run.acts[|run.acts| - 1].TakeMissing?
    ensures A in Last(run).stores && "r" !in Last(run).stores[A].seen
    ensures B in Last(run).stores && "q" !in Last(run).stores[B].seen
  {
    hide Valid;
    run := BAsks();
    run := Then(run, PAIR, TakeMissing(Envelope(B, A, Missing(["r"]))));
  }

  lemma BPushes(run: Run) returns (run': Run)
    requires Valid(run, PAIR) && Nodes(PAIR, Last(run)) && Last(run).stores == map[A := A_KNOWS_Q, B := B_KNOWS_R]
    ensures Valid(run', PAIR) && Nodes(PAIR, Last(run')) && Last(run).wire <= Last(run').wire
    ensures Last(run').stores == map[A := A_KNOWS_Q, B := B_KNOWS_R.(queue := [])]
    ensures Envelope(B, A, Push([R])) in Last(run').wire
  {
    hide Valid;
    assert Pushable(B_KNOWS_R) == [R];
    assert TickSends(PAIR[B], B, B_KNOWS_R, [0]) == [Envelope(B, A, Push([R]))];
    hide Pushable, TickSends, Coherent;
    run' := Then(run, PAIR, TickOnce(B, [0]));
  }

  /** A learns r by push before it takes B's request: its reply reaches B, which has r already. */
  lemma ReplyReachesSender() returns (run: Run)
    ensures Valid(run, PAIR) && |run.acts| > 0 && run.acts[|run.acts| - 1].TakeFetchRep?
    ensures A in Last(run).stores && "r" in Last(run).stores[A].seen
    ensures B in Last(run).stores && Last(run).stores[B].seen == map["r" := R]
  {
    hide Valid, Coherent;
    run := BAsks();
    run := BPushes(run);
    run := Then(run, PAIR, TakePush(Envelope(B, A, Push([R])), 0));
    var got := R.(ttl := 7);
    assert Last(run).stores[A].seen == map["q" := Q, "r" := got];
    run := AnswersB(run, got);
  }

  lemma AnswersB(run: Run, got: Rumor) returns (run': Run)
    requires Valid(run, PAIR) && Nodes(PAIR, Last(run)) && Envelope(B, A, Missing(["r"])) in Last(run).wire
    requires Last(run).stores[A].seen == map["q" := Q, "r" := got] && got == R.(ttl := 7)
    requires Last(run).stores[B].seen == map["r" := R]
    ensures Valid(run', PAIR) && |run'.acts| > 0 && run'.acts[|run'.acts| - 1].TakeFetchRep?
    ensures Last(run').stores.Keys == {A, B}
    ensures "r" in Last(run').stores[A].seen && Last(run').stores[B].seen == map["r" := R]
  {
    hide Valid;
    var s := Last(run).stores[A];
    run' := Then(run, PAIR, TakeMissing(Envelope(B, A, Missing(["r"]))));
    assert Found(s, ["r"]) == [got] by {
      assert ["r"][..0] == [];
      assert Found(s, []) == [];
    }
    var reply := Envelope(A, B, FetchRep([got]));
    assert FetchSends(A, s, ["r"], B) == [reply];
    run' := Then(run', PAIR, TakeFetchRep(reply, 0));
  }
}
