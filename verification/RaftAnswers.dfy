/**
 What the steps of a run achieve, said without the functions that take them: how
 far a leader commits, whom a voter must support, what a leader sends next, and
 which batches a follower adopts. All of it holds in every run, unless said so.
 */
module RaftAnswers {
  import opened RaftLog
  import opened RaftNode
  import opened RaftCluster
  import opened RaftShape

  // -------------------------------------------------------------- committing

  /** The nodes the leader knows to have index N, itself among them. */
  ghost function Having(s: Node, me: nat, N: int): set<nat> {
    set p: nat | p < |s.matchIndex| && (p == me || s.matchIndex[p] >= N)
  }

  /** An entry of the leader's own term that more than half of the nodes have. */
  ghost predicate Ripe(s: Node, me: nat, N: int) {
    0 <= N < |s.log| && s.log[N].term == s.term && 2 * |Having(s, me, N)| > |s.matchIndex|
  }

  /** The reply counts: the node still leads the term of its call, and the peer accepted. */
  ghost predicate TakesAck(c: Cluster, k: AppendCall) {
    && k.from < |c.nodes| && k.reply.Some? && k.reply.value.success
    && k.reply.value.term <= c.nodes[k.from].term == k.args.term && c.nodes[k.from].role == Leader
  }

  lemma RipeIsCounted(s: Node, me: nat, N: int)
    requires me < |s.matchIndex| && 0 <= N < |s.log|
    ensures Ripe(s, me, N) <==> Commits(s, me, N)
  {
    var others := Holders(s.matchIndex, me, N, |s.matchIndex|);
    CountIsCard(s.matchIndex, me, N, |s.matchIndex|);
    assert Having(s, me, N) == others + {me};
  }

  lemma ScanFindsRipe(s: Node, me: nat)
    requires me < |s.matchIndex| && s.commitIndex >= 0
    ensures var ci := CommitFrom(s, me, |s.log| - 1);
      && (forall N :: Ripe(s, me, N) ==> N <= ci)
      && ci >= s.commitIndex && (ci > s.commitIndex ==> Ripe(s, me, ci))
  {
    hide Commits, Ripe;
    var ci := CommitFrom(s, me, |s.log| - 1);
    forall N | Ripe(s, me, N)
      ensures N <= ci
    {
      RipeInside(s, me, N);
      RipeIsCounted(s, me, N);
    }
    if ci > s.commitIndex {
      RipeIsCounted(s, me, ci);
    }
  }

  lemma RipeInside(s: Node, me: nat, N: int)
    requires Ripe(s, me, N)
    ensures 0 <= N < |s.log|
  {
  }

  /** A leader that takes an acknowledgement commits all that is ripe, and nothing else. */
  lemma CommitsAllRipe(run: Run, n: nat, k: nat, call: AppendCall)
    requires Valid(run, n) && k < |run.acts| && run.acts[k] == RecvAppend(call)
    ensures call.from < |run.states[k].nodes| && call.from < |run.states[k + 1].nodes|
    ensures var s, s' := run.states[k].nodes[call.from], run.states[k + 1].nodes[call.from];
      && s.commitIndex <= s'.commitIndex
      && (s.commitIndex < s'.commitIndex ==> TakesAck(run.states[k], call) && Ripe(s', call.from, s'.commitIndex))
      && (TakesAck(run.states[k], call) ==>
            |s'.matchIndex| == n && forall N :: Ripe(s', call.from, N) ==> N <= s'.commitIndex)
  {
    hide Base, Ripe, CommitFrom, BackUp, Durable, WellShaped;
    RunBase(run, n, k);
    assert Follows(run, k);
    var c := run.states[k];
    var s := c.nodes[call.from];
    assert NodeOk(s, n);
    if TakesAck(c, call) {
      var s1 := Acknowledge(s, call.peer, EndOf(call.args));
      ScanFindsRipe(s1, call.from);
      SameRipe(s1, run.states[k + 1].nodes[call.from], call.from);
    }
  }

  lemma SameRipe(s: Node, s': Node, me: nat)
    requires s'.log == s.log && s'.term == s.term && s'.matchIndex == s.matchIndex
    ensures forall N :: Ripe(s', me, N) <==> Ripe(s, me, N)
  {
    assert forall N :: Having(s', me, N) == Having(s, me, N);
  }

  /** A leader has committed all that is ripe; a candidate has no entry of its term yet. */
  ghost predicate CaughtUp(c: Cluster, i: nat)
    requires i < |c.nodes|
  {
    var s := c.nodes[i];
    && (s.role == Leader ==> forall N :: Ripe(s, i, N) ==> N <= s.commitIndex)
    && (s.role == Candidate ==> s.log != [] && LastTerm(s.log) < s.term)
  }

  /** A step that lets a node be, or makes it a follower. */
  ghost predicate Lets(s: Node, s': Node) {
    || s'.role == Follower
    || (s'.role == s.role && s'.log == s.log && s'.term == s.term && s'.matchIndex == s.matchIndex
        && s'.commitIndex == s.commitIndex)
  }

  lemma LetsCaughtUp(c: Cluster, c': Cluster, i: nat)
    requires i < |c.nodes| == |c'.nodes| && CaughtUp(c, i) && Lets(c.nodes[i], c'.nodes[i])
    ensures CaughtUp(c', i)
  {
    hide Ripe;
    if c'.nodes[i].role != Follower {
      SameRipe(c.nodes[i], c'.nodes[i], i);
    }
  }

  lemma ProposeCaughtUp(c: Cluster, i: nat, cmd: Command)
    requires Sane(c) && Enabled(c, Action.Propose(i, cmd)) && |c.nodes| > 1 && CaughtUp(c, i)
    ensures CaughtUp(DoPropose(c, i, cmd), i)
  {
    hide Durable, WellShaped;
    var s, s' := c.nodes[i], DoPropose(c, i, cmd).nodes[i];
    assert NodeOk(s, |c.nodes|);
    assert Having(s', i, |s.log|) == {i};
    forall N | Ripe(s', i, N)
      ensures N <= s'.commitIndex
    {
      assert Having(s', i, N) == Having(s, i, N);
      assert Ripe(s, i, N);
    }
  }

  /** A new leader has nothing of its term, so nothing is ripe. */
  lemma WinnerCaughtUp(c: Cluster, i: nat)
    requires i < |c.nodes| && c.nodes[i].role == Leader && c.nodes[i].log != [] && NonDecreasing(c.nodes[i].log)
    requires LastTerm(c.nodes[i].log) < c.nodes[i].term
    ensures CaughtUp(c, i)
  {
  }

  lemma ElectCaughtUp(c: Cluster, i: nat)
    requires Sane(c) && Enabled(c, Elect(i)) && |c.nodes| > 1
    ensures i < |DoElect(c, i).nodes| && CaughtUp(DoElect(c, i), i)
  {
    hide Durable, CaughtUp;
    assert NodeOk(c.nodes[i], |c.nodes|);
    Stood(DoElect(c, i), i);
  }

  lemma CountCaughtUp(c: Cluster, k: VoteCall)
    requires Sane(c) && Enabled(c, RecvVote(k)) && CaughtUp(c, k.cand)
    ensures k.cand < |DoRecvVote(c, k).nodes| && CaughtUp(DoRecvVote(c, k), k.cand)
  {
    hide Durable, CaughtUp, Ripe;
    var c', i := DoRecvVote(c, k), k.cand;
    assert NodeOk(c.nodes[i], |c.nodes|);
    if Lets(c.nodes[i], c'.nodes[i]) {
      LetsCaughtUp(c, c', i);
    } else {
      Standing(c, i);
      WinnerCaughtUp(c', i);
    }
  }

  lemma Standing(c: Cluster, i: nat)
    requires i < |c.nodes| && CaughtUp(c, i) && c.nodes[i].log != []
    ensures c.nodes[i].role == Candidate ==> LastTerm(c.nodes[i].log) < c.nodes[i].term
  {
  }

  lemma Stood(c: Cluster, i: nat)
    requires i < |c.nodes| && c.nodes[i].role == Candidate && c.nodes[i].log != []
    requires LastTerm(c.nodes[i].log) < c.nodes[i].term
    ensures CaughtUp(c, i)
  {
  }

  lemma ReplyCaughtUp(c: Cluster, k: AppendCall)
    requires Sane(c) && Enabled(c, RecvAppend(k)) && CaughtUp(c, k.from)
    ensures k.from < |DoRecvAppend(c, k).nodes| && CaughtUp(DoRecvAppend(c, k), k.from)
  {
    hide Durable, WellShaped, CaughtUp, Ripe, CommitFrom, BackUp;
    var c' := DoRecvAppend(c, k);
    var s, s' := c.nodes[k.from], c'.nodes[k.from];
    assert NodeOk(s, |c.nodes|);
    if TakesAck(c, k) {
      var s1 := Acknowledge(s, k.peer, EndOf(k.args));
      ScanFindsRipe(s1, k.from);
      SameRipe(s1, s', k.from);
      Committed(c', k.from);
    } else {
      LetsCaughtUp(c, c', k.from);
    }
  }

  lemma Committed(c: Cluster, i: nat)
    requires i < |c.nodes| && c.nodes[i].role == Leader
    requires forall N :: Ripe(c.nodes[i], i, N) ==> N <= c.nodes[i].commitIndex
    ensures CaughtUp(c, i)
  {
  }

  lemma StepCaughtUp(c: Cluster, a: Action, i: nat)
    requires Sane(c) && Enabled(c, a) && |c.nodes| > 1 && i < |c.nodes| && CaughtUp(c, i)
    ensures i < |Do(c, a).nodes| == |c.nodes| && CaughtUp(Do(c, a), i)
  {
    hide Durable, WellShaped, CaughtUp, CommitFrom, BackUp, Refuses, Sync, StartElection, OnVoteReply, UpToDate;
    if a.Elect? && a.i == i {
      ElectCaughtUp(c, i);
    } else if a.RecvVote? && a.vote.cand == i {
      CountCaughtUp(c, a.vote);
    } else if a.Propose? && a.i == i {
      ProposeCaughtUp(c, i, a.cmd);
    } else if a.RecvAppend? && a.append.from == i {
      ReplyCaughtUp(c, a.append);
    } else {
      LetsCaughtUp(c, Do(c, a), i);
    }
  }

  /** With two nodes or more, nothing a majority is known to have waits to be committed, in any state of any run. */
  lemma {:induction false} NothingRipeWaits(run: Run, n: nat, k: nat, i: nat)
    requires Valid(run, n) && n > 1 && k < |run.states| && i < n
    ensures i < |run.states[k].nodes| == n && CaughtUp(run.states[k], i)
  {
    hide Do, Enabled, CaughtUp, Sane;
    if k == 0 {
      Idle(run.states[0], i);
    } else {
      NothingRipeWaits(run, n, k - 1, i);
      assert Follows(run, k - 1);
      StepCaughtUp(run.states[k - 1], run.acts[k - 1], i);
    }
  }

  lemma Idle(c: Cluster, i: nat)
    requires i < |c.nodes| && c.nodes[i].role == Follower
    ensures CaughtUp(c, i)
  {
  }

  /** A node alone commits nothing, ever: it tries only when a peer answers. */
  lemma {:induction false} AloneNeverCommits(run: Run, k: nat)
    requires Valid(run, 1) && k < |run.states|
    ensures |run.states[k].nodes| == 1 && run.states[k].nodes[0].commitIndex == 0
  {
    hide Do, Sane, Enabled;
    if k > 0 {
      AloneNeverCommits(run, k - 1);
      assert Follows(run, k - 1);
      StepAlone(run.states[k - 1], run.acts[k - 1]);
    }
  }

  lemma StepAlone(c: Cluster, a: Action)
    requires Sane(c) && Enabled(c, a) && |c.nodes| == 1 && c.nodes[0].commitIndex == 0
    ensures |Do(c, a).nodes| == 1 && Do(c, a).nodes[0].commitIndex == 0
  {
    hide NodeOk, AppendEntries, OnAppendReply, UpToDate, BuildAppend;
  }

  // ------------------------------------------------------------------- voting

  lemma {:induction false} AdvertShape(run: Run, n: nat, k: nat, at: Slot)
    requires Valid(run, n) && k < |run.states| && at in run.states[k].hist.adverts
    ensures Shape(run.states[k].hist.adverts[at])
  {
    hide Base, Do, Enabled, Shape;
    if k > 0 {
      RunBase(run, n, k - 1);
      assert Follows(run, k - 1);
      NewAdvert(run.states[k - 1], run.acts[k - 1], at);
      if at in run.states[k - 1].hist.adverts {
        AdvertShape(run, n, k - 1, at);
      }
    }
  }

  lemma NewAdvert(c: Cluster, a: Action, at: Slot)
    requires Sane(c) && Enabled(c, a) && at in Do(c, a).hist.adverts
    ensures var log := Do(c, a).hist.adverts[at];
      Shape(log) || (at in c.hist.adverts && c.hist.adverts[at] == log)
  {
    hide NodeOk, AppendEntries, OnAppendReply, BuildAppend, UpToDate, Heartbeat, Boot;
    if a.Elect? {
      NodeShape(c.nodes[a.i], |c.nodes|);
    }
  }

  lemma NodeShape(s: Node, n: nat)
    requires NodeOk(s, n)
    ensures Shape(s.log)
  {
  }

  /** The voter may still choose the candidate in the term asked for. */
  predicate MayChoose(s: Node, k: VoteCall) {
    k.term > s.term || (k.term == s.term && (s.votedFor == NOBODY || s.votedFor == k.cand))
  }

  /** A voter grants a request iff it may still choose the candidate and is not ahead of the log it advertised. */
  lemma VoteAnswer(run: Run, n: nat, k: nat, call: VoteCall)
    requires Valid(run, n) && k < |run.acts| && run.acts[k] == HandleVote(call)
    ensures call.peer < |run.states[k].nodes| == |run.states[k + 1].nodes| && run.states[k].nodes[call.peer].log != []
    ensures Slot(call.term, call.cand) in run.states[k].hist.adverts
    ensures run.states[k].hist.adverts[Slot(call.term, call.cand)] != []
    ensures
      var s, s' := run.states[k].nodes[call.peer], run.states[k + 1].nodes[call.peer];
      var granted := MayChoose(s, call) && !Ahead(s.log, run.states[k].hist.adverts[Slot(call.term, call.cand)]);
      var reply := VoteReply(if granted then call.term else s.term, granted);
      && run.states[k + 1].votes == run.states[k].votes - {call} + {call.(reply := Some(reply))}
      && s'.votedFor == (if granted then call.cand else if call.term > s.term then NOBODY else s.votedFor)
      && s'.term == (if call.term > s.term then call.term else s.term)
      && s'.role == (if call.term > s.term then Follower else s.role)
      && s'.voteCount == (if call.term > s.term then 0 else s.voteCount)
      && s'.log == s.log && s'.commitIndex == s.commitIndex && s'.lastApplied == s.lastApplied
  {
    hide Base, NodeOk, UpToDate;
    RunBase(run, n, k);
    assert Follows(run, k);
    AdvertisedLog(run.states[k], call);
    assert NodeOk(run.states[k].nodes[call.peer], n);
    HasLog(run.states[k].nodes[call.peer], n);
  }

  lemma AdvertisedLog(c: Cluster, k: VoteCall)
    requires Base(c) && k in c.votes
    ensures VoteCallOk(c, k)
  {
  }

  lemma HasLog(s: Node, n: nat)
    requires NodeOk(s, n)
    ensures s.log != []
  {
  }

  /** So every candidate whose advertised log extends the voter's gets a vote that is free. */
  lemma ExtensionGetsVote(run: Run, n: nat, k: nat, call: VoteCall)
    requires Valid(run, n) && k < |run.acts| && run.acts[k] == HandleVote(call)
    requires call.peer < |run.states[k].nodes| && MayChoose(run.states[k].nodes[call.peer], call)
    requires Slot(call.term, call.cand) in run.states[k].hist.adverts
    requires run.states[k].nodes[call.peer].log <= run.states[k].hist.adverts[Slot(call.term, call.cand)]
    ensures call.(reply := Some(VoteReply(call.term, true))) in run.states[k + 1].votes
  {
    hide MayChoose, Ahead;
    VoteAnswer(run, n, k, call);
    AdvertShape(run, n, k, Slot(call.term, call.cand));
    var log, adv := run.states[k].nodes[call.peer].log, run.states[k].hist.adverts[Slot(call.term, call.cand)];
    AheadIsOrder(adv, log, log);
  }

  /** A grant is counted once; the candidate leads iff the grant is of its election and makes more than half. */
  lemma CountAnswer(run: Run, n: nat, k: nat, call: VoteCall)
    requires Valid(run, n) && k < |run.acts| && run.acts[k] == RecvVote(call)
    ensures call.cand < |run.states[k].nodes| == |run.states[k + 1].nodes| == n && call.reply.Some?
    ensures
      var s, s', r := run.states[k].nodes[call.cand], run.states[k + 1].nodes[call.cand], call.reply.value;
      && run.states[k + 1].votes == run.states[k].votes - {call}
      && (r.term > s.term ==>
            s'.term == r.term && s'.votedFor == NOBODY && s'.role == Follower && s'.voteCount == 0)
      && (r.term <= s.term ==>
            && s'.term == s.term && s'.votedFor == s.votedFor
            && s'.voteCount == s.voteCount + (if r.granted then 1 else 0)
            && s'.role == if s.role == Candidate && r.granted && call.term == s.term && 2 * s'.voteCount > n
                          then Leader else s.role)
  {
    hide Base, Shape;
    RunBase(run, n, k);
    assert Follows(run, k);
  }

  /** The request of an election of node i, with the log it has. */
  function Asking(c: Cluster, i: nat, p: nat): VoteCall
    requires i < |c.nodes| && i < |c.epochs| && c.nodes[i].log != []
  {
    VoteCall(i, c.epochs[i], p, c.nodes[i].term + 1, |c.nodes[i].log| - 1, LastTerm(c.nodes[i].log), None)
  }

  /** An election is a new term with the candidate's own vote, and asks every other node, showing its log. */
  lemma ElectionAsksAll(run: Run, n: nat, k: nat, i: nat)
    requires Valid(run, n) && k < |run.acts| && run.acts[k] == Elect(i)
    ensures i < |run.states[k].nodes| == |run.states[k].epochs| == |run.states[k + 1].nodes| == n
    ensures run.states[k].nodes[i].log != []
    ensures
      var c, c' := run.states[k], run.states[k + 1];
      var s, s' := c.nodes[i], c'.nodes[i];
      && s'.term == s.term + 1 && s'.votedFor == i && s'.voteCount == 1 && s'.log == s.log
      && s'.role == (if n == 1 then Leader else Candidate)
      && (forall v: VoteCall :: v in c'.votes <==>
            v in c.votes || (n > 1 && v.peer != i && v.peer < n && v == Asking(c, i, v.peer)))
  {
    hide Base, Shape, IndicesValid;
    RunBase(run, n, k);
    assert Follows(run, k);
    var c := run.states[k];
    assert NodeOk(c.nodes[i], n);
    forall v: VoteCall | n > 1 && v.peer != i && v.peer < n
      ensures v.peer in Others(n, i)
    {
    }
  }
}
