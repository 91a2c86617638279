/**
 Where the code is weaker than Figure 2 of the Raft paper: for each of the three
 assumptions on orderly runs, exactly which calls it is about, and a run of the
 code that breaks a safety property when only that assumption is dropped.
 */
module RaftWitness {
  import opened RaftLog
  import opened RaftNode
  import opened RaftCluster
  import opened RaftShape
  import opened RaftElection
  import opened RaftMatching
  import opened RaftSafety
  import opened RaftSteps
  import opened RaftTheorems

  // -------------------------------------------------------- exact conditions

  /** A granted reply that a candidate counts adds a backer of the running election iff it belongs to that election. */
  lemma CountedVoteIsReal(c: Cluster, k: VoteCall)
    requires Base(c) && Fair(c) && Enabled(c, RecvVote(k)) && k.reply.value.granted
    requires c.nodes[k.cand].role == Candidate && k.reply.value.term <= c.nodes[k.cand].term
    ensures var t := c.nodes[k.cand].term;
      k.term == t <==>
      Backers(c.hist.ballots, c.votes, k.cand, t) < Backers(c.hist.ballots, DoRecvVote(c, k).votes, k.cand, t)
  {
    hide Base, Shape;
    var t := c.nodes[k.cand].term;
    var votes' := c.votes - {k};
    var before, after := Backers(c.hist.ballots, c.votes, k.cand, t), Backers(c.hist.ballots, votes', k.cand, t);
    FewerDescend(c.votes, votes');
    BackersGrow(c.hist.ballots, c.hist.ballots, c.votes, votes', k.cand, t);
    if k.term == t {
      GrantAddsBacker(c, k);
      assert before != after;
    } else {
      assert forall o :: o in c.votes && o.term == t ==> o in votes';
      forall p | p in after
        ensures p in before
      {
        assert Pending(c.votes, k.cand, t, p) ==> Pending(votes', k.cand, t, p);
      }
    }
  }

  /** A heartbeat reply leaves all votes in force iff it is newer than the node, has no effect, or finds no vote. */
  lemma BeatReplyKeepsVotes(c: Cluster, k: BeatCall)
    requires Fair(c) && Voted(c) && |c.epochs| == |c.nodes| && Enabled(c, RecvBeat(k))
    ensures var s, t := c.nodes[k.from], k.reply.value.term;
      (forall b :: b in c.hist.ballots ==> VoterOk(DoRecvBeat(c, k), b)) <==>
      t > s.term || t <= k.term || s.votedFor == NOBODY
  {
    hide BallotOk, OneBallotEach, OneCallEach, GrantOk, CountOk, QuorumOk;
    var s, t, c' := c.nodes[k.from], k.reply.value.term, DoRecvBeat(c, k);
    if t > s.term || t <= k.term || s.votedFor == NOBODY {
      forall b | b in c.hist.ballots
        ensures VoterOk(c', b)
      {
        assert BallotOk(c, b) && VoterOk(c, b);
        VotedBefore(c, b);
      }
    } else {
      assert CastBy(c.hist, k.from, s.term, s.votedFor);
      var b :| b in c.hist.ballots && b.voter == k.from && b.term == s.term;
      assert !VoterOk(c', b);
    }
  }

  lemma VotedBefore(c: Cluster, b: Ballot)
    requires BallotOk(c, b)
    ensures b.voter < |c.nodes| && b.term <= c.nodes[b.voter].term
  {
  }

  /** A non-empty batch of the leader leaves the follower with the leader's log through m iff the batch reaches m. */
  lemma MergeKeepsAcknowledged(c: Cluster, k: AppendCall, m: nat)
    requires Matched(c) && k in c.appends && k.peer < |c.nodes| && Accepts(c.nodes[k.peer], k.args)
    requires k.args.entries != []
    requires k.args.term in c.hist.termLogs && m < |c.hist.termLogs[k.args.term]|
    ensures Agree(AppendEntries(c.nodes[k.peer], k.args).0.log, c.hist.termLogs[k.args.term], m)
       <==> m <= EndOf(k.args)
  {
    hide Matches, WinMatched, OwnsLog, Sync;
    AcceptedLog(c, k);
    var log := AppendEntries(c.nodes[k.peer], k.args).0.log;
    if m <= EndOf(k.args) {
      AgreeDown(log, c.hist.termLogs[k.args.term], EndOf(k.args), m);
    }
  }

  // ------------------------------------------------------------ building runs

  function Last(run: Run): Cluster {
    if run.states == [] then Init(0) else run.states[|run.states| - 1]
  }

  lemma Begin(n: nat) returns (run: Run)
    requires n >= 1
    ensures Valid(run, n) && Last(run) == Init(n) && run.acts == []
  {
    run := Run([Init(n)], []);
  }

  ghost predicate Continues(run: Run, run': Run, a: Action) {
    && |run.states| == |run.acts| + 1
    && run'.acts == run.acts + [a]
    && run'.states == run.states + [Last(run')]
  }

  /** One more step, and what it keeps of the three assumptions. */
  lemma Step(run: Run, n: nat, a: Action) returns (run': Run)
    requires Valid(run, n) && |Last(run).epochs| == |Last(run).nodes| && Enabled(Last(run), a)
    ensures Sane(Last(run))
    ensures Valid(run', n) && Last(run') == Do(Last(run), a) && Continues(run, run', a)
    ensures TimelyVotes(run) && TimelyVote(Last(run), a) ==> TimelyVotes(run')
    ensures TimelyHeartbeats(run) && TimelyBeat(Last(run), a) ==> TimelyHeartbeats(run')
    ensures InOrderAppends(run) && InOrderAppend(Last(run), a) ==> InOrderAppends(run')
  {
    hide Do, Enabled, TimelyVote, TimelyBeat, InOrderAppend, Sane;
    NeverStuck(run, n);
    run' := Extend(run, a);
    var k := |run.acts|;
    assert forall x :: 0 <= x < k ==> run'.states[x] == run.states[x] && run'.acts[x] == run.acts[x];
    assert run'.states[k] == Last(run) && run'.acts[k] == a;
  }

  // ------------------------------------------------------------- small steps

  /** The part of a node elections are about, over a log that is still just the sentinel. */
  datatype Face = Face(role: Role, term: nat, votedFor: int, voteCount: nat)

  function FaceOf(s: Node): Face {
    Face(s.role, s.term, s.votedFor, s.voteCount)
  }

  ghost predicate Fresh(c: Cluster, n: nat) {
    && |c.nodes| == |c.epochs| == n
    && (forall i :: 0 <= i < n ==> c.nodes[i].log == [SENTINEL] && c.epochs[i] == 0)
  }

  function Ask(cand: nat, peer: nat, term: nat): VoteCall {
    VoteCall(cand, 0, peer, term, 0, 0, None)
  }

  function Granted(k: VoteCall): VoteCall {
    k.(reply := Some(VoteReply(k.term, true)))
  }

  ghost predicate OthersSame(c: Cluster, c': Cluster, i: nat) {
    |c'.nodes| == |c.nodes| && forall j :: 0 <= j < |c.nodes| && j != i ==> c'.nodes[j] == c.nodes[j]
  }

  lemma Campaigns(run: Run, n: nat, i: nat) returns (run': Run)
    requires Valid(run, n) && Fresh(Last(run), n) && i < n && n >= 3
    ensures Valid(run', n) && Fresh(Last(run'), n) && OthersSame(Last(run), Last(run'), i)
    ensures var t := Last(run).nodes[i].term + 1;
      && FaceOf(Last(run').nodes[i]) == Face(Candidate, t, i, 1)
      && Last(run').nodes[i].commitIndex == Last(run).nodes[i].commitIndex
      && Last(run').nodes[i].lastApplied == Last(run).nodes[i].lastApplied
      && (forall k :: k in Last(run).votes ==> k in Last(run').votes)
      && (forall p: nat :: p < n && p != i ==> Ask(i, p, t) in Last(run').votes)
    ensures Last(run').beats == Last(run).beats && Last(run').hist.wins == Last(run).hist.wins
    ensures TimelyVotes(run) ==> TimelyVotes(run')
    ensures TimelyHeartbeats(run) ==> TimelyHeartbeats(run')
    ensures InOrderAppends(run) ==> InOrderAppends(run')
  {
    hide Valid, TimelyVotes, TimelyHeartbeats, InOrderAppends, Sane;
    run' := Step(run, n, Elect(i));
    var c, c' := Last(run), Last(run');
    CampaignCalled(c, i);
  }

  lemma CampaignCalled(c: Cluster, i: nat)
    requires Fresh(c, |c.nodes|) && i < |c.nodes| && |c.nodes| >= 3
    ensures var c' := DoElect(c, i);
      var t := c.nodes[i].term + 1;
      && Fresh(c', |c.nodes|) && OthersSame(c, c', i)
      && FaceOf(c'.nodes[i]) == Face(Candidate, t, i, 1) && c'.nodes[i].commitIndex == c.nodes[i].commitIndex
      && c'.nodes[i].lastApplied == c.nodes[i].lastApplied
      && c.votes <= c'.votes && c'.beats == c.beats && c'.hist.wins == c.hist.wins
      && (forall p: nat :: p < |c.nodes| && p != i ==> Ask(i, p, t) in c'.votes)
  {
    var c' := DoElect(c, i);
    var t := c.nodes[i].term + 1;
    forall p: nat | p < |c.nodes| && p != i
      ensures Ask(i, p, t) in c'.votes
    {
      assert p in Others(|c.nodes|, i);
    }
  }

  lemma Grants(run: Run, n: nat, k: VoteCall) returns (run': Run)
    requires Valid(run, n) && Fresh(Last(run), n) && k in Last(run).votes && k.reply.None? && k.epoch == 0
    requires k == Ask(k.cand, k.peer, k.term) && k.cand < n && k.peer < n && k.cand != k.peer
    requires var s := Last(run).nodes[k.peer];
      k.term > s.term || (k.term == s.term && (s.votedFor == NOBODY || s.votedFor == k.cand) && s.role == Follower)
    ensures Valid(run', n) && Fresh(Last(run'), n) && OthersSame(Last(run), Last(run'), k.peer)
    ensures Last(run').nodes[k.peer].term == k.term && Last(run').nodes[k.peer].votedFor == k.cand
    ensures Last(run').nodes[k.peer].role == Follower
    ensures Granted(k) in Last(run').votes && forall m :: m in Last(run).votes && m != k ==> m in Last(run').votes
    ensures Last(run').beats == Last(run).beats && Last(run').hist.wins == Last(run).hist.wins
    ensures TimelyVotes(run) ==> TimelyVotes(run')
    ensures TimelyHeartbeats(run) ==> TimelyHeartbeats(run')
    ensures InOrderAppends(run) ==> InOrderAppends(run')
  {
    hide Valid, TimelyVotes, TimelyHeartbeats, InOrderAppends, Sane;
    run' := Step(run, n, HandleVote(k));
    assert Last(run') == DoHandleVote(Last(run), k);
  }

  /** The candidate processes a grant; it wins when the count passes half and the grant is of the running election. */
  lemma Counts(run: Run, n: nat, k: VoteCall) returns (run': Run)
    requires Valid(run, n) && Fresh(Last(run), n) && k in Last(run).votes
    requires k.reply == Some(VoteReply(k.term, true)) && k.cand < n && k.epoch == 0
    requires Last(run).nodes[k.cand].role == Candidate && k.term <= Last(run).nodes[k.cand].term
    ensures Valid(run', n) && Fresh(Last(run'), n) && OthersSame(Last(run), Last(run'), k.cand)
    ensures forall m :: m in Last(run).votes && m != k ==> m in Last(run').votes
    ensures var s, s' := Last(run).nodes[k.cand], Last(run').nodes[k.cand];
      var wins := IsMajority(s.voteCount + 1, n) && s.term == k.term;
      && FaceOf(s') == Face(if wins then Leader else Candidate, s.term, s.votedFor, s.voteCount + 1)
      && (wins ==> s' == BecomeLeader(s.(voteCount := s.voteCount + 1), k.cand, n))
      && s'.commitIndex == s.commitIndex && s'.lastApplied == s.lastApplied
      && (wins ==> exists w :: w in Last(run').hist.wins && w.term == s.term && w.node == k.cand && w.epoch == 0)
      && Last(run).hist.wins <= Last(run').hist.wins
    ensures Last(run').beats == Last(run).beats && Continues(run, run', RecvVote(k))
    ensures TimelyVotes(run) && k.term == Last(run).nodes[k.cand].term ==> TimelyVotes(run')
    ensures TimelyHeartbeats(run) ==> TimelyHeartbeats(run')
    ensures InOrderAppends(run) ==> InOrderAppends(run')
  {
    hide Valid, TimelyVotes, TimelyHeartbeats, InOrderAppends, Sane, Continues;
    run' := Step(run, n, RecvVote(k));
    var c, c' := Last(run), Last(run');
    assert c' == DoRecvVote(c, k);
    var s := c'.nodes[k.cand];
    if s.role == Leader {
      assert Win(s.term, k.cand, 0, s.log, BallotsFor(c.hist.ballots, s.term, k.cand)) in c'.hist.wins;
    }
  }

  // -------------------------------------------------------- without timely votes

  /** A leader of term t that has heard from nobody yet, over the sentinel. */
  ghost predicate LeadsFresh(s: Node, t: nat, n: nat) {
    && s.role == Leader && s.term == t && s.log == [SENTINEL] && s.commitIndex == 0 && s.lastApplied == 0
    && |s.nextIndex| == n && |s.matchIndex| == n
    && forall p :: 0 <= p < n ==> s.nextIndex[p] == 1 && s.matchIndex[p] == 0
  }

  /** Node 2 stands in term 2, and nodes 3 and 4 have granted it their votes. */
  lemma ThreeVote(run: Run) returns (run': Run)
    requires Valid(run, 5) && Last(run) == Init(5) && run.acts == []
    ensures Valid(run', 5) && Fresh(Last(run'), 5)
    ensures TimelyVotes(run') && TimelyHeartbeats(run') && InOrderAppends(run')
    ensures Last(run').nodes[0] == Last(run').nodes[1] == Boot(Blank)
    ensures FaceOf(Last(run').nodes[2]) == Face(Candidate, 2, 2, 1)
    ensures Last(run').nodes[2].commitIndex == 0 && Last(run').nodes[2].lastApplied == 0
    ensures Granted(Ask(2, 3, 2)) in Last(run').votes && Granted(Ask(2, 4, 2)) in Last(run').votes
    ensures forall i :: 3 <= i < 5 ==> Last(run').nodes[i].role == Follower && Last(run').nodes[i].term == 2
  {
    hide Valid, TimelyVotes, TimelyHeartbeats, InOrderAppends;
    InitIsFresh(5);
    NothingYet(run);
    run' := Campaigns(run, 5, 2);
    run' := Campaigns(run', 5, 2);
    run' := Grants(run', 5, Ask(2, 3, 2));
    run' := Grants(run', 5, Ask(2, 4, 2));
  }

  /** Nodes 2, 3 and 4 elect node 2 in term 2. */
  lemma ThreeElect(run: Run) returns (run': Run)
    requires Valid(run, 5) && Last(run) == Init(5) && run.acts == []
    ensures Valid(run', 5) && Fresh(Last(run'), 5)
    ensures TimelyVotes(run') && TimelyHeartbeats(run') && InOrderAppends(run')
    ensures Last(run').nodes[0] == Last(run').nodes[1] == Boot(Blank)
    ensures exists w :: w in Last(run').hist.wins && w.term == 2 && w.node == 2
    ensures LeadsFresh(Last(run').nodes[2], 2, 5)
    ensures forall i :: 3 <= i < 5 ==> Last(run').nodes[i].role == Follower && Last(run').nodes[i].term == 2
  {
    hide Valid, TimelyVotes, TimelyHeartbeats, InOrderAppends, Continues, Init;
    run' := ThreeVote(run);
    run' := Counts(run', 5, Granted(Ask(2, 3, 2)));
    run' := Counts(run', 5, Granted(Ask(2, 4, 2)));
  }

  /** Node 0 runs twice; node 1 grants it both elections, and both grants are on their way. */
  lemma TwoGrants(run: Run) returns (run': Run)
    requires Valid(run, 5) && Fresh(Last(run), 5)
    requires TimelyVotes(run) && TimelyHeartbeats(run) && InOrderAppends(run)
    requires Last(run).nodes[0] == Last(run).nodes[1] == Boot(Blank)
    ensures Valid(run', 5) && Fresh(Last(run'), 5)
    ensures Last(run').nodes[0].commitIndex == 0 && Last(run').nodes[0].lastApplied == 0
    ensures Last(run').nodes[2..] == Last(run).nodes[2..]
    ensures TimelyVotes(run') && TimelyHeartbeats(run') && InOrderAppends(run')
    ensures FaceOf(Last(run').nodes[0]) == Face(Candidate, 2, 0, 1)
    ensures Granted(Ask(0, 1, 1)) in Last(run').votes && Granted(Ask(0, 1, 2)) in Last(run').votes
    ensures Last(run').hist.wins == Last(run).hist.wins
  {
    hide Valid, TimelyVotes, TimelyHeartbeats, InOrderAppends;
    run' := Campaigns(run, 5, 0);
    run' := Grants(run', 5, Ask(0, 1, 1));
    run' := Campaigns(run', 5, 0);
    run' := Grants(run', 5, Ask(0, 1, 2));
  }

  /** Timely votes are needed: five nodes, one late vote, two leaders of term 2. */
  lemma TwoLeadersWithoutTimelyVotes() returns (run: Run, late: nat)
    ensures Valid(run, 5) && TimelyHeartbeats(run) && InOrderAppends(run)
    ensures |run.states| == |run.acts| + 1 && late < |run.acts|
    ensures forall k :: 0 <= k < |run.acts| ==> (TimelyVote(run.states[k], run.acts[k]) <==> k != late)
    ensures !OneWinner(Last(run).hist)
  {
    hide Valid, Fresh, TimelyHeartbeats, InOrderAppends;
    run := Begin(5);
    run := ThreeElect(run);
    run := TwoGrants(run);
    var v :| v in Last(run).hist.wins && v.term == 2 && v.node == 2;
    late := |run.acts|;
    var first, second := Granted(Ask(0, 1, 1)), Granted(Ask(0, 1, 2));
    FreshHas(Last(run), 5);
    var r := Counts(run, 5, first);
    FreshHas(Last(r), 5);
    assert !TimelyVote(Last(run), RecvVote(first)) && TimelyVote(Last(r), RecvVote(second));
    var r' := Counts(r, 5, second);
    var w :| w in Last(r').hist.wins && w.term == 2 && w.node == 0;
    assert v in Last(r').hist.wins;
    LateAt(run, r, r', RecvVote(first), RecvVote(second));
    run := r';
  }

  lemma FreshHas(c: Cluster, n: nat)
    requires Fresh(c, n)
    ensures |c.nodes| == |c.epochs| == n
  {
  }

  lemma LateAt(run: Run, r: Run, r': Run, a: Action, b: Action)
    requires TimelyVotes(run) && Continues(run, r, a) && Continues(r, r', b)
    requires !TimelyVote(Last(run), a) && TimelyVote(Last(r), b)
    ensures |r'.states| == |r'.acts| + 1 && |run.acts| < |r'.acts|
    ensures forall k :: 0 <= k < |r'.acts| ==> (TimelyVote(r'.states[k], r'.acts[k]) <==> k != |run.acts|)
  {
    hide TimelyVote;
    var late := |run.acts|;
    assert r'.states[late] == Last(run) && r'.acts[late] == a;
    assert r'.states[late + 1] == Last(r) && r'.acts[late + 1] == b;
    assert forall k :: 0 <= k < late ==> r'.states[k] == run.states[k] && r'.acts[k] == run.acts[k];
  }

  lemma InitIsFresh(n: nat)
    ensures Fresh(Init(n), n)
    ensures forall i :: 0 <= i < n ==> FaceOf(Init(n).nodes[i]) == Face(Follower, 0, NOBODY, 0)
  {
  }

  // --------------------------------------------------- without timely heartbeats

  lemma Beats(run: Run, n: nat, i: nat, p: nat, w: Win) returns (run': Run, k: BeatCall)
    requires Valid(run, n) && Fresh(Last(run), n) && i < n && p < n && i != p
    requires w in Last(run).hist.wins && w.node == i && w.epoch == 0
    ensures Valid(run', n) && Fresh(Last(run'), n) && Last(run').nodes == Last(run).nodes
    ensures k in Last(run').beats && k == BeatCall(i, 0, p, Last(run).nodes[i].term, Last(run).serial, None)
    ensures Last(run').votes == Last(run).votes && Last(run').hist == Last(run).hist
    ensures TimelyVotes(run) ==> TimelyVotes(run')
    ensures InOrderAppends(run) ==> InOrderAppends(run')
  {
    hide Valid, TimelyVotes, TimelyHeartbeats, InOrderAppends, Sane;
    var c := Last(run);
    assert HasLed(c, i);
    run' := Step(run, n, Beat(i));
    k := BeatCall(i, 0, p, c.nodes[i].term, c.serial, None);
    assert p in Others(n, i);
  }

  /** The peer is ahead and says so. */
  lemma BeatRefused(run: Run, n: nat, k: BeatCall) returns (run': Run, k': BeatCall)
    requires Valid(run, n) && Fresh(Last(run), n) && k in Last(run).beats && k.reply.None?
    requires k.peer < n && k.term < Last(run).nodes[k.peer].term
    ensures Valid(run', n) && Fresh(Last(run'), n) && Last(run').nodes == Last(run).nodes
    ensures k' in Last(run').beats && k' == k.(reply := Some(BeatReply(Last(run).nodes[k.peer].term, false)))
    ensures Last(run').votes == Last(run).votes && Last(run').hist == Last(run).hist
    ensures TimelyVotes(run) ==> TimelyVotes(run')
    ensures InOrderAppends(run) ==> InOrderAppends(run')
  {
    hide Valid, TimelyVotes, TimelyHeartbeats, InOrderAppends, Sane;
    run' := Step(run, n, HandleBeat(k));
    k' := k.(reply := Some(BeatReply(Last(run).nodes[k.peer].term, false)));
    assert Last(run').nodes == Last(run).nodes;
  }

  /** Line 391: a late refusal of the sender's own, current term wipes the vote it cast in that term. */
  lemma ForgetsVote(run: Run, n: nat, k: BeatCall) returns (run': Run)
    requires Valid(run, n) && Fresh(Last(run), n) && k in Last(run).beats && k.from < n && k.epoch == 0
    requires k.reply.Some? && k.reply.value.term > k.term && k.reply.value.term == Last(run).nodes[k.from].term
    ensures Valid(run', n) && Fresh(Last(run'), n) && OthersSame(Last(run), Last(run'), k.from)
    ensures FaceOf(Last(run').nodes[k.from]) == Face(Follower, Last(run).nodes[k.from].term, NOBODY, 0)
    ensures Last(run').votes == Last(run).votes && Last(run').hist == Last(run).hist
    ensures TimelyVotes(run) ==> TimelyVotes(run')
    ensures InOrderAppends(run) ==> InOrderAppends(run')
  {
    hide Valid, TimelyVotes, TimelyHeartbeats, InOrderAppends, Sane;
    run' := Step(run, n, RecvBeat(k));
  }

  /** Node 1 has led term 1; its heartbeat of then was refused by node 2, which by now asks for votes in term 2. */
  lemma StaleRefusal() returns (run: Run, k: BeatCall)
    ensures Valid(run, 3) && TimelyVotes(run) && InOrderAppends(run) && Fresh(Last(run), 3)
    ensures k in Last(run).beats && k.from == 1 && k.epoch == 0 && k.term == 1 && k.reply == Some(BeatReply(2, false))
    ensures Ask(2, 1, 2) in Last(run).votes && FaceOf(Last(run).nodes[2]) == Face(Candidate, 2, 2, 1)
    ensures Last(run).nodes[0].term == 1 && Last(run).nodes[1].term == 1
  {
    hide Valid, TimelyVotes, TimelyHeartbeats, InOrderAppends;
    run := Begin(3);
    InitIsFresh(3);
    NothingYet(run);
    run := Campaigns(run, 3, 1);
    run := Grants(run, 3, Ask(1, 0, 1));
    run := Counts(run, 3, Granted(Ask(1, 0, 1)));
    var w :| w in Last(run).hist.wins && w.term == 1 && w.node == 1 && w.epoch == 0;
    run := Campaigns(run, 3, 2);
    run := Campaigns(run, 3, 2);
    run, k := Beats(run, 3, 1, 2, w);
    run, k := BeatRefused(run, 3, k);
  }

  lemma NothingYet(run: Run)
    requires run.acts == []
    ensures TimelyVotes(run) && TimelyHeartbeats(run) && InOrderAppends(run)
  {
  }

  /** Timely heartbeats are needed: node 1 votes for node 0, forgets, and votes for node 2 in the same term. */
  lemma TwoLeadersWithoutTimelyHeartbeats() returns (run: Run)
    ensures Valid(run, 3) && TimelyVotes(run) && InOrderAppends(run)
    ensures !OneWinner(Last(run).hist)
  {
    hide Valid, TimelyVotes, TimelyHeartbeats, InOrderAppends;
    var k: BeatCall;
    run, k := StaleRefusal();
    run := Campaigns(run, 3, 0);
    run := Grants(run, 3, Ask(0, 1, 2));
    run := Counts(run, 3, Granted(Ask(0, 1, 2)));
    var v :| v in Last(run).hist.wins && v.term == 2 && v.node == 0;
    run := ForgetsVote(run, 3, k);
    run := Grants(run, 3, Ask(2, 1, 2));
    run := Counts(run, 3, Granted(Ask(2, 1, 2)));
    var w :| w in Last(run).hist.wins && w.term == 2 && w.node == 2;
    assert v in Last(run).hist.wins;
  }

  // ----------------------------------------------------- without in-order appends

  const E1 := Entry(1, NilCommand)
  const ONE: Log := [SENTINEL, E1]
  const TWO: Log := [SENTINEL, E1, E1]

  /** The two batches node 0 sends in term 1: the first entry alone, then both. */
  const SHORT := AppendArgs(1, 0, 0, 0, [E1], 0)
  const LONG := AppendArgs(1, 0, 0, 0, [E1, E1], 0)

  function Ship(a: AppendArgs, serial: nat): AppendCall {
    AppendCall(0, 0, 1, a, serial, None)
  }

  ghost predicate Three(c: Cluster) {
    |c.nodes| == |c.epochs| == 3 && forall i :: 0 <= i < 3 ==> c.epochs[i] == 0
  }

  ghost predicate LeadsUnheard(s: Node, log: Log) {
    && s.role == Leader && s.term == 1 && s.log == log && s.commitIndex == 0 && s.lastApplied == 0
    && |s.nextIndex| == 3 && s.nextIndex[1] == 1
    && |s.matchIndex| == 3 && s.matchIndex[1] == 0 && s.matchIndex[2] == 0
  }

  /** Node 0 leads term 1 over the given log, node 1 follows with its log, node 2 knows nothing. */
  ghost predicate Scene(c: Cluster, leader: Log, follower: Log) {
    && Three(c)
    && LeadsUnheard(c.nodes[0], leader)
    && c.nodes[1].role == Follower && c.nodes[1].term == 1 && c.nodes[1].log == follower
    && FaceOf(c.nodes[2]) == Face(Follower, 0, NOBODY, 0) && c.nodes[2].log == [SENTINEL]
  }

  lemma SceneBegins() returns (run: Run)
    ensures Valid(run, 3) && TimelyVotes(run) && TimelyHeartbeats(run) && InOrderAppends(run)
    ensures Scene(Last(run), [SENTINEL], [SENTINEL])
  {
    hide Valid, TimelyVotes, TimelyHeartbeats, InOrderAppends;
    run := Begin(3);
    InitIsFresh(3);
    NothingYet(run);
    run := Campaigns(run, 3, 0);
    run := Grants(run, 3, Ask(0, 1, 1));
    run := Counts(run, 3, Granted(Ask(0, 1, 1)));
  }

  lemma Proposes(run: Run, log: Log, follower: Log) returns (run': Run)
    requires Valid(run, 3) && Scene(Last(run), log, follower)
    ensures Valid(run', 3) && Scene(Last(run'), log + [E1], follower) && Last(run').appends == Last(run).appends
    ensures TimelyVotes(run) ==> TimelyVotes(run')
    ensures TimelyHeartbeats(run) ==> TimelyHeartbeats(run')
    ensures InOrderAppends(run) ==> InOrderAppends(run')
  {
    hide Valid, TimelyVotes, TimelyHeartbeats, InOrderAppends, Sane;
    run' := Step(run, 3, Action.Propose(0, NilCommand));
  }

  lemma Ships(run: Run, log: Log) returns (run': Run, serial: nat)
    requires Valid(run, 3) && Scene(Last(run), log, [SENTINEL]) && (log == ONE || log == TWO)
    ensures Valid(run', 3) && Scene(Last(run'), log, [SENTINEL]) && Last(run).appends <= Last(run').appends
    ensures Ship(if log == ONE then SHORT else LONG, serial) in Last(run').appends
    ensures TimelyVotes(run) ==> TimelyVotes(run')
    ensures TimelyHeartbeats(run) ==> TimelyHeartbeats(run')
    ensures InOrderAppends(run) ==> InOrderAppends(run')
  {
    hide Valid, TimelyVotes, TimelyHeartbeats, InOrderAppends, Sane;
    var c := Last(run);
    serial := c.serial;
    run' := Step(run, 3, SendAppend(0, 1));
    assert BuildAppend(c.nodes[0], 0, 1) == if log == ONE then SHORT else LONG by {
      assert log[1..] == if log == ONE then [E1] else [E1, E1];
    }
  }

  /** Node 1 accepts the long batch and node 0 commits both entries. */
  lemma CommitsBoth(run: Run, long: AppendCall) returns (run': Run)
    requires Valid(run, 3) && Scene(Last(run), TWO, [SENTINEL])
    requires long in Last(run).appends && long == Ship(LONG, long.serial)
    requires TimelyVotes(run) && TimelyHeartbeats(run)
    ensures Valid(run', 3) && TimelyVotes(run') && TimelyHeartbeats(run')
    ensures InOrderAppends(run) && AckOf(Last(run).hist, 1, 1) <= 2 ==> InOrderAppends(run')
    ensures Commit(1, 2, TWO) in Last(run').hist.commits
    ensures forall k :: k in Last(run).appends && k.args != long.args ==> k in Last(run').appends
    ensures Three(Last(run')) && Last(run').nodes[1].term == 1 && Last(run').nodes[1].log == TWO
    ensures Last(run').nodes[1].role == Follower
    ensures FaceOf(Last(run').nodes[2]) == Face(Follower, 0, NOBODY, 0) && Last(run').nodes[2].log == [SENTINEL]
  {
    hide Valid, TimelyVotes, TimelyHeartbeats, InOrderAppends, Sane, Scene;
    var r := AcceptsBoth(run, long);
    var back := long.(reply := Some(AppendReply(1, true, Conflict(0, 0))));
    CommitsTwo(Last(r).nodes[0]);
    run' := Step(r, 3, RecvAppend(back));
    assert TWO[..3] == TWO;
  }

  lemma AcceptsBoth(run: Run, long: AppendCall) returns (run': Run)
    requires Valid(run, 3) && Scene(Last(run), TWO, [SENTINEL])
    requires long in Last(run).appends && long == Ship(LONG, long.serial)
    requires TimelyVotes(run) && TimelyHeartbeats(run)
    ensures Valid(run', 3) && TimelyVotes(run') && TimelyHeartbeats(run') && Three(Last(run'))
    ensures InOrderAppends(run) && AckOf(Last(run).hist, 1, 1) <= 2 ==> InOrderAppends(run')
    ensures long.(reply := Some(AppendReply(1, true, Conflict(0, 0)))) in Last(run').appends
    ensures forall k :: k in Last(run).appends && k.args != long.args ==> k in Last(run').appends
    ensures LeadsUnheard(Last(run').nodes[0], TWO)
    ensures Last(run').nodes[1].term == 1 && Last(run').nodes[1].log == TWO && Last(run').nodes[1].role == Follower
    ensures FaceOf(Last(run').nodes[2]) == Face(Follower, 0, NOBODY, 0) && Last(run').nodes[2].log == [SENTINEL]
  {
    hide Valid, TimelyVotes, TimelyHeartbeats, InOrderAppends, Sane, AckOf;
    SyncsToTwo();
    run' := Step(run, 3, HandleAppend(long));
  }

  lemma SyncsToTwo()
    ensures Sync([SENTINEL], 1, [E1, E1]) == TWO
    ensures Sync(TWO, 1, [E1]) == ONE
  {
    assert [SENTINEL][1..] == [];
    assert TWO[1..] == [E1, E1];
    assert TermRun([E1, E1], [E1]) == 1;
    assert TWO[..2] + [E1][1..] == ONE;
  }

  lemma CommitsTwo(s: Node)
    requires LeadsUnheard(s, TWO)
    ensures var s' := OnAppendReply(s, 0, 1, LONG, AppendReply(1, true, Conflict(0, 0)));
      s'.commitIndex == 2 && s'.term == 1 && s'.log == TWO && s'.lastApplied == s.lastApplied
  {
    var s1 := Acknowledge(s, 1, 2);
    assert CountMatch(s1.matchIndex, 0, 2, 1) == 0;
    assert CountMatch(s1.matchIndex, 0, 2, 2) == 1;
    assert CountMatch(s1.matchIndex, 0, 2, 3) == 1;
    assert Commits(s1, 0, 2);
  }

  /** Line 587: the delayed short batch cuts the committed second entry off node 1. */
  lemma CutsCommitted(run: Run, short: AppendCall) returns (run': Run)
    requires Valid(run, 3) && Three(Last(run)) && short in Last(run).appends && short == Ship(SHORT, short.serial)
    requires Last(run).nodes[1].term == 1 && Last(run).nodes[1].log == TWO && Last(run).nodes[1].role == Follower
    requires TimelyVotes(run) && TimelyHeartbeats(run)
    ensures Valid(run', 3) && TimelyVotes(run') && TimelyHeartbeats(run') && Three(Last(run'))
    ensures Last(run').nodes[1].term == 1 && Last(run').nodes[1].log == ONE
    ensures Last(run').nodes[2] == Last(run).nodes[2] && Last(run').hist.commits == Last(run).hist.commits
  {
    hide Valid, TimelyVotes, TimelyHeartbeats, InOrderAppends, Sane;
    SyncsToTwo();
    run' := Step(run, 3, HandleAppend(short));
  }

  /** Node 1, with entries of term 1, outranks node 2 and wins term 2. */
  lemma WinsTermTwo(run: Run, log: Log) returns (run': Run, w: Win)
    requires Valid(run, 3) && Three(Last(run)) && (log == ONE || log == TWO)
    requires Last(run).nodes[1].term == 1 && Last(run).nodes[1].log == log
    requires FaceOf(Last(run).nodes[2]) == Face(Follower, 0, NOBODY, 0) && Last(run).nodes[2].log == [SENTINEL]
    requires TimelyVotes(run) && TimelyHeartbeats(run)
    ensures Valid(run', 3) && TimelyVotes(run') && TimelyHeartbeats(run')
    ensures InOrderAppends(run) ==> InOrderAppends(run')
    ensures w in Last(run').hist.wins && w.term == 2 && w.log == log
    ensures Last(run).hist.commits <= Last(run').hist.commits
  {
    hide Valid, TimelyVotes, TimelyHeartbeats, InOrderAppends, Sane;
    var ask := VoteCall(1, 0, 2, 2, |log| - 1, 1, None);
    var r := Step(run, 3, Elect(1));
    assert 2 in Others(3, 1);
    assert ask in Last(r).votes && FaceOf(Last(r).nodes[1]) == Face(Candidate, 2, 1, 1) && Last(r).nodes[1].log == log;
    assert Last(r).nodes[2] == Last(run).nodes[2] && Last(r).hist.commits == Last(run).hist.commits;
    run', w := WinsOverNodeTwo(r, ask, log);
  }

  lemma WinsOverNodeTwo(run: Run, ask: VoteCall, log: Log) returns (run': Run, w: Win)
    requires Valid(run, 3) && Three(Last(run)) && (log == ONE || log == TWO)
    requires ask in Last(run).votes && ask == VoteCall(1, 0, 2, 2, |log| - 1, 1, None)
    requires FaceOf(Last(run).nodes[1]) == Face(Candidate, 2, 1, 1) && Last(run).nodes[1].log == log
    requires FaceOf(Last(run).nodes[2]) == Face(Follower, 0, NOBODY, 0) && Last(run).nodes[2].log == [SENTINEL]
    requires TimelyVotes(run) && TimelyHeartbeats(run)
    ensures Valid(run', 3) && TimelyVotes(run') && TimelyHeartbeats(run')
    ensures InOrderAppends(run) ==> InOrderAppends(run')
    ensures w in Last(run').hist.wins && w.term == 2 && w.log == log
    ensures Last(run).hist.commits <= Last(run').hist.commits
  {
    hide Valid, TimelyVotes, TimelyHeartbeats, InOrderAppends, Sane;
    var r := Step(run, 3, HandleVote(ask));
    var c := Last(r);
    assert Granted(ask) in c.votes && c.nodes[1] == Last(run).nodes[1];
    run' := Step(r, 3, RecvVote(Granted(ask)));
    w := Win(2, 1, 0, log, BallotsFor(c.hist.ballots, 2, 1));
  }

  /** In-order appends are needed: an entry committed in term 1 is missing from the log that wins term 2. */
  lemma LostCommitWithoutInOrderAppends() returns (run: Run, cm: Commit, w: Win)
    ensures Valid(run, 3) && TimelyVotes(run) && TimelyHeartbeats(run)
    ensures cm in Last(run).hist.commits && w in Last(run).hist.wins && w.term > cm.term
    ensures !(cm.prefix <= w.log)
  {
    hide Valid, TimelyVotes, TimelyHeartbeats, InOrderAppends, Scene;
    run := SceneBegins();
    run := Proposes(run, [SENTINEL], [SENTINEL]);
    var i, j: nat;
    assert [SENTINEL] + [E1] == ONE && ONE + [E1] == TWO;
    run, i := Ships(run, ONE);
    run := Proposes(run, ONE, [SENTINEL]);
    run, j := Ships(run, TWO);
    run := CommitsBoth(run, Ship(LONG, j));
    cm := Commit(1, 2, TWO);
    run := CutsCommitted(run, Ship(SHORT, i));
    run, w := WinsTermTwo(run, ONE);
  }

  /** A batch that ends where the leader's log ends is in order. */
  lemma WholeSuffixIsInOrder(run: Run, n: nat, i: nat, p: nat)
    requires Valid(run, n) && Orderly(run) && i < n && p < n
    requires i < |Last(run).nodes| && Last(run).nodes[i].role == Leader
    ensures AckOf(Last(run).hist, Last(run).nodes[i].term, p) <= |Last(run).nodes[i].log| - 1
  {
    hide Base, Fair, Matched, AckOf, Orderly;
    RunSafe(run, n, |run.acts|);
    var v := LeaderOwns(Last(run), i);
    assert AckOk(Last(run), v.term, p);
  }

  /** Orderly runs do the work: two entries committed in term 1 and in the log that wins term 2. */
  lemma OrderlyRunCommits() returns (run: Run, cm: Commit, w: Win)
    ensures Valid(run, 3) && Orderly(run)
    ensures cm in Last(run).hist.commits && w in Last(run).hist.wins && w.term > cm.term && cm.index == 2
  {
    hide Valid, TimelyVotes, TimelyHeartbeats, InOrderAppends, Scene;
    run := SceneBegins();
    assert [SENTINEL] + [E1] == ONE && ONE + [E1] == TWO;
    run := Proposes(run, [SENTINEL], [SENTINEL]);
    run := Proposes(run, ONE, [SENTINEL]);
    var j: nat;
    run, j := Ships(run, TWO);
    FirstAckOk(run);
    run := CommitsBoth(run, Ship(LONG, j));
    cm := Commit(1, 2, TWO);
    run, w := WinsTermTwo(run, TWO);
  }

  lemma FirstAckOk(run: Run)
    requires Valid(run, 3) && Orderly(run) && Scene(Last(run), TWO, [SENTINEL])
    ensures AckOf(Last(run).hist, 1, 1) <= 2
  {
    hide Valid, TimelyVotes, TimelyHeartbeats, InOrderAppends;
    WholeSuffixIsInOrder(run, 3, 0, 1);
  }
}
