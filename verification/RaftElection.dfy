/**
 Election Safety: in every run with timely votes and timely heartbeats, at most
 one node ever becomes leader in a term, across crashes, restarts and
 heartbeats sent by nodes that no longer lead.
 */
module RaftElection {
  import opened RaftLog
  import opened RaftNode
  import opened RaftCluster
  import opened RaftShape

  // -------------------------------------------------------------- majorities

  ghost predicate Majority(s: set<nat>, n: nat) {
    s <= Ids(n) && IsMajority(|s|, n)
  }

  lemma MajoritiesMeet(a: set<nat>, b: set<nat>, n: nat) returns (p: nat)
    requires Majority(a, n) && Majority(b, n)
    ensures p in a && p in b
  {
    if a * b == {} {
      assert |a + b| == |a| + |b|;
      SubsetCard(a + b, Ids(n));
      assert false;
    }
    p :| p in a * b;
  }

  lemma {:induction false} SubsetCard(a: set<nat>, b: set<nat>)
    requires a <= b
    ensures |a| <= |b|
  {
    if a != {} {
      var x :| x in a;
      SubsetCard(a - {x}, b - {x});
    }
  }

  // --------------------------------------------------------------- invariant

  ghost function Voters(q: set<Ballot>): set<nat> {
    set b | b in q :: b.voter
  }

  ghost predicate Pending(votes: set<VoteCall>, cand: nat, t: nat, peer: nat) {
    exists k :: k in votes && k.cand == cand && k.term == t && k.peer == peer
  }

  /** Voters whose ballot for this candidacy can no longer be waiting in the network. */
  ghost function Backers(ballots: set<Ballot>, votes: set<VoteCall>, cand: nat, t: nat): set<nat> {
    set b | b in ballots && b.term == t && b.cand == cand && !Pending(votes, cand, t, b.voter) :: b.voter
  }

  /** A cast ballot: its voter has reached the term, and the candidate's log passed the voter's check. */
  ghost predicate BallotOk(c: Cluster, b: Ballot) {
    && b.voter < |c.nodes|
    && b.term <= c.nodes[b.voter].term
    && Shape(b.log)
    && Slot(b.term, b.cand) in c.hist.adverts
    && var adv := c.hist.adverts[Slot(b.term, b.cand)];
       adv != [] && UpToDate(|adv| - 1, LastTerm(adv), b.log)
  }

  /** A node remembers the vote it cast in its current term. */
  ghost predicate VoterOk(c: Cluster, b: Ballot) {
    b.voter < |c.nodes| && c.nodes[b.voter].term == b.term ==> c.nodes[b.voter].votedFor == b.cand
  }

  ghost predicate OneBallotEach(ballots: set<Ballot>) {
    forall a, b :: a in ballots && b in ballots && a.term == b.term && a.voter == b.voter ==> a.cand == b.cand
  }

  ghost predicate OneCallEach(votes: set<VoteCall>) {
    forall j, k :: j in votes && k in votes && j.cand == k.cand && j.term == k.term && j.peer == k.peer ==> j == k
  }

  ghost predicate GrantOk(c: Cluster, k: VoteCall) {
    k.reply.Some? && k.reply.value.granted ==>
      && k.reply.value.term == k.term
      && exists b :: b in c.hist.ballots && b.term == k.term && b.voter == k.peer && b.cand == k.cand
  }

  ghost predicate CountOk(c: Cluster, i: nat)
    requires i < |c.nodes|
  {
    c.nodes[i].role == Candidate ==>
      c.nodes[i].voteCount <= |Backers(c.hist.ballots, c.votes, i, c.nodes[i].term)|
  }

  ghost predicate QuorumOk(c: Cluster, w: Win) {
    && w.quorum <= c.hist.ballots
    && (forall b :: b in w.quorum ==> b.term == w.term && b.cand == w.node)
    && Majority(Voters(w.quorum), |c.nodes|)
  }

  ghost predicate Fair(c: Cluster) {
    && (forall b :: b in c.hist.ballots ==> BallotOk(c, b) && VoterOk(c, b))
    && OneBallotEach(c.hist.ballots)
    && OneCallEach(c.votes)
    && (forall k :: k in c.votes ==> GrantOk(c, k))
    && (forall i :: 0 <= i < |c.nodes| ==> CountOk(c, i))
    && (forall w :: w in c.hist.wins ==> QuorumOk(c, w))
  }

  lemma InitFair(n: nat)
    ensures Fair(Init(n))
  {
  }

  /** Two winners of a term share a voter, and a voter has one candidate. */
  lemma FairHasOneWinner(c: Cluster)
    requires Fair(c)
    ensures OneWinner(c.hist)
  {
    forall v, w | v in c.hist.wins && w in c.hist.wins && v.term == w.term
      ensures v.node == w.node
    {
      assert QuorumOk(c, v) && QuorumOk(c, w);
      var p := MajoritiesMeet(Voters(v.quorum), Voters(w.quorum), |c.nodes|);
      var a :| a in v.quorum && a.voter == p;
      var b :| b in w.quorum && b.voter == p;
    }
  }

  // ------------------------------------------------------------ calm actions

  /** Votes of a term are kept, and no candidacy starts or gains votes. */
  ghost predicate CalmChange(s: Node, s': Node) {
    && s'.term >= s.term
    && (s'.term == s.term ==> s'.votedFor == s.votedFor)
    && (s'.role == Candidate ==> s.role == Candidate && s'.term == s.term && s'.voteCount == s.voteCount)
  }

  /** The call was in flight before, if perhaps without its reply. */
  ghost predicate Descends(votes: set<VoteCall>, k: VoteCall) {
    exists o :: o in votes && k == o.(reply := k.reply)
  }

  lemma FewerDescend(votes: set<VoteCall>, votes': set<VoteCall>)
    requires votes' <= votes
    ensures forall k :: k in votes' ==> Descends(votes, k)
  {
    forall k | k in votes'
      ensures Descends(votes, k)
    {
      assert k in votes && k == k.(reply := k.reply);
    }
  }

  lemma BackersGrow(ballots: set<Ballot>, ballots': set<Ballot>, votes: set<VoteCall>, votes': set<VoteCall>,
                    cand: nat, t: nat)
    requires ballots <= ballots'
    requires forall k :: k in votes' ==> Descends(votes, k)
    ensures Backers(ballots, votes, cand, t) <= Backers(ballots', votes', cand, t)
    ensures |Backers(ballots, votes, cand, t)| <= |Backers(ballots', votes', cand, t)|
  {
    forall p | p in Backers(ballots, votes, cand, t)
      ensures p in Backers(ballots', votes', cand, t)
    {
      assert !Pending(votes', cand, t, p);
      var b :| b in ballots && b.term == t && b.cand == cand && b.voter == p;
      assert b in ballots';
    }
    SubsetCard(Backers(ballots, votes, cand, t), Backers(ballots', votes', cand, t));
  }

  lemma CalmStep(c: Cluster, c': Cluster, i: nat, s: Node)
    requires Fair(c) && i < |c.nodes|
    requires c'.nodes == c.nodes[i := s]
    requires CalmChange(c.nodes[i], s)
    requires c'.votes <= c.votes
    requires c'.hist.ballots == c.hist.ballots && c'.hist.wins == c.hist.wins && c'.hist.adverts == c.hist.adverts
    ensures Fair(c')
  {
    hide Shape, UpToDate;
    forall b | b in c'.hist.ballots
      ensures BallotOk(c', b) && VoterOk(c', b)
    {
      assert BallotOk(c, b) && VoterOk(c, b);
    }
    forall k | k in c'.votes
      ensures GrantOk(c', k)
    {
      assert GrantOk(c, k);
    }
    forall j | 0 <= j < |c'.nodes|
      ensures CountOk(c', j)
    {
      assert CountOk(c, j);
      FewerDescend(c.votes, c'.votes);
      BackersGrow(c.hist.ballots, c'.hist.ballots, c.votes, c'.votes, j, c.nodes[j].term);
    }
    forall w | w in c'.hist.wins
      ensures QuorumOk(c', w)
    {
      assert QuorumOk(c, w);
    }
  }

  lemma AppendIsCalm(s: Node, a: AppendArgs)
    ensures CalmChange(s, AppendEntries(s, a).0)
  {
  }

  lemma AppendReplyIsCalm(s: Node, me: nat, peer: nat, a: AppendArgs, r: AppendReply)
    requires s.role == Leader ==> peer < |s.matchIndex| && peer < |s.nextIndex|
    requires s.commitIndex >= 0
    ensures CalmChange(s, OnAppendReply(s, me, peer, a, r))
  {
  }

  lemma SendAppendFair(c: Cluster, i: nat, p: nat)
    requires Base(c) && Fair(c) && Enabled(c, SendAppend(i, p))
    ensures Fair(DoSendAppend(c, i, p))
  {
    hide Fair, Shape, AppendCallOk;
    var c' := DoSendAppend(c, i, p);
    CalmStep(c, c', i, c'.nodes[i]);
  }

  lemma HandleAppendFair(c: Cluster, k: AppendCall)
    requires Base(c) && Fair(c) && Enabled(c, HandleAppend(k))
    ensures Fair(DoHandleAppend(c, k))
  {
    hide Fair, Shape, AppendCallOk, Merged, Refuses, ConflictOf;
    var c' := DoHandleAppend(c, k);
    AppendIsCalm(c.nodes[k.peer], k.args);
    CalmStep(c, c', k.peer, c'.nodes[k.peer]);
  }

  lemma RecvAppendFair(c: Cluster, k: AppendCall)
    requires Base(c) && Fair(c) && Enabled(c, RecvAppend(k))
    ensures Fair(DoRecvAppend(c, k))
  {
    hide Fair, Shape, AppendCallOk, OnAppendReply;
    var c' := DoRecvAppend(c, k);
    AppendReplyIsCalm(c.nodes[k.from], k.from, k.peer, k.args, k.reply.value);
    CalmStep(c, c', k.from, c'.nodes[k.from]);
  }

  lemma ProposeFair(c: Cluster, i: nat, cmd: Command)
    requires Base(c) && Fair(c) && Enabled(c, Action.Propose(i, cmd))
    ensures Fair(DoPropose(c, i, cmd))
  {
    hide Fair, Shape, AppendCallOk;
    var c' := DoPropose(c, i, cmd);
    CalmStep(c, c', i, c'.nodes[i]);
  }

  lemma BeatsFair(c: Cluster, a: Action)
    requires Base(c) && Fair(c) && Enabled(c, a) && TimelyBeat(c, a)
    requires a.HandleBeat? || a.RecvBeat? || a.ApplyOne? || a.Restart?
    ensures Fair(Do(c, a))
  {
    hide Fair, Shape, AppendCallOk;
    var c' := Do(c, a);
    match a
    case HandleBeat(k) => CalmStep(c, c', k.peer, c'.nodes[k.peer]);
    case RecvBeat(k) => CalmStep(c, c', k.from, c'.nodes[k.from]);
    case ApplyOne(i) => CalmStep(c, c', i, c'.nodes[i]);
    case Restart(i) =>
      RestartKeepsDurable(c.nodes[i]);
      CalmStep(c, c', i, c'.nodes[i]);
  }

  lemma NetworkFair(c: Cluster, a: Action)
    requires Base(c) && Fair(c) && Enabled(c, a) && |c.nodes| > 0
    requires a.Beat? || a.LoseVote? || a.LoseBeat? || a.LoseAppend?
    ensures Fair(Do(c, a))
  {
    var c' := Do(c, a);
    assert c'.nodes == c.nodes[0 := c.nodes[0]];
    CalmStep(c, c', 0, c.nodes[0]);
  }

  // ---------------------------------------------------------- voting actions

  /** A node that grants its vote has not voted for anyone else in that term. */
  lemma NewBallotOk(c: Cluster, k: VoteCall, b: Ballot)
    requires Base(c) && Fair(c) && k in c.votes && b in DoHandleVote(c, k).hist.ballots
    ensures BallotOk(DoHandleVote(c, k), b) && VoterOk(DoHandleVote(c, k), b)
    ensures b in c.hist.ballots || (b.term == DoHandleVote(c, k).nodes[k.peer].term && b.voter == k.peer)
  {
    hide AppendCallOk, QuorumOk, GrantOk, CountOk, Shape;
    assert VoteCallOk(c, k);
    if b in c.hist.ballots {
      assert BallotOk(c, b) && VoterOk(c, b);
    } else {
      assert AdvertOk(c, k.term, k.cand);
      assert NodeOk(c.nodes[k.peer], |c.nodes|);
    }
  }

  lemma NewBallotFair(c: Cluster, k: VoteCall)
    requires Base(c) && Fair(c) && k in c.votes
    ensures var c' := DoHandleVote(c, k);
      && (forall b :: b in c'.hist.ballots ==> BallotOk(c', b) && VoterOk(c', b))
      && OneBallotEach(c'.hist.ballots)
  {
    hide BallotOk, AppendCallOk, QuorumOk, GrantOk, CountOk, Shape, RequestVote;
    var c' := DoHandleVote(c, k);
    forall b | b in c'.hist.ballots
      ensures BallotOk(c', b) && VoterOk(c', b)
    {
      NewBallotOk(c, k, b);
    }
    forall a, b | a in c'.hist.ballots && b in c'.hist.ballots && a.term == b.term && a.voter == b.voter
      ensures a.cand == b.cand
    {
      assert VoterOk(c', a) && VoterOk(c', b);
      NewBallotOk(c, k, a);
      NewBallotOk(c, k, b);
    }
  }

  lemma NewReplyFair(c: Cluster, k: VoteCall, m: VoteCall)
    requires Base(c) && Fair(c) && k in c.votes && m in DoHandleVote(c, k).votes
    ensures GrantOk(DoHandleVote(c, k), m)
  {
    var c' := DoHandleVote(c, k);
    var (s', r) := RequestVote(c.nodes[k.peer], VoteArgs(k.term, k.cand, k.lastIndex, k.lastTerm));
    if m in c.votes {
      assert GrantOk(c, m);
      if m.reply.Some? && m.reply.value.granted {
        var b :| b in c.hist.ballots && b.term == m.term && b.voter == m.peer && b.cand == m.cand;
        assert b in c'.hist.ballots;
      }
    } else if r.granted {
      assert Ballot(s'.term, k.peer, k.cand, s'.log) in c'.hist.ballots;
    }
  }

  lemma ReplyKeepsCalls(votes: set<VoteCall>, k: VoteCall, r: VoteReply)
    requires OneCallEach(votes) && k in votes
    ensures var votes' := votes - {k} + {k.(reply := Some(r))};
      OneCallEach(votes') && forall m :: m in votes' ==> Descends(votes, m)
  {
    var votes' := votes - {k} + {k.(reply := Some(r))};
    forall m | m in votes'
      ensures Descends(votes, m)
    {
      if m in votes {
        assert m == m.(reply := m.reply);
      } else {
        assert m == k.(reply := m.reply);
      }
    }
  }

  lemma HandleVoteFair(c: Cluster, k: VoteCall)
    requires Base(c) && Fair(c) && Enabled(c, HandleVote(k))
    ensures Fair(DoHandleVote(c, k))
  {
    hide Shape, AppendCallOk, UpToDate, BallotOk, GrantOk;
    var c' := DoHandleVote(c, k);
    NewBallotFair(c, k);
    ReplyKeepsCalls(c.votes, k, RequestVote(c.nodes[k.peer], VoteArgs(k.term, k.cand, k.lastIndex, k.lastTerm)).1);
    forall m | m in c'.votes
      ensures GrantOk(c', m)
    {
      NewReplyFair(c, k, m);
    }
    forall j | 0 <= j < |c'.nodes|
      ensures CountOk(c', j)
    {
      assert CountOk(c, j);
      BackersGrow(c.hist.ballots, c'.hist.ballots, c.votes, c'.votes, j, c.nodes[j].term);
    }
    forall w | w in c'.hist.wins
      ensures QuorumOk(c', w)
    {
      assert QuorumOk(c, w);
    }
  }

  /** The processed grant adds its voter to the backers: its call has just left the network. */
  lemma GrantAddsBacker(c: Cluster, k: VoteCall)
    requires Fair(c) && k in c.votes && k.reply.Some? && k.reply.value.granted
    ensures |Backers(c.hist.ballots, c.votes - {k}, k.cand, k.term)|
         >= |Backers(c.hist.ballots, c.votes, k.cand, k.term)| + 1
  {
    var before := Backers(c.hist.ballots, c.votes, k.cand, k.term);
    var after := Backers(c.hist.ballots, c.votes - {k}, k.cand, k.term);
    assert GrantOk(c, k);
    var b :| b in c.hist.ballots && b.term == k.term && b.voter == k.peer && b.cand == k.cand;
    assert k.peer !in before by {
      assert Pending(c.votes, k.cand, k.term, k.peer);
    }
    assert k.peer in after;
    FewerDescend(c.votes, c.votes - {k});
    BackersGrow(c.hist.ballots, c.hist.ballots, c.votes, c.votes - {k}, k.cand, k.term);
    SubsetCard(before + {k.peer}, after);
  }

  lemma BackersAreVoters(c: Cluster, votes: set<VoteCall>, cand: nat, t: nat)
    requires Fair(c)
    ensures Voters(BallotsFor(c.hist.ballots, t, cand)) <= Ids(|c.nodes|)
    ensures |Backers(c.hist.ballots, votes, cand, t)| <= |Voters(BallotsFor(c.hist.ballots, t, cand))|
  {
    var q := BallotsFor(c.hist.ballots, t, cand);
    forall p | p in Voters(q)
      ensures p in Ids(|c.nodes|)
    {
      var b :| b in q && b.voter == p;
      assert BallotOk(c, b);
    }
    forall p | p in Backers(c.hist.ballots, votes, cand, t)
      ensures p in Voters(q)
    {
      var b :| b in c.hist.ballots && b.term == t && b.cand == cand && b.voter == p;
      assert b in q;
    }
    SubsetCard(Backers(c.hist.ballots, votes, cand, t), Voters(q));
  }

  /** A win backed by a counted majority is a win by a majority of ballots. */
  lemma WinFair(c: Cluster, c': Cluster, i: nat, s: Node)
    requires Fair(c) && i < |c.nodes|
    requires c.nodes[i].role == Candidate && s.role == Leader
    requires s.term == c.nodes[i].term && s.votedFor == c.nodes[i].votedFor && s.log == c.nodes[i].log && s.log != []
    requires |c.epochs| == |c.nodes|
    requires c' == c.(nodes := c.nodes[i := s], votes := c'.votes, hist := RecordWin(c.hist, i, c.epochs[i], s))
    requires c'.votes <= c.votes
    requires IsMajority(|Backers(c.hist.ballots, c'.votes, i, s.term)|, |c.nodes|)
    ensures Fair(c')
  {
    hide Shape, UpToDate, BallotOk, GrantOk;
    var m := c.(nodes := c'.nodes, votes := c'.votes);
    CalmStep(c, m, i, s);
    BackersAreVoters(m, c'.votes, i, s.term);
    RecordFair(m, c', Win(s.term, i, c.epochs[i], s.log, BallotsFor(c.hist.ballots, s.term, i)));
  }

  lemma RecordFair(m: Cluster, c': Cluster, w0: Win)
    requires Fair(m) && QuorumOk(m, w0)
    requires c'.nodes == m.nodes && c'.votes == m.votes
    requires c'.hist.ballots == m.hist.ballots && c'.hist.adverts == m.hist.adverts
    requires c'.hist.wins == m.hist.wins + {w0}
    ensures Fair(c')
  {
    hide Shape, UpToDate;
    forall b | b in c'.hist.ballots
      ensures BallotOk(c', b) && VoterOk(c', b)
    {
      assert BallotOk(m, b) && VoterOk(m, b);
    }
    forall k | k in c'.votes
      ensures GrantOk(c', k)
    {
      assert GrantOk(m, k);
    }
    forall j | 0 <= j < |c'.nodes|
      ensures CountOk(c', j)
    {
      assert CountOk(m, j);
    }
    forall w | w in c'.hist.wins
      ensures QuorumOk(c', w)
    {
      assert QuorumOk(m, w);
    }
  }

  lemma RecvVoteFair(c: Cluster, k: VoteCall)
    requires Base(c) && Fair(c) && Enabled(c, RecvVote(k)) && TimelyVote(c, RecvVote(k))
    ensures Fair(DoRecvVote(c, k))
  {
    var i := k.cand;
    var s := c.nodes[i];
    var r := k.reply.value;
    var c' := DoRecvVote(c, k);
    assert CountOk(c, i) && GrantOk(c, k);
    if r.term <= s.term && r.granted && s.role == Candidate {
      GrantAddsBacker(c, k);
      if c'.nodes[i].role == Leader {
        WinFair(c, c', i, c'.nodes[i]);
      } else {
        CountedFair(c, c', k);
      }
    } else {
      CalmStep(c, c', i, c'.nodes[i]);
    }
  }

  lemma CountedFair(c: Cluster, c': Cluster, k: VoteCall)
    requires Fair(c) && k in c.votes && k.cand < |c.nodes|
    requires c.nodes[k.cand].role == Candidate && c.nodes[k.cand].term == k.term
    requires c' == c.(nodes := c.nodes[k.cand := c.nodes[k.cand].(voteCount := c.nodes[k.cand].voteCount + 1)],
                      votes := c.votes - {k})
    requires |Backers(c.hist.ballots, c'.votes, k.cand, k.term)|
          >= |Backers(c.hist.ballots, c.votes, k.cand, k.term)| + 1
    ensures Fair(c')
  {
    forall b | b in c'.hist.ballots
      ensures BallotOk(c', b) && VoterOk(c', b)
    {
      assert BallotOk(c, b) && VoterOk(c, b);
    }
    forall m | m in c'.votes
      ensures GrantOk(c', m)
    {
      assert GrantOk(c, m);
    }
    forall j | 0 <= j < |c'.nodes|
      ensures CountOk(c', j)
    {
      assert CountOk(c, j);
      FewerDescend(c.votes, c'.votes);
      BackersGrow(c.hist.ballots, c'.hist.ballots, c.votes, c'.votes, j, c.nodes[j].term);
    }
    forall w | w in c'.hist.wins
      ensures QuorumOk(c', w)
    {
      assert QuorumOk(c, w);
    }
  }

  lemma CampaignBallots(c: Cluster, i: nat)
    requires Base(c) && Fair(c) && i < |c.nodes|
    ensures var c' := Campaign(c, i);
      && (forall b :: b in c'.hist.ballots ==> BallotOk(c', b) && VoterOk(c', b))
      && OneBallotEach(c'.hist.ballots)
  {
    hide Shape, AppendCallOk, QuorumOk, GrantOk;
    var c' := Campaign(c, i);
    forall b | b in c'.hist.ballots
      ensures BallotOk(c', b) && VoterOk(c', b)
    {
      if b in c.hist.ballots {
        assert BallotOk(c, b) && VoterOk(c, b);
        KeepsAdvert(c, i, b);
      }
    }
    forall a, b | a in c'.hist.ballots && b in c'.hist.ballots && a.term == b.term && a.voter == b.voter
      ensures a.cand == b.cand
    {
      assert VoterOk(c', a) && VoterOk(c', b);
      assert a in c.hist.ballots || a.term == c'.nodes[i].term;
    }
  }

  lemma CampaignCalls(c: Cluster, i: nat)
    requires Base(c) && Fair(c) && i < |c.nodes|
    ensures var c' := Campaign(c, i);
      && OneCallEach(c'.votes)
      && (forall k :: k in c'.votes ==> GrantOk(c', k))
  {
    var c' := Campaign(c, i);
    forall k | k in c'.votes
      ensures GrantOk(c', k)
      ensures k in c.votes && k.cand == i ==> k.term < c'.nodes[i].term
    {
      if k in c.votes {
        assert GrantOk(c, k) && VoteCallOk(c, k);
        assert AdvertOk(c, k.term, k.cand);
        if k.reply.Some? && k.reply.value.granted {
          var b :| b in c.hist.ballots && b.term == k.term && b.voter == k.peer && b.cand == k.cand;
          assert b in c'.hist.ballots;
        }
      }
    }
  }

  lemma CampaignFair(c: Cluster, i: nat)
    requires Base(c) && Fair(c) && i < |c.nodes|
    ensures Fair(Campaign(c, i))
  {
    var c' := Campaign(c, i);
    CampaignBallots(c, i);
    CampaignCalls(c, i);
    SelfBacks(c, i);
    forall j | 0 <= j < |c'.nodes|
      ensures CountOk(c', j)
    {
      if j != i {
        assert CountOk(c, j);
        BackersOfOthers(c, i, j, c.nodes[j].term);
      }
    }
    forall w | w in c'.hist.wins
      ensures QuorumOk(c', w)
    {
      assert QuorumOk(c, w);
    }
  }

  lemma SelfBacks(c: Cluster, i: nat)
    requires Base(c) && i < |c.nodes|
    ensures var c' := Campaign(c, i);
      |Backers(c'.hist.ballots, c'.votes, i, c'.nodes[i].term)| >= 1
  {
    var c' := Campaign(c, i);
    var s' := c'.nodes[i];
    assert Ballot(s'.term, i, i, s'.log) in c'.hist.ballots;
    assert !Pending(c'.votes, i, s'.term, i);
    assert i in Backers(c'.hist.ballots, c'.votes, i, s'.term);
  }

  /** A new candidacy advertises in a slot no ballot refers to. */
  lemma KeepsAdvert(c: Cluster, i: nat, b: Ballot)
    requires Base(c) && i < |c.nodes| && BallotOk(c, b)
    ensures BallotOk(Campaign(c, i), b)
  {
    assert AdvertOk(c, b.term, b.cand);
  }

  lemma BackersOfOthers(c: Cluster, i: nat, j: nat, t: nat)
    requires Base(c) && i < |c.nodes| && j != i
    ensures |Backers(c.hist.ballots, c.votes, j, t)|
         <= |Backers(Campaign(c, i).hist.ballots, Campaign(c, i).votes, j, t)|
  {
    var c' := Campaign(c, i);
    forall p | p in Backers(c.hist.ballots, c.votes, j, t)
      ensures p in Backers(c'.hist.ballots, c'.votes, j, t)
    {
      var b :| b in c.hist.ballots && b.term == t && b.cand == j && b.voter == p;
      assert b in c'.hist.ballots;
      assert !Pending(c'.votes, j, t, p);
    }
    SubsetCard(Backers(c.hist.ballots, c.votes, j, t), Backers(c'.hist.ballots, c'.votes, j, t));
  }

  lemma ElectFair(c: Cluster, i: nat)
    requires Base(c) && Fair(c) && Enabled(c, Elect(i))
    ensures Fair(DoElect(c, i))
  {
    hide Shape, AppendCallOk, BallotOk, GrantOk, QuorumOk;
    CampaignFair(c, i);
    var m := Campaign(c, i);
    var c' := DoElect(c, i);
    if c'.nodes[i].role == Leader {
      assert c'.nodes == m.nodes[i := c'.nodes[i]];
      var t := m.nodes[i].term;
      assert CountOk(m, i);
      FewerDescend(m.votes, c'.votes);
      BackersGrow(m.hist.ballots, m.hist.ballots, m.votes, c'.votes, i, t);
      WinFair(m, c', i, c'.nodes[i]);
    } else {
      assert c' == m;
    }
  }

  lemma StepFair(c: Cluster, a: Action)
    requires Base(c) && Fair(c) && Enabled(c, a) && |c.nodes| > 0
    requires TimelyVote(c, a) && TimelyBeat(c, a)
    ensures Fair(Do(c, a))
  {
    hide Fair, Base;
    match a
    case Elect(i) => ElectFair(c, i);
    case HandleVote(k) => HandleVoteFair(c, k);
    case RecvVote(k) => RecvVoteFair(c, k);
    case SendAppend(i, p) => SendAppendFair(c, i, p);
    case HandleAppend(k) => HandleAppendFair(c, k);
    case RecvAppend(k) => RecvAppendFair(c, k);
    case Propose(i, cmd) => ProposeFair(c, i, cmd);
    case HandleBeat(_) => BeatsFair(c, a);
    case RecvBeat(_) => BeatsFair(c, a);
    case ApplyOne(_) => BeatsFair(c, a);
    case Restart(_) => BeatsFair(c, a);
    case _ => NetworkFair(c, a);
  }

  // ---------------------------------------------------------------- theorem

  lemma {:induction false} RunFair(run: Run, n: nat, k: nat)
    requires Valid(run, n) && TimelyVotes(run) && TimelyHeartbeats(run) && k < |run.states|
    ensures Base(run.states[k]) && Fair(run.states[k])
  {
    hide Fair, Base, Do, TimelyVote, TimelyBeat;
    RunBase(run, n, k);
    if k == 0 {
      InitFair(n);
    } else {
      RunFair(run, n, k - 1);
      RunBase(run, n, k - 1);
      assert Follows(run, k - 1);
      StepFair(run.states[k - 1], run.acts[k - 1]);
    }
  }

  /** At most one node ever wins a term, over the whole run. */
  lemma ElectionSafety(run: Run, n: nat)
    requires Valid(run, n) && TimelyVotes(run) && TimelyHeartbeats(run)
    ensures forall k :: 0 <= k < |run.states| ==> OneWinner(run.states[k].hist)
  {
    forall k | 0 <= k < |run.states|
      ensures OneWinner(run.states[k].hist)
    {
      RunFair(run, n, k);
      FairHasOneWinner(run.states[k]);
    }
  }
}
