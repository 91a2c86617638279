/**
 What every run keeps, whatever the network does and with no assumption on the
 run: persisted state, log shape, advertised logs, leader bookkeeping.
 */
module RaftShape {
  import opened RaftLog
  import opened RaftNode
  import opened RaftCluster

  // ------------------------------------------------------------- invariant

  ghost predicate Won(h: History, t: nat, i: nat) {
    exists w :: w in h.wins && w.term == t && w.node == i
  }

  /** Adverts belong to elections that were started, and hold real logs. */
  ghost predicate AdvertOk(c: Cluster, t: nat, i: nat)
    requires Slot(t, i) in c.hist.adverts
  {
    && i < |c.nodes| && 1 <= t <= c.nodes[i].term
    && c.hist.adverts[Slot(t, i)] != []
  }

  ghost predicate VoteCallOk(c: Cluster, k: VoteCall) {
    && Slot(k.term, k.cand) in c.hist.adverts
    && var adv := c.hist.adverts[Slot(k.term, k.cand)];
       adv != [] && k.lastIndex == |adv| - 1 && k.lastTerm == LastTerm(adv)
  }

  /** A running candidate still has the log it advertised, and has not won this term. */
  ghost predicate CandidateOk(c: Cluster, i: nat)
    requires i < |c.nodes|
  {
    c.nodes[i].role == Candidate ==>
      && Slot(c.nodes[i].term, i) in c.hist.adverts
      && c.hist.adverts[Slot(c.nodes[i].term, i)] == c.nodes[i].log
      && !Won(c.hist, c.nodes[i].term, i)
  }

  ghost predicate LeaderOk(c: Cluster, i: nat)
    requires i < |c.nodes|
  {
    c.nodes[i].role == Leader ==> Won(c.hist, c.nodes[i].term, i)
  }

  ghost predicate WinOk(c: Cluster, w: Win) {
    && w.node < |c.nodes|
    && w.term <= c.nodes[w.node].term
    && Slot(w.term, w.node) in c.hist.adverts
    && w.log == c.hist.adverts[Slot(w.term, w.node)]
  }

  ghost predicate EntriesOk(a: AppendArgs) {
    && a.prev >= 0 && a.prevTerm >= 0
    && NonDecreasing(a.entries)
    && forall i :: 0 <= i < |a.entries| ==> 1 <= a.entries[i].term <= a.term && a.entries[i].term >= a.prevTerm
  }

  ghost predicate AppendCallOk(c: Cluster, k: AppendCall) {
    && k.from < |c.nodes|
    && EntriesOk(k.args)
    && Won(c.hist, k.args.term, k.from)
    && (c.nodes[k.from].role == Leader && c.nodes[k.from].term == k.args.term ==>
          EndOf(k.args) < |c.nodes[k.from].log|)
    && (k.reply.Some? && !k.reply.value.success ==> k.reply.value.conflict.index <= k.args.prev)
  }

  ghost predicate Base(c: Cluster) {
    && Sane(c)
    && (forall t, i :: Slot(t, i) in c.hist.adverts ==> AdvertOk(c, t, i))
    && (forall k :: k in c.votes ==> VoteCallOk(c, k))
    && (forall i :: 0 <= i < |c.nodes| ==> CandidateOk(c, i) && LeaderOk(c, i))
    && (forall w :: w in c.hist.wins ==> WinOk(c, w))
    && (forall k :: k in c.appends ==> AppendCallOk(c, k))
  }

  lemma InitBase(n: nat)
    ensures Base(Init(n)) && |Init(n).nodes| == n
  {
  }

  // ------------------------------------------------------------- one node

  lemma VoteKeepsOk(s: Node, a: VoteArgs, n: nat)
    requires NodeOk(s, n)
    ensures NodeOk(RequestVote(s, a).0, n)
    ensures RequestVote(s, a).0.log == s.log
  {
  }

  lemma LeaderIsOk(s: Node, me: nat, n: nat)
    requires NodeOk(s, n) && me < n && s.term >= 1
    ensures NodeOk(BecomeLeader(s, me, n), n)
  {
  }

  /** Accepting a batch keeps the log's shape, whoever sent it. */
  lemma MergeKeepsShape(log: Log, term: nat, a: AppendArgs)
    requires Shape(log) && LastTerm(log) <= term && a.term <= term && EntriesOk(a)
    requires !Refuses(log, a.prev, a.prevTerm)
    ensures Shape(Sync(log, a.prev + 1, a.entries))
    ensures LastTerm(Sync(log, a.prev + 1, a.entries)) <= term
  {
    hide Sync, Shape;
    PrevHeld(log, a);
    SyncShape(log, a.prev, a.entries);
    if a.entries != [] {
      SyncTerms(log, a.prev, a.entries);
      var out := Sync(log, a.prev + 1, a.entries);
      assert out[|out| - 1].term == a.entries[|a.entries| - 1].term;
    } else {
      SyncNothing(log, a.prev + 1);
    }
  }

  lemma PrevHeld(log: Log, a: AppendArgs)
    requires Shape(log) && a.prev >= 0 && !Refuses(log, a.prev, a.prevTerm)
    ensures a.prev < |log| && log[a.prev].term == a.prevTerm
  {
  }

  lemma NewLogIsOk(s: Node, log: Log, commit: int, n: nat)
    requires NodeOk(s, n) && s.role == Follower
    requires Shape(log) && LastTerm(log) <= s.term
    ensures NodeOk(FollowCommit(Persist(s.(log := log)), commit), n)
  {
  }

  lemma AppendKeepsOk(s: Node, a: AppendArgs, n: nat)
    requires NodeOk(s, n) && EntriesOk(a)
    ensures NodeOk(AppendEntries(s, a).0, n)
  {
    hide Shape, Sync, Refuses;
    if Accepts(s, a) {
      MergeKeepsShape(s.log, a.term, a);
      NewLogIsOk(Heed(s, a.term), Sync(s.log, a.prev + 1, a.entries), a.commit, n);
    }
  }

  lemma ReplyKeepsOk(s: Node, me: nat, peer: nat, a: AppendArgs, r: AppendReply, n: nat)
    requires NodeOk(s, n) && me < n && peer < n
    requires a.prev >= 0
    requires s.role == Leader && s.term == a.term ==> EndOf(a) < |s.log|
    requires !r.success ==> r.conflict.index <= a.prev
    ensures NodeOk(OnAppendReply(s, me, peer, a, r), n)
    ensures OnAppendReply(s, me, peer, a, r).log == s.log
    ensures OnAppendReply(s, me, peer, a, r).term >= s.term
  {
  }

  lemma ProposeKeepsOk(s: Node, me: nat, cmd: Command, n: nat)
    requires NodeOk(s, n) && me < n && s.role == Leader
    ensures NodeOk(RaftNode.Propose(s, me, cmd), n)
  {
    var log := s.log + [Entry(s.term, cmd)];
    assert forall i :: 0 <= i < |s.log| ==> s.log[i].term <= s.log[|s.log| - 1].term;
    assert Shape(log);
  }

  // ---------------------------------------------------------- every action

  /** Nothing but term, log and role matters to the facts about calls and history. */
  ghost predicate QuietChange(s: Node, s': Node) {
    && s'.term >= s.term
    && (s'.role == Candidate ==> s.role == Candidate && s'.term == s.term && s'.log == s.log)
    && (s'.role == Leader ==> s.role == Leader && s'.term == s.term && s'.log == s.log)
  }

  /** An action that changes one node quietly and leaves elections alone. */
  lemma QuietStep(c: Cluster, c': Cluster, i: nat, s: Node)
    requires Base(c) && i < |c.nodes|
    requires c'.nodes == c.nodes[i := s] && |c'.epochs| == |c.epochs|
    requires NodeOk(s, |c.nodes|) && QuietChange(c.nodes[i], s)
    requires c'.hist.adverts == c.hist.adverts && c'.hist.wins == c.hist.wins
    requires forall k :: k in c'.votes ==> k in c.votes || (exists o :: o in c.votes && k == o.(reply := k.reply))
    requires forall k :: k in c'.beats ==> k.from < |c.nodes| && k.peer < |c.nodes|
    requires forall k :: k in c'.appends ==>
      k in c.appends || (k.from < |c.nodes| && k.peer < |c.nodes| && k.from != k.peer && AppendCallOk(c, k))
    ensures Base(c')
  {
    hide Shape, IndicesValid;
    forall t, j | Slot(t, j) in c'.hist.adverts
      ensures AdvertOk(c', t, j)
    {
      assert AdvertOk(c, t, j);
    }
    forall k | k in c'.votes
      ensures VoteCallOk(c', k) && k.cand < |c.nodes| && k.peer < |c.nodes| && k.cand != k.peer
    {
      if k in c.votes {
        assert VoteCallOk(c, k);
      } else {
        var o :| o in c.votes && k == o.(reply := k.reply);
        assert VoteCallOk(c, o);
      }
    }
    forall j | 0 <= j < |c'.nodes|
      ensures CandidateOk(c', j) && LeaderOk(c', j)
    {
      assert CandidateOk(c, j) && LeaderOk(c, j);
    }
    forall w | w in c'.hist.wins
      ensures WinOk(c', w)
    {
      assert WinOk(c, w);
    }
    forall k | k in c'.appends
      ensures AppendCallOk(c', k)
    {
      assert AppendCallOk(c, k);
    }
  }

  lemma HandleVoteBase(c: Cluster, k: VoteCall)
    requires Base(c) && Enabled(c, HandleVote(k))
    ensures Base(DoHandleVote(c, k))
  {
    hide Shape, IndicesValid, AppendCallOk, UpToDate;
    var a := VoteArgs(k.term, k.cand, k.lastIndex, k.lastTerm);
    VoteKeepsOk(c.nodes[k.peer], a, |c.nodes|);
    var c' := DoHandleVote(c, k);
    forall m | m in c'.votes
      ensures m in c.votes || (exists o :: o in c.votes && m == o.(reply := m.reply))
    {
      if m !in c.votes {
        assert m == k.(reply := m.reply);
      }
    }
    QuietStep(c, c', k.peer, c'.nodes[k.peer]);
  }

  lemma HandleBeatBase(c: Cluster, k: BeatCall)
    requires Base(c) && Enabled(c, HandleBeat(k))
    ensures Base(DoHandleBeat(c, k))
  {
    hide Shape, IndicesValid, AppendCallOk;
    var c' := DoHandleBeat(c, k);
    QuietStep(c, c', k.peer, c'.nodes[k.peer]);
  }

  lemma RecvBeatBase(c: Cluster, k: BeatCall)
    requires Base(c) && Enabled(c, RecvBeat(k))
    ensures Base(DoRecvBeat(c, k))
  {
    var c' := DoRecvBeat(c, k);
    QuietStep(c, c', k.from, c'.nodes[k.from]);
  }

  lemma BeatBase(c: Cluster, i: nat)
    requires Base(c) && Enabled(c, Beat(i))
    ensures Base(DoBeat(c, i))
  {
    var c' := DoBeat(c, i);
    assert c'.nodes == c.nodes[i := c.nodes[i]];
    QuietStep(c, c', i, c.nodes[i]);
  }

  lemma SendAppendBase(c: Cluster, i: nat, p: nat)
    requires Base(c) && Enabled(c, SendAppend(i, p))
    ensures Base(DoSendAppend(c, i, p))
  {
    hide VoteCallOk, CandidateOk, AdvertOk, WinOk, EntriesOk, Shape;
    var c' := DoSendAppend(c, i, p);
    var s := c.nodes[i];
    var k := AppendCall(i, c.epochs[i], p, BuildAppend(s, i, p), c.serial, None);
    assert LeaderOk(c, i);
    BuiltEntriesOk(s, i, p, |c.nodes|);
    assert AppendCallOk(c, k);
    QuietStep(c, c', i, c'.nodes[i]);
  }

  lemma BuiltEntriesOk(s: Node, me: nat, p: nat, n: nat)
    requires NodeOk(s, n) && s.role == Leader && p < n
    ensures EntriesOk(BuildAppend(s, me, p))
  {
    var a := BuildAppend(s, me, p);
    forall j | 0 <= j < |a.entries|
      ensures 1 <= a.entries[j].term <= a.term && a.entries[j].term >= a.prevTerm
    {
      assert a.entries[j] == s.log[NextFor(s, p) + j];
    }
  }

  lemma HandleAppendBase(c: Cluster, k: AppendCall)
    requires Base(c) && Enabled(c, HandleAppend(k))
    ensures Base(DoHandleAppend(c, k))
  {
    hide Shape, Sync, Refuses, ConflictStart;
    assert AppendCallOk(c, k);
    AppendKeepsOk(c.nodes[k.peer], k.args, |c.nodes|);
    var c' := DoHandleAppend(c, k);
    var k' := k.(reply := Some(AppendEntries(c.nodes[k.peer], k.args).1));
    assert AppendCallOk(c, k');
    QuietStep(c, c', k.peer, c'.nodes[k.peer]);
  }

  lemma RecvAppendBase(c: Cluster, k: AppendCall)
    requires Base(c) && Enabled(c, RecvAppend(k))
    ensures Base(DoRecvAppend(c, k))
  {
    assert AppendCallOk(c, k);
    ReplyKeepsOk(c.nodes[k.from], k.from, k.peer, k.args, k.reply.value, |c.nodes|);
    var c' := DoRecvAppend(c, k);
    QuietStep(c, c', k.from, c'.nodes[k.from]);
  }

  lemma ProposeBase(c: Cluster, i: nat, cmd: Command)
    requires Base(c) && Enabled(c, Action.Propose(i, cmd))
    ensures Base(DoPropose(c, i, cmd))
  {
    hide Shape, EntriesOk;
    ProposeKeepsOk(c.nodes[i], i, cmd, |c.nodes|);
    var c' := DoPropose(c, i, cmd);
    forall k | k in c'.votes
      ensures VoteCallOk(c', k)
    {
      assert VoteCallOk(c, k);
    }
    forall t, j | Slot(t, j) in c'.hist.adverts
      ensures AdvertOk(c', t, j)
    {
      assert AdvertOk(c, t, j);
    }
    forall w | w in c'.hist.wins
      ensures WinOk(c', w)
    {
      assert WinOk(c, w);
    }
    forall j | 0 <= j < |c'.nodes|
      ensures CandidateOk(c', j) && LeaderOk(c', j)
    {
      assert CandidateOk(c, j) && LeaderOk(c, j);
    }
    forall k | k in c'.appends
      ensures AppendCallOk(c', k)
    {
      assert AppendCallOk(c, k);
    }
  }

  lemma ApplyBase(c: Cluster, i: nat)
    requires Base(c) && Enabled(c, ApplyOne(i))
    ensures Base(DoApply(c, i))
  {
    var c' := DoApply(c, i);
    QuietStep(c, c', i, c'.nodes[i]);
  }

  lemma RestartBase(c: Cluster, i: nat)
    requires Base(c) && Enabled(c, Restart(i))
    ensures Base(DoRestart(c, i))
  {
    RestartKeepsDurable(c.nodes[i]);
    var c' := DoRestart(c, i);
    QuietStep(c, c', i, c'.nodes[i]);
  }

  lemma LoseBase(c: Cluster, a: Action)
    requires Base(c) && Enabled(c, a) && (a.LoseVote? || a.LoseBeat? || a.LoseAppend?)
    ensures Base(Do(c, a))
  {
    hide Shape, AppendCallOk, NodeOk;
    var c' := Do(c, a);
    if |c.nodes| > 0 {
      assert c'.nodes == c.nodes[0 := c.nodes[0]];
      QuietStep(c, c', 0, c.nodes[0]);
    }
  }

  /** Winning turns a candidate into a leader of a term it has not led before. */
  lemma WinBase(c: Cluster, c': Cluster, i: nat, s: Node)
    requires Base(c) && i < |c.nodes|
    requires c.nodes[i].role == Candidate
    requires NodeOk(s, |c.nodes|) && s.role == Leader && s.term == c.nodes[i].term && s.log == c.nodes[i].log
    requires c' == c.(nodes := c.nodes[i := s], votes := c'.votes, hist := RecordWin(c.hist, i, c.epochs[i], s))
    requires c'.votes <= c.votes
    ensures Base(c')
  {
    hide Shape, IndicesValid, EntriesOk;
    var w0 := Win(s.term, i, c.epochs[i], s.log, BallotsFor(c.hist.ballots, s.term, i));
    assert c'.hist.wins == c.hist.wins + {w0};
    assert CandidateOk(c, i);
    forall k | k in c'.votes
      ensures VoteCallOk(c', k)
    {
      assert VoteCallOk(c, k);
    }
    forall t, j | Slot(t, j) in c'.hist.adverts
      ensures AdvertOk(c', t, j)
    {
      assert AdvertOk(c, t, j);
    }
    forall w | w in c'.hist.wins
      ensures WinOk(c', w)
    {
      if w in c.hist.wins {
        assert WinOk(c, w);
      }
    }
    forall j | 0 <= j < |c'.nodes|
      ensures CandidateOk(c', j) && LeaderOk(c', j)
    {
      assert CandidateOk(c, j) && LeaderOk(c, j);
      assert w0 in c'.hist.wins;
      if c.nodes[j].role == Leader && j != i {
        var w :| w in c.hist.wins && w.term == c.nodes[j].term && w.node == j;
        assert w in c'.hist.wins;
      }
    }
    forall k | k in c'.appends
      ensures AppendCallOk(c', k)
    {
      assert AppendCallOk(c, k);
      var w :| w in c.hist.wins && w.term == k.args.term && w.node == k.from;
      assert w in c'.hist.wins;
    }
  }

  lemma RecvVoteBase(c: Cluster, k: VoteCall)
    requires Base(c) && Enabled(c, RecvVote(k))
    ensures Base(DoRecvVote(c, k))
  {
    hide Shape, EntriesOk;
    var i := k.cand;
    var c' := DoRecvVote(c, k);
    var s := c'.nodes[i];
    if s.role == Leader && c.nodes[i].role != Leader {
      LeaderIsOk(c.nodes[i].(voteCount := c.nodes[i].voteCount + 1), i, |c.nodes|);
      WinBase(c, c', i, s);
    } else {
      QuietStep(c, c', i, s);
    }
  }

  /** The state right after the term was raised and the node voted for itself. */
  function Campaign(c: Cluster, i: nat): Cluster
    requires |c.epochs| == |c.nodes| && i < |c.nodes| && c.nodes[i].log != []
  {
    var s := c.nodes[i];
    var s1 := Persist(s.(term := s.term + 1, role := Candidate, votedFor := i, voteCount := 1));
    c.(nodes := c.nodes[i := s1],
       votes := c.votes + (set p | p in Others(|c.nodes|, i) ::
         VoteCall(i, c.epochs[i], p, s1.term, |s1.log| - 1, LastTerm(s1.log), None)),
       hist := RecordElection(c.hist, i, s1))
  }

  lemma CampaignBase(c: Cluster, i: nat)
    requires Base(c) && i < |c.nodes|
    ensures Base(Campaign(c, i))
  {
    hide Shape, EntriesOk, IndicesValid;
    var c' := Campaign(c, i);
    var t1 := c'.nodes[i].term;
    assert Slot(t1, i) in c.hist.adverts ==> AdvertOk(c, t1, i);
    forall w | w in c.hist.wins
      ensures WinOk(c', w) && (w.node == i ==> w.term < t1)
    {
      assert WinOk(c, w);
    }
    forall t, j | Slot(t, j) in c'.hist.adverts
      ensures AdvertOk(c', t, j)
    {
      if Slot(t, j) in c.hist.adverts {
        assert AdvertOk(c, t, j);
      }
    }
    forall k | k in c'.votes
      ensures VoteCallOk(c', k)
    {
      if k in c.votes {
        assert VoteCallOk(c, k);
      }
    }
    forall j | 0 <= j < |c'.nodes|
      ensures CandidateOk(c', j) && LeaderOk(c', j)
    {
      assert CandidateOk(c, j) && LeaderOk(c, j);
    }
    forall k | k in c'.appends
      ensures AppendCallOk(c', k)
    {
      assert AppendCallOk(c, k);
    }
  }

  lemma ElectBase(c: Cluster, i: nat)
    requires Base(c) && Enabled(c, Elect(i))
    ensures Base(DoElect(c, i))
  {
    hide Shape, AppendCallOk;
    CampaignBase(c, i);
    var m := Campaign(c, i);
    var c' := DoElect(c, i);
    if c'.nodes[i].role == Leader {
      LeaderIsOk(m.nodes[i], i, |c.nodes|);
      assert c'.nodes == m.nodes[i := c'.nodes[i]];
      WinBase(m, c', i, c'.nodes[i]);
    } else {
      assert c' == m;
    }
  }

  lemma StepBase(c: Cluster, a: Action)
    requires Base(c) && Enabled(c, a)
    ensures Base(Do(c, a))
    ensures |Do(c, a).nodes| == |c.nodes|
  {
    assert Sane(c);
    hide Base, NodeOk, StartElection, AppendEntries, OnAppendReply, BuildAppend, RequestVote, OnVoteReply;
    match a
    case Elect(i) => ElectBase(c, i);
    case HandleVote(k) => HandleVoteBase(c, k);
    case RecvVote(k) => RecvVoteBase(c, k);
    case Beat(i) => BeatBase(c, i);
    case HandleBeat(k) => HandleBeatBase(c, k);
    case RecvBeat(k) => RecvBeatBase(c, k);
    case SendAppend(i, p) => SendAppendBase(c, i, p);
    case HandleAppend(k) => HandleAppendBase(c, k);
    case RecvAppend(k) => RecvAppendBase(c, k);
    case Propose(i, cmd) => ProposeBase(c, i, cmd);
    case ApplyOne(i) => ApplyBase(c, i);
    case Restart(i) => RestartBase(c, i);
    case LoseVote(_) => LoseBase(c, a);
    case LoseBeat(_) => LoseBase(c, a);
    case LoseAppend(_) => LoseBase(c, a);
  }

  // ---------------------------------------------------------------- theorems

  lemma {:induction false} RunBase(run: Run, n: nat, k: nat)
    requires Valid(run, n) && k < |run.states|
    ensures Base(run.states[k])
    ensures |run.states[k].nodes| == n
  {
    hide Base, Do, Enabled;
    if k == 0 {
      InitBase(n);
    } else {
      RunBase(run, n, k - 1);
      assert Follows(run, k - 1);
      StepBase(run.states[k - 1], run.acts[k - 1]);
    }
  }
}
