/**
 Every action keeps the acknowledgement invariant, given in-order appends.
 */
module RaftSteps {
  import opened RaftLog
  import opened RaftNode
  import opened RaftCluster
  import opened RaftShape
  import opened RaftElection
  import opened RaftMatching
  import opened RaftSafety

  // ------------------------------------------------------- growing histories

  ghost predicate AcksOnlyAt(h: History, h': History, t: nat, p: nat) {
    && AckOf(h, t, p) <= AckOf(h', t, p)
    && forall T: nat, q: nat :: T != t || q != p ==> AckOf(h', T, q) == AckOf(h, T, q)
  }

  /** History only grows, and only node p gains an acknowledgement, in term t. */
  ghost predicate Grew(h: History, h': History, t: nat, p: nat) {
    && Grows(h.termLogs, h'.termLogs)
    && h.wins <= h'.wins
    && h.commits <= h'.commits
    && AcksOnlyAt(h, h', t, p)
  }

  lemma AgreeGrows(log: Log, a: Log, b: Log, m: int)
    requires a <= b && 0 <= m < |a|
    ensures Agree(log, a, m) <==> Agree(log, b, m)
  {
    assert a[..m + 1] == b[..m + 1];
  }

  lemma ExcusedGrows(log: Log, h: History, h': History, T: nat, m: int, upto: int)
    requires Excused(log, h, T, m, upto) && 0 <= m < |h.termLogs[T]|
    requires Grows(h.termLogs, h'.termLogs) && h.wins <= h'.wins
    ensures Excused(log, h', T, m, upto)
  {
    hide Agree;
    assert h.termLogs[T] <= h'.termLogs[T];
    if Agree(log, h.termLogs[T], m) {
      AgreeGrows(log, h.termLogs[T], h'.termLogs[T], m);
    } else {
      var w :| w in h.wins && T < w.term <= upto && !Agree(w.log, h.termLogs[T], m);
      AgreeGrows(w.log, h.termLogs[T], h'.termLogs[T], m);
      assert w in h'.wins;
    }
  }

  lemma KeepsGrows(c: Cluster, h': History, log: Log, p: nat, below: int, upto: int)
    requires Kept(c) && Keeps(log, c.hist, p, below, upto)
    requires Grows(c.hist.termLogs, h'.termLogs) && c.hist.wins <= h'.wins
    requires forall T: nat :: T < below ==> AckOf(h', T, p) == AckOf(c.hist, T, p)
    ensures Keeps(log, h', p, below, upto)
  {
    hide WinKeeps, CommitOk, Justified, TallyOk, CallKept, Grows;
    forall T: nat, m: int | T < below && 0 <= m <= AckOf(h', T, p)
      ensures Excused(log, h', T, m, upto)
    {
      assert AckOf(h', T, p) == AckOf(c.hist, T, p);
      assert AckOk(c, T, p);
      assert Excused(log, c.hist, T, m, upto);
      ExcusedGrows(log, c.hist, h', T, m, upto);
    }
  }

  /** Ballots are of past or present terms, so no later acknowledgement touches what they promise. */
  lemma BallotGrows(c: Cluster, h': History, i: nat, t: nat, b: Ballot, below: int, upto: int)
    requires Kept(c) && BallotOk(c, b) && Grew(c.hist, h', t, i)
    requires i < |c.nodes| && c.nodes[i].term <= t && below <= b.term
    requires Keeps(b.log, c.hist, b.voter, below, upto)
    ensures Keeps(b.log, h', b.voter, below, upto)
  {
    hide Kept, Keeps, Shape, Grows;
    KeepsGrows(c, h', b.log, b.voter, below, upto);
  }

  lemma OldBallots(c: Cluster, h': History, i: nat, t: nat)
    requires Kept(c) && Fair(c) && Grew(c.hist, h', t, i)
    requires i < |c.nodes| && c.nodes[i].term <= t
    ensures forall b :: b in c.hist.ballots ==> Keeps(b.log, h', b.voter, b.term, b.term)
    ensures forall w :: w in c.hist.wins ==> WinKeeps(h', w)
  {
    hide Keeps, Shape, Grew, BallotOk, CountOk, GrantOk, AckOk, CommitOk, Justified, TallyOk, CallKept;
    forall b | b in c.hist.ballots
      ensures Keeps(b.log, h', b.voter, b.term, b.term)
    {
      assert BallotOk(c, b);
      BallotGrows(c, h', i, t, b, b.term, b.term);
    }
    forall w, b | w in c.hist.wins && b in w.quorum
      ensures Keeps(b.log, h', b.voter, w.term, w.term - 1)
    {
      assert QuorumOk(c, w) && WinKeeps(c.hist, w);
      assert BallotOk(c, b);
      BallotGrows(c, h', i, t, b, w.term, w.term - 1);
    }
  }

  lemma CommitGrows(h: History, h': History, n: nat, cm: Commit, t: nat, p: nat)
    requires CommitOk(h, n, cm) && Grew(h, h', t, p)
    ensures CommitOk(h', n, cm)
  {
    hide CommitOk;
    CommitStays(h, h', n, cm);
  }

  lemma CommitStays(h: History, h': History, n: nat, cm: Commit)
    requires CommitOk(h, n, cm) && Grows(h.termLogs, h'.termLogs)
    requires forall p: nat :: AckOf(h, cm.term, p) <= AckOf(h', cm.term, p)
    ensures CommitOk(h', n, cm)
  {
    hide Ids, AckOf;
    assert h.termLogs[cm.term] <= h'.termLogs[cm.term];
    var a, b := Ackers(h, cm.term, cm.index, n), Ackers(h', cm.term, cm.index, n);
    assert a <= b;
    SubsetCard(a, b);
  }

  lemma CoveredGrows(h: History, h': History, index: int, upto: int)
    requires Covered(h, index, upto) && h.commits <= h'.commits
    ensures Covered(h', index, upto)
  {
    var cm :| cm in h.commits && cm.term <= upto && index <= cm.index;
    assert cm in h'.commits;
  }

  lemma JustifiedGrows(h: History, h': History, p: nat, index: int, term: nat, term': nat, t: nat, i: nat)
    requires Justified(h, p, index, term) && Grew(h, h', t, i) && term <= term'
    ensures Justified(h', p, index, term')
  {
    if index > 0 {
      var cm, u: nat :| cm in h.commits && cm.term <= u <= term && index <= cm.index && index <= AckOf(h, u, p);
      assert cm in h'.commits && index <= AckOf(h', u, p);
    }
  }

  lemma CallGrew(h: History, h': History, k: AppendCall, t: nat, p: nat)
    requires CallKept(h, k) && Grew(h, h', t, p)
    ensures CallKept(h', k)
  {
    if k.args.commit > 0 {
      CoveredGrows(h, h', k.args.commit, k.args.term);
    }
  }

  // -------------------------------------------------------------- one node acts

  /** What has to hold of the node that moved; everything else is carried over. */
  ghost predicate ActorOk(c': Cluster, i: nat)
    requires i < |c'.nodes|
  {
    var s := c'.nodes[i];
    && Keeps(s.log, c'.hist, i, s.term + 1, s.term)
    && Justified(c'.hist, i, s.commitIndex, s.term)
    && TallyOk(c', i)
    && AckOk(c', s.term, i)
  }

  ghost predicate OneActs(c: Cluster, c': Cluster, i: nat) {
    && i < |c.nodes| == |c'.nodes|
    && c.nodes[i].term <= c'.nodes[i].term
    && (forall j :: 0 <= j < |c.nodes| && j != i ==> c'.nodes[j] == c.nodes[j])
    && Grew(c.hist, c'.hist, c'.nodes[i].term, i)
    && (forall b :: b in c'.hist.ballots ==>
          b in c.hist.ballots || (b.voter == i && b.term == c'.nodes[i].term && b.log == c'.nodes[i].log))
    && (forall w :: w in c'.hist.wins ==> w in c.hist.wins || WinKeeps(c'.hist, w))
    && (forall cm :: cm in c'.hist.commits ==> cm in c.hist.commits || CommitOk(c'.hist, |c.nodes|, cm))
    && (forall k :: k in c'.appends ==> k in c.appends || CallKept(c'.hist, k))
  }

  lemma AcksCarry(c: Cluster, c': Cluster, i: nat, T: nat, p: nat)
    requires Kept(c) && OneActs(c, c', i) && ActorOk(c', i)
    ensures AckOk(c', T, p)
  {
    hide Keeps, WinKeeps, CommitOk, Justified, TallyOk, CallKept;
    assert AckOk(c, T, p);
    if p != i || T != c'.nodes[i].term {
      assert AckOf(c'.hist, T, p) == AckOf(c.hist, T, p);
      if T in c.hist.termLogs {
        assert c.hist.termLogs[T] <= c'.hist.termLogs[T];
      }
    }
  }

  lemma NodesCarry(c: Cluster, c': Cluster, i: nat, j: nat)
    requires Kept(c) && OneActs(c, c', i) && ActorOk(c', i) && j < |c.nodes|
    ensures var s := c'.nodes[j];
      Keeps(s.log, c'.hist, j, s.term + 1, s.term) && Justified(c'.hist, j, s.commitIndex, s.term) && TallyOk(c', j)
  {
    hide Keeps, WinKeeps, CommitOk, Justified, CallKept, Grows;
    if j != i {
      var s := c.nodes[j];
      KeepsGrows(c, c'.hist, s.log, j, s.term + 1, s.term);
      JustifiedGrows(c.hist, c'.hist, j, s.commitIndex, s.term, s.term, c'.nodes[i].term, i);
      assert TallyOk(c, j);
    }
  }

  lemma OneActsKept(c: Cluster, c': Cluster, i: nat)
    requires Kept(c) && Fair(c) && OneActs(c, c', i) && ActorOk(c', i)
    ensures Kept(c')
  {
    hide Keeps, WinKeeps, CommitOk, Justified, TallyOk, CallKept, AckOk, Fair, Grew;
    var t := c'.nodes[i].term;
    forall T: nat, p: nat
      ensures AckOk(c', T, p)
    {
      AcksCarry(c, c', i, T, p);
    }
    forall j | 0 <= j < |c'.nodes|
      ensures Keeps(c'.nodes[j].log, c'.hist, j, c'.nodes[j].term + 1, c'.nodes[j].term)
      ensures Justified(c'.hist, j, c'.nodes[j].commitIndex, c'.nodes[j].term) && TallyOk(c', j)
    {
      NodesCarry(c, c', i, j);
    }
    OldBallots(c, c'.hist, i, t);
    forall b | b in c'.hist.ballots
      ensures Keeps(b.log, c'.hist, b.voter, b.term, b.term)
    {
      if b !in c.hist.ballots {
        KeepsFewer(b.log, c'.hist, i, t + 1, t);
      }
    }
    forall cm | cm in c'.hist.commits
      ensures CommitOk(c'.hist, |c'.nodes|, cm)
    {
      if cm in c.hist.commits {
        CommitGrows(c.hist, c'.hist, |c.nodes|, cm, t, i);
      }
    }
    forall k | k in c'.appends
      ensures CallKept(c'.hist, k)
    {
      if k in c.appends {
        CallGrew(c.hist, c'.hist, k, t, i);
      }
    }
  }

  lemma KeepsFewer(log: Log, h: History, p: nat, below: int, upto: int)
    requires Keeps(log, h, p, below, upto)
    ensures Keeps(log, h, p, below - 1, upto)
  {
    hide Agree;
    forall T: nat, m: int | T < below - 1 && 0 <= m <= AckOf(h, T, p)
      ensures Excused(log, h, T, m, upto)
    {
      assert Excused(log, h, T, m, upto);
    }
  }

  // ------------------------------------------------------------- quiet actions

  /** Nothing about the log, the commit index or the tally changes. */
  ghost predicate Steady(s: Node, s': Node) {
    && s'.log == s.log
    && s'.term >= s.term
    && (s'.commitIndex == s.commitIndex || s'.commitIndex <= 0)
    && (s'.role == Leader ==> s.role == Leader && s'.term == s.term && s'.matchIndex == s.matchIndex)
  }

  ghost predicate SameRecord(h: History, h': History) {
    h'.termLogs == h.termLogs && h'.wins == h.wins && h'.commits == h.commits && h'.acks == h.acks
  }

  lemma SteadyActor(c: Cluster, c': Cluster, i: nat)
    requires Kept(c) && i < |c.nodes| == |c'.nodes|
    requires Steady(c.nodes[i], c'.nodes[i]) && SameRecord(c.hist, c'.hist)
    ensures ActorOk(c', i)
  {
    hide WinKeeps, CommitOk, CallKept, Agree;
    var s, s' := c.nodes[i], c'.nodes[i];
    forall T: nat, m: int | T < s'.term + 1 && 0 <= m <= AckOf(c'.hist, T, i)
      ensures Excused(s'.log, c'.hist, T, m, s'.term)
    {
      assert AckOk(c, T, i);
      assert Excused(s.log, c.hist, T, m, s.term);
    }
    assert AckOk(c, s'.term, i);
    SameAck(c, c', s'.term, i);
    JustifiedGrows(c.hist, c'.hist, i, s.commitIndex, s.term, s'.term, s'.term, i);
    assert TallyOk(c, i);
  }

  lemma SteadyKept(c: Cluster, c': Cluster, i: nat)
    requires Kept(c) && Fair(c) && i < |c.nodes| == |c'.nodes|
    requires Steady(c.nodes[i], c'.nodes[i]) && SameRecord(c.hist, c'.hist)
    requires forall j :: 0 <= j < |c.nodes| && j != i ==> c'.nodes[j] == c.nodes[j]
    requires forall b :: b in c'.hist.ballots ==>
      b in c.hist.ballots || (b.voter == i && b.term == c'.nodes[i].term && b.log == c'.nodes[i].log)
    requires forall k :: k in c'.appends ==> k in c.appends || CallKept(c'.hist, k)
    ensures Kept(c')
  {
    hide Keeps, WinKeeps, CommitOk, CallKept, Justified, TallyOk, AckOk, Fair;
    SteadyActor(c, c', i);
    OneActsKept(c, c', i);
  }

  lemma HandleVoteKept(c: Cluster, k: VoteCall)
    requires Safe(c) && Enabled(c, HandleVote(k))
    ensures Kept(DoHandleVote(c, k))
  {
    hide Kept, Fair, Matched, Shape, UpToDate, AppendCallOk, VoteCallOk, CandidateOk, LeaderOk, WinOk, AdvertOk;
    SteadyKept(c, DoHandleVote(c, k), k.peer);
  }

  lemma BeatsKept(c: Cluster, a: Action)
    requires Safe(c) && Enabled(c, a) && |c.nodes| > 0
    requires a.Beat? || a.HandleBeat? || a.RecvBeat? || a.LoseVote? || a.LoseBeat? || a.LoseAppend?
    ensures Kept(Do(c, a))
  {
    hide Kept, Fair, Matched, Shape, AppendCallOk, VoteCallOk, CandidateOk, LeaderOk, WinOk, AdvertOk;
    var i := if a.HandleBeat? then a.beat.peer else if a.RecvBeat? then a.beat.from else 0;
    SteadyKept(c, Do(c, a), i);
  }

  lemma RestartKept(c: Cluster, i: nat)
    requires Safe(c) && Enabled(c, Restart(i))
    ensures Kept(DoRestart(c, i))
  {
    hide Kept, Fair, Matched, Shape, AppendCallOk, VoteCallOk, CandidateOk, LeaderOk, WinOk, AdvertOk;
    RestartKeepsDurable(c.nodes[i]);
    SteadyKept(c, DoRestart(c, i), i);
  }

  lemma ApplyKept(c: Cluster, i: nat)
    requires Safe(c) && Enabled(c, ApplyOne(i))
    ensures Kept(DoApply(c, i))
  {
    hide Kept, Fair, Matched, Shape, AppendCallOk, VoteCallOk, CandidateOk, LeaderOk, WinOk, AdvertOk;
    SteadyKept(c, DoApply(c, i), i);
  }

  /** The commit index a leader ships never passes the end of what it ships. */
  lemma SendAppendKept(c: Cluster, i: nat, p: nat)
    requires Safe(c) && Enabled(c, SendAppend(i, p))
    ensures Kept(DoSendAppend(c, i, p))
  {
    hide Kept, Fair, Matched, Shape, AppendCallOk, VoteCallOk, CandidateOk, LeaderOk, WinOk, AdvertOk;
    var c' := DoSendAppend(c, i, p);
    var k := AppendCall(i, c.epochs[i], p, BuildAppend(c.nodes[i], i, p), c.serial, None);
    if c.nodes[i].commitIndex > 0 {
      var cm := NodeCommitted(c, i);
      assert Covered(c.hist, k.args.commit, k.args.term);
    }
    assert CallKept(c'.hist, k);
    SteadyKept(c, c', i);
  }

  // ---------------------------------------------------------------- accepting

  /** In term t the batch reaches at least as far as every earlier acknowledgement. */
  lemma AcceptKeepsSame(c: Cluster, k: AppendCall, log: Log, m: int)
    requires Kept(c) && CallMatched(c.hist, k.args) && k.peer < |c.nodes|
    requires Accepted(c.nodes[k.peer].log, log, c.hist.termLogs, k.args)
    requires c.nodes[k.peer].term <= k.args.term
    requires k.args.entries != [] ==> AckOf(c.hist, k.args.term, k.peer) <= EndOf(k.args)
    requires 0 <= m && (m <= EndOf(k.args) || m <= AckOf(c.hist, k.args.term, k.peer))
    ensures Excused(log, c.hist, k.args.term, m, k.args.term)
  {
    hide WinKeeps, CommitOk, CallKept, Agree, Matches, Justified, TallyOk;
    var t := k.args.term;
    if m <= EndOf(k.args) {
      AgreeDown(log, c.hist.termLogs[t], EndOf(k.args), m);
    } else {
      assert AckOk(c, t, k.peer);
      assert Excused(c.nodes[k.peer].log, c.hist, t, m, t);
    }
  }

  /** Of an earlier term: the leader of t has the prefix and shipped it, or it is the one to blame. */
  lemma AcceptKeepsOlder(c: Cluster, k: AppendCall, log: Log, T: nat, m: int)
    requires Kept(c) && Matched(c) && CallMatched(c.hist, k.args) && k.peer < |c.nodes|
    requires Accepted(c.nodes[k.peer].log, log, c.hist.termLogs, k.args)
    requires c.nodes[k.peer].term <= k.args.term && T < k.args.term
    requires 0 <= m <= AckOf(c.hist, T, k.peer)
    ensures Excused(log, c.hist, T, m, k.args.term)
  {
    hide WinKeeps, CommitOk, CallKept, Agree, Matches, Justified, TallyOk, Shape, OwnsLog;
    var h, a := c.hist, k.args;
    assert AckOk(c, T, k.peer);
    assert Excused(c.nodes[k.peer].log, h, T, m, c.nodes[k.peer].term);
    if a.entries != [] {
      var w :| w in h.wins && w.term == a.term;
      if Agree(w.log, h.termLogs[T], m) {
        ShippedPrefix(h, a, log, w, T, m);
      } else {
        assert Broken(h, T, m, a.term);
      }
    }
  }

  lemma ShippedPrefix(h: History, a: AppendArgs, log: Log, w: Win, T: nat, m: int)
    requires CallMatched(h, a) && w in h.wins && w.term == a.term && WinMatched(h.termLogs, w)
    requires Agree(log, h.termLogs[a.term], EndOf(a))
    requires T in h.termLogs && Agree(w.log, h.termLogs[T], m)
    ensures Agree(log, h.termLogs[T], m)
  {
    hide Shape, Matches;
    var whole := h.termLogs[a.term];
    AgreeDown(log, whole, EndOf(a), m);
    PrefixAgrees(w.log, whole);
    AgreeDown(w.log, whole, |w.log| - 1, m);
  }

  lemma AcceptActor(c: Cluster, k: AppendCall)
    requires Safe(c) && Enabled(c, HandleAppend(k)) && Accepts(c.nodes[k.peer], k.args)
    requires InOrderAppend(c, HandleAppend(k))
    ensures ActorOk(DoHandleAppend(c, k), k.peer)
  {
    hide Kept, Fair, Shape, Agree, Accepted, AppendCallOk, VoteCallOk, CandidateOk, LeaderOk, WinOk, AdvertOk,
         Sync, CallMatched, WinMatched, OwnsLog, Matches;
    var c' := DoHandleAppend(c, k);
    var s, s' := c.nodes[k.peer], c'.nodes[k.peer];
    AcceptedLog(c, k);
    forall T: nat, m: int | T < s'.term + 1 && 0 <= m <= AckOf(c'.hist, T, k.peer)
      ensures Excused(s'.log, c'.hist, T, m, s'.term)
    {
      if T == k.args.term {
        AcceptKeepsSame(c, k, s'.log, m);
      } else {
        AcceptKeepsOlder(c, k, s'.log, T, m);
      }
      SameExcuse(s'.log, c.hist, c'.hist, T, m, s'.term);
    }
    AcceptJustified(c, k);
    AcceptAck(c, k);
  }

  lemma SameExcuse(log: Log, h: History, h': History, T: nat, m: int, upto: int)
    requires Excused(log, h, T, m, upto) && h'.termLogs == h.termLogs && h'.wins == h.wins
    ensures Excused(log, h', T, m, upto)
  {
  }

  lemma AcceptAck(c: Cluster, k: AppendCall)
    requires Kept(c) && Matched(c) && k in c.appends && k.peer < |c.nodes| && Accepts(c.nodes[k.peer], k.args)
    ensures AckOk(DoHandleAppend(c, k), k.args.term, k.peer)
  {
    hide Keeps, WinKeeps, CommitOk, CallKept, Justified, TallyOk, Sync, Matches, WinMatched, OwnsLog;
    assert CallMatched(c.hist, k.args);
    assert AckOk(c, k.args.term, k.peer);
  }

  /** A follower never commits past what the batch covers, nor past what a leader committed. */
  lemma AcceptJustified(c: Cluster, k: AppendCall)
    requires Kept(c) && k in c.appends && k.peer < |c.nodes| && Accepts(c.nodes[k.peer], k.args)
    ensures var c' := DoHandleAppend(c, k);
      Justified(c'.hist, k.peer, c'.nodes[k.peer].commitIndex, c'.nodes[k.peer].term)
  {
    hide Keeps, WinKeeps, CommitOk, TallyOk, Sync, AckOk;
    var c' := DoHandleAppend(c, k);
    var s, a := c.nodes[k.peer], k.args;
    assert CallKept(c.hist, k);
    if a.commit > s.commitIndex && c'.nodes[k.peer].commitIndex > 0 {
      var cm :| cm in c.hist.commits && cm.term <= a.term && a.commit <= cm.index;
      assert cm in c'.hist.commits && c'.nodes[k.peer].commitIndex <= AckOf(c'.hist, a.term, k.peer);
    } else if a.commit <= s.commitIndex {
      assert Justified(c.hist, k.peer, s.commitIndex, s.term);
      JustifiedGrows(c.hist, c'.hist, k.peer, s.commitIndex, s.term, a.term, a.term, k.peer);
    }
  }

  lemma HandleAppendKept(c: Cluster, k: AppendCall)
    requires Safe(c) && Enabled(c, HandleAppend(k)) && InOrderAppend(c, HandleAppend(k))
    ensures Kept(DoHandleAppend(c, k))
  {
    hide Keeps, Matched, Shape, AppendCallOk, VoteCallOk, CandidateOk, LeaderOk, WinOk, AdvertOk, Sync, Fair,
         ActorOk, WinKeeps, CommitOk, AckOk, Justified, TallyOk;
    var c' := DoHandleAppend(c, k);
    assert CallKept(c.hist, k);
    var k' := k.(reply := Some(AppendEntries(c.nodes[k.peer], k.args).1));
    if Accepts(c.nodes[k.peer], k.args) {
      assert CallKept(c'.hist, k');
      AcceptActor(c, k);
      OneActsKept(c, c', k.peer);
    } else {
      assert CallKept(c'.hist, k');
      SteadyKept(c, c', k.peer);
    }
  }

  // --------------------------------------------------------------- committing

  /** The leader's count is a majority of acknowledgements. */
  lemma CountedMajority(c: Cluster, i: nat, s: Node, N: int)
    requires i < |c.nodes| && |s.matchIndex| == |c.nodes| && N >= 1
    requires AckOf(c.hist, s.term, i) >= N
    requires forall p :: 0 <= p < |s.matchIndex| && p != i ==>
      s.matchIndex[p] <= 0 || s.matchIndex[p] <= AckOf(c.hist, s.term, p)
    requires IsMajority(1 + CountMatch(s.matchIndex, i, N, |s.matchIndex|), |s.matchIndex|)
    ensures Majority(Ackers(c.hist, s.term, N, |c.nodes|), |c.nodes|)
  {
    var n := |c.nodes|;
    CountIsCard(s.matchIndex, i, N, n);
    var holders := Holders(s.matchIndex, i, N, n);
    assert |holders + {i}| == |holders| + 1;
    SubsetCard(holders + {i}, Ackers(c.hist, s.term, N, n));
  }

  ghost predicate Acknowledged(c: Cluster, k: AppendCall) {
    && k.from < |c.nodes| && k.reply.Some? && k.reply.value.success
    && k.reply.value.term <= c.nodes[k.from].term
    && c.nodes[k.from].term == k.args.term && c.nodes[k.from].role == Leader
  }

  lemma TallyGrows(c: Cluster, k: AppendCall)
    requires Base(c) && Kept(c) && k in c.appends && Acknowledged(c, k)
    ensures var s := Acknowledge(c.nodes[k.from], k.peer, EndOf(k.args));
      && AckOf(c.hist, s.term, k.from) >= |s.log| - 1
      && forall p :: 0 <= p < |s.matchIndex| && p != k.from ==>
           s.matchIndex[p] <= 0 || s.matchIndex[p] <= AckOf(c.hist, s.term, p)
  {
    hide Keeps, WinKeeps, CommitOk, Justified, AckOk, Shape, AppendCallOk, VoteCallOk, CandidateOk, LeaderOk,
         WinOk, AdvertOk;
    assert TallyOk(c, k.from) && CallKept(c.hist, k);
  }

  lemma CommitStep(c: Cluster, k: AppendCall)
    requires Safe(c) && Enabled(c, RecvAppend(k)) && Acknowledged(c, k)
    ensures var c' := DoRecvAppend(c, k);
      && ActorOk(c', k.from)
      && forall cm :: cm in c'.hist.commits ==> cm in c.hist.commits || CommitOk(c'.hist, |c.nodes|, cm)
  {
    hide Keeps, Fair, Matched, WinKeeps, CallKept, AckOk, Shape, AppendCallOk, VoteCallOk, CandidateOk,
         LeaderOk, WinOk, AdvertOk, Majority, Ackers;
    var c' := DoRecvAppend(c, k);
    var i := k.from;
    var s, s1, s' := c.nodes[i], Acknowledge(c.nodes[i], k.peer, EndOf(k.args)), c'.nodes[i];
    TallyGrows(c, k);
    var v := LeaderOwns(c, i);
    SameKeeps(s.log, c.hist, c'.hist, i, s.term + 1, s.term);
    assert AckOk(c, s.term, i);
    SameAck(c, c', s.term, i);
    if s'.commitIndex > s.commitIndex {
      CountedMajority(c, i, s1, s'.commitIndex);
      SameAckers(c.hist, c'.hist, s.term, s'.commitIndex, |c.nodes|);
      assert Commit(s.term, s'.commitIndex, s'.log[..s'.commitIndex + 1]) in c'.hist.commits;
    } else {
      assert Justified(c.hist, i, s.commitIndex, s.term);
    }
  }

  lemma SameKeeps(log: Log, h: History, h': History, p: nat, below: int, upto: int)
    requires Keeps(log, h, p, below, upto) && h'.termLogs == h.termLogs && h'.wins == h.wins && h'.acks == h.acks
    ensures Keeps(log, h', p, below, upto)
  {
    hide Agree;
    forall T: nat, m: int | T < below && 0 <= m <= AckOf(h', T, p)
      ensures Excused(log, h', T, m, upto)
    {
      assert Excused(log, h, T, m, upto);
    }
  }

  lemma SameAck(c: Cluster, c': Cluster, T: nat, p: nat)
    requires AckOk(c, T, p) && c'.hist.termLogs == c.hist.termLogs && c'.hist.acks == c.hist.acks
    requires |c'.nodes| == |c.nodes| && (p < |c.nodes| ==> c'.nodes[p].term >= c.nodes[p].term)
    ensures AckOk(c', T, p)
  {
  }

  lemma SameAckers(h: History, h': History, T: nat, m: int, n: nat)
    requires h'.acks == h.acks
    ensures Ackers(h', T, m, n) == Ackers(h, T, m, n)
  {
  }

  lemma RecvAppendKept(c: Cluster, k: AppendCall)
    requires Safe(c) && Enabled(c, RecvAppend(k))
    ensures Kept(DoRecvAppend(c, k))
  {
    hide Kept, Fair, Matched, CommitOk, CallKept, WinKeeps, Shape, AppendCallOk, VoteCallOk, CandidateOk,
         LeaderOk, WinOk, AdvertOk, ActorOk;
    var c' := DoRecvAppend(c, k);
    if Acknowledged(c, k) {
      CommitStep(c, k);
      OneActsKept(c, c', k.from);
    } else {
      SteadyKept(c, c', k.from);
    }
  }

  // ---------------------------------------------------------------- proposing

  lemma ProposeActor(c: Cluster, i: nat, cmd: Command)
    requires Safe(c) && Enabled(c, Action.Propose(i, cmd))
    ensures ActorOk(DoPropose(c, i, cmd), i)
    ensures Grew(c.hist, DoPropose(c, i, cmd).hist, c.nodes[i].term, i)
  {
    hide Fair, Matched, CommitOk, CallKept, WinKeeps, Shape, AppendCallOk, VoteCallOk, CandidateOk, LeaderOk,
         WinOk, AdvertOk, Agree, Justified;
    var c' := DoPropose(c, i, cmd);
    var s, s' := c.nodes[i], c'.nodes[i];
    var v := LeaderOwns(c, i);
    assert AckOk(c, s.term, i) && TallyOk(c, i);
    assert s.log <= s'.log;
    forall T: nat, m: int | T < s'.term + 1 && 0 <= m <= AckOf(c'.hist, T, i)
      ensures Excused(s'.log, c'.hist, T, m, s'.term)
    {
      if T == s.term {
        AgreeWhole(s'.log, m);
      } else {
        assert AckOk(c, T, i);
        assert Excused(s.log, c.hist, T, m, s.term);
        LongerExcused(c, s.log, s'.log, T, m, s.term);
        ExcusedGrows(s'.log, c.hist, c'.hist, T, m, s.term);
      }
    }
    assert Justified(c.hist, i, s.commitIndex, s.term);
    JustifiedGrows(c.hist, c'.hist, i, s.commitIndex, s.term, s.term, s.term, i);
  }

  lemma AgreeWhole(log: Log, m: int)
    requires 0 <= m < |log|
    ensures Agree(log, log, m)
  {
  }

  lemma LongerExcused(c: Cluster, log: Log, log': Log, T: nat, m: int, upto: int)
    requires Excused(log, c.hist, T, m, upto) && log <= log'
    ensures Excused(log', c.hist, T, m, upto)
  {
    if Agree(log, c.hist.termLogs[T], m) {
      assert log'[..m + 1] == log[..m + 1];
    }
  }

  lemma ProposeKept(c: Cluster, i: nat, cmd: Command)
    requires Safe(c) && Enabled(c, Action.Propose(i, cmd))
    ensures Kept(DoPropose(c, i, cmd))
  {
    hide Kept, Fair, Matched, CommitOk, CallKept, WinKeeps, Shape, AppendCallOk, VoteCallOk, CandidateOk,
         LeaderOk, WinOk, AdvertOk, ActorOk, Grew;
    ProposeActor(c, i, cmd);
    OneActsKept(c, DoPropose(c, i, cmd), i);
  }

  // ------------------------------------------------------------------ winning

  /** What the electing ballots promise is excused by earlier terms only: nobody has won this one yet. */
  lemma ElectingBallots(c: Cluster, h': History, w0: Win)
    requires Kept(c) && Fair(c)
    requires forall w :: w in c.hist.wins ==> w.term != w0.term
    requires w0.quorum == BallotsFor(c.hist.ballots, w0.term, w0.node)
    requires Grows(c.hist.termLogs, h'.termLogs) && c.hist.wins <= h'.wins
    requires forall T: nat, p: nat :: T < w0.term ==> AckOf(h', T, p) == AckOf(c.hist, T, p)
    ensures WinKeeps(h', w0)
  {
    hide Fair, CommitOk, CallKept, Justified, TallyOk, Agree, AckOk, Grows;
    var t: int, before: int := w0.term, w0.term - 1;
    forall b | b in w0.quorum
      ensures Keeps(b.log, h', b.voter, t, before)
    {
      assert Keeps(b.log, c.hist, b.voter, t, t);
      forall T: nat, m: int | T < t && 0 <= m <= AckOf(c.hist, T, b.voter)
        ensures Excused(b.log, c.hist, T, m, before)
      {
        assert Excused(b.log, c.hist, T, m, t);
      }
      KeepsGrows(c, h', b.log, b.voter, t, before);
    }
  }

  lemma WinnerActor(c: Cluster, c': Cluster, i: nat, s: Node)
    requires Kept(c) && i < |c.nodes| && i < |c.epochs| && s.log != []
    requires c'.hist == RecordWin(c.hist, i, c.epochs[i], s) && c'.nodes == c.nodes[i := s]
    requires c.nodes[i].log != [] && s == BecomeLeader(c.nodes[i].(voteCount := s.voteCount), i, |c.nodes|)
    requires s.term !in c.hist.termLogs
    ensures ActorOk(c', i) && Grew(c.hist, c'.hist, s.term, i)
  {
    hide CommitOk, CallKept, WinKeeps, Agree;
    assert AckOk(c, s.term, i);
    forall T: nat, m: int | T < s.term + 1 && 0 <= m <= AckOf(c'.hist, T, i)
      ensures Excused(s.log, c'.hist, T, m, s.term)
    {
      if T == s.term {
        AgreeWhole(s.log, m);
      } else {
        assert AckOk(c, T, i);
        assert Excused(s.log, c.hist, T, m, s.term);
        ExcusedGrows(s.log, c.hist, c'.hist, T, m, s.term);
      }
    }
    assert Justified(c.hist, i, s.commitIndex, s.term);
    JustifiedGrows(c.hist, c'.hist, i, s.commitIndex, s.term, s.term, s.term, i);
  }

  lemma WinKept(c: Cluster, c': Cluster, i: nat, s: Node)
    requires Safe(c) && i < |c.nodes| && c.nodes[i].role == Candidate
    requires c.nodes[i].log != [] && s == BecomeLeader(c.nodes[i].(voteCount := s.voteCount), i, |c.nodes|)
    requires c' == c.(nodes := c.nodes[i := s], votes := c'.votes, hist := RecordWin(c.hist, i, c.epochs[i], s))
    requires OneWinner(c'.hist)
    ensures Kept(c')
  {
    hide Kept, Fair, Matched, CommitOk, CallKept, WinKeeps, NodeOk, AppendCallOk, VoteCallOk, CandidateOk,
         LeaderOk, WinOk, AdvertOk, ActorOk, Grew, OneWinner;
    var w0 := Win(s.term, i, c.epochs[i], s.log, BallotsFor(c.hist.ballots, s.term, i));
    FreshTerm(c, c'.hist, i, w0);
    WinnerActor(c, c', i, s);
    GrewParts(c.hist, c'.hist, s.term, i);
    ElectingBallots(c, c'.hist, w0);
    OneActsKept(c, c', i);
  }

  lemma GrewParts(h: History, h': History, t: nat, p: nat)
    requires Grew(h, h', t, p)
    ensures Grows(h.termLogs, h'.termLogs) && h.wins <= h'.wins
    ensures forall T: nat, q: nat :: T < t ==> AckOf(h', T, q) == AckOf(h, T, q)
  {
  }

  lemma RecvVoteKept(c: Cluster, k: VoteCall)
    requires Safe(c) && Enabled(c, RecvVote(k)) && OneWinner(DoRecvVote(c, k).hist)
    ensures Kept(DoRecvVote(c, k))
  {
    hide Kept, Fair, Matched, Shape, AppendCallOk, VoteCallOk, CandidateOk, LeaderOk, WinOk, AdvertOk, OneWinner;
    var c' := DoRecvVote(c, k);
    var s := c'.nodes[k.cand];
    if s.role == Leader && c.nodes[k.cand].role != Leader {
      WinKept(c, c', k.cand, s);
    } else {
      SteadyKept(c, c', k.cand);
    }
  }

  lemma CampaignKept(c: Cluster, i: nat)
    requires Safe(c) && i < |c.nodes|
    ensures Safe(Campaign(c, i))
  {
    hide Kept, Fair, Matched, Shape, AppendCallOk, VoteCallOk, CandidateOk, LeaderOk, WinOk, AdvertOk;
    CampaignBase(c, i);
    CampaignFair(c, i);
    CampaignMatched(c, i);
    SteadyKept(c, Campaign(c, i), i);
  }

  lemma ElectKept(c: Cluster, i: nat)
    requires Safe(c) && Enabled(c, Elect(i)) && OneWinner(DoElect(c, i).hist)
    ensures Kept(DoElect(c, i))
  {
    hide Kept, Fair, Matched, Shape, AppendCallOk, VoteCallOk, CandidateOk, LeaderOk, WinOk, AdvertOk, OneWinner;
    var m := Campaign(c, i);
    CampaignKept(c, i);
    var c' := DoElect(c, i);
    if c'.nodes[i].role == Leader {
      assert c'.nodes == m.nodes[i := c'.nodes[i]];
      WinKept(m, c', i, c'.nodes[i]);
    } else {
      assert c' == m;
    }
  }

  // ------------------------------------------------------------- every action

  lemma StepKept(c: Cluster, a: Action)
    requires Safe(c) && Enabled(c, a) && |c.nodes| > 0
    requires InOrderAppend(c, a) && OneWinner(Do(c, a).hist)
    ensures Kept(Do(c, a))
  {
    hide Base, Fair, Matched, Kept, OneWinner, InOrderAppend;
    match a
    case Elect(i) => ElectKept(c, i);
    case HandleVote(k) => HandleVoteKept(c, k);
    case RecvVote(k) => RecvVoteKept(c, k);
    case SendAppend(i, p) => SendAppendKept(c, i, p);
    case HandleAppend(k) => HandleAppendKept(c, k);
    case RecvAppend(k) => RecvAppendKept(c, k);
    case Propose(i, cmd) => ProposeKept(c, i, cmd);
    case ApplyOne(i) => ApplyKept(c, i);
    case Restart(i) => RestartKept(c, i);
    case _ => BeatsKept(c, a);
  }

  ghost predicate Orderly(run: Run) {
    TimelyVotes(run) && TimelyHeartbeats(run) && InOrderAppends(run)
  }

  lemma {:induction false} RunSafe(run: Run, n: nat, k: nat)
    requires Valid(run, n) && Orderly(run) && k < |run.states|
    ensures Safe(run.states[k]) && |run.states[k].nodes| == n
  {
    hide Base, Fair, Matched, Kept, Do, Enabled, TimelyVote, TimelyBeat, InOrderAppend, OneWinner;
    RunBase(run, n, k);
    RunFair(run, n, k);
    FairHasOneWinner(run.states[k]);
    RunMatched(run, n, k);
    if k == 0 {
      InitKept(n);
    } else {
      RunSafe(run, n, k - 1);
      assert Follows(run, k - 1);
      StepKept(run.states[k - 1], run.acts[k - 1]);
    }
  }
}
