/**
 Log Matching: in every run with at most one winner per term, two logs that have
 the same term at an index are the same up to that index. The truncating merge
 keeps this under any reordering.
 */
module RaftMatching {
  import opened RaftLog
  import opened RaftNode
  import opened RaftCluster
  import opened RaftShape

  // --------------------------------------------------------------- invariant

  /** The leader of w.term started from w.log and appended entries of its own term only. */
  ghost predicate WinMatched(tl: TermLogs, w: Win) {
    && w.term in tl
    && w.log != [] && w.log <= tl[w.term]
    && Matches(tl[w.term], tl)
    && Shape(tl[w.term])
    && (forall i :: 0 <= i < |w.log| ==> w.log[i].term < w.term)
    && (forall i :: |w.log| <= i < |tl[w.term]| ==> tl[w.term][i].term == w.term)
  }

  /** A node that won its current term, leading or not, has exactly the log of that term. */
  ghost predicate OwnsLog(c: Cluster, w: Win) {
    w.node < |c.nodes| && c.nodes[w.node].term == w.term ==>
      w.term in c.hist.termLogs && c.nodes[w.node].log == c.hist.termLogs[w.term]
  }

  /** An AppendEntries call carries a slice of its leader's log that reaches past what the leader won with. */
  ghost predicate CallMatched(h: History, a: AppendArgs) {
    && a.term in h.termLogs
    && var whole := h.termLogs[a.term];
       && 0 <= a.prev && EndOf(a) < |whole|
       && a.prevTerm == TermAt(whole, a.prev)
       && a.entries == whole[a.prev + 1..EndOf(a) + 1]
       && forall w :: w in h.wins && w.term == a.term ==> |w.log| <= EndOf(a) + 1
  }

  ghost predicate Matched(c: Cluster) {
    && (forall i :: 0 <= i < |c.nodes| ==> Matches(c.nodes[i].log, c.hist.termLogs))
    && (forall w :: w in c.hist.wins ==> WinMatched(c.hist.termLogs, w) && OwnsLog(c, w))
    && (forall t :: t in c.hist.termLogs ==> exists w :: w in c.hist.wins && w.term == t)
    && (forall k :: k in c.appends ==> CallMatched(c.hist, k.args))
  }

  lemma InitMatched(n: nat)
    ensures Matched(Init(n))
  {
  }

  // ------------------------------------------------------ unchanged histories

  lemma SameLogsMatched(c: Cluster, c': Cluster)
    requires Matched(c)
    requires forall w :: w in c.hist.wins ==> WinOk(c, w)
    requires |c'.nodes| == |c.nodes|
    requires c'.hist.termLogs == c.hist.termLogs && c'.hist.wins == c.hist.wins
    requires forall i :: 0 <= i < |c.nodes| ==>
      c'.nodes[i].log == c.nodes[i].log && c'.nodes[i].term >= c.nodes[i].term
    requires forall k :: k in c'.appends ==> CallMatched(c.hist, k.args)
    ensures Matched(c')
  {
    hide Matches, Shape;
    forall i | 0 <= i < |c'.nodes|
      ensures Matches(c'.nodes[i].log, c'.hist.termLogs)
    {
      assert Matches(c.nodes[i].log, c.hist.termLogs);
    }
    forall w | w in c'.hist.wins
      ensures WinMatched(c'.hist.termLogs, w) && OwnsLog(c', w)
    {
      assert WinMatched(c.hist.termLogs, w) && OwnsLog(c, w) && WinOk(c, w);
    }
  }

  /** The leader ships its whole suffix, so its call reaches past the log it won with. */
  lemma BuiltMatched(c: Cluster, i: nat, p: nat, v: Win)
    requires Matched(c) && i < |c.nodes| && p < |c.nodes[i].nextIndex| && NextFor(c.nodes[i], p) <= |c.nodes[i].log|
    requires v in c.hist.wins && v.term == c.nodes[i].term && v.node == i
    ensures CallMatched(c.hist, BuildAppend(c.nodes[i], i, p))
  {
    hide Shape, Matches;
    assert OwnsLog(c, v);
    forall w | w in c.hist.wins && w.term == v.term
      ensures |w.log| <= |c.nodes[i].log|
    {
      assert WinMatched(c.hist.termLogs, w);
    }
  }

  lemma SendAppendMatched(c: Cluster, i: nat, p: nat)
    requires Base(c) && Matched(c) && Enabled(c, SendAppend(i, p))
    ensures Matched(DoSendAppend(c, i, p))
  {
    hide Shape, Matches, WinMatched, CallMatched, AppendCallOk, VoteCallOk, CandidateOk, AdvertOk;
    var v := LeaderOwns(c, i);
    BuiltMatched(c, i, p, v);
    SameLogsMatched(c, DoSendAppend(c, i, p));
  }

  // --------------------------------------------------------------- accepting

  /** What an accepted batch leaves: the leader's log up to the batch, or, for an empty batch, no change. */
  ghost predicate Accepted(old_: Log, log: Log, tl: TermLogs, a: AppendArgs) {
    && a.term in tl
    && Matches(log, tl)
    && Agree(log, tl[a.term], EndOf(a))
    && (a.entries != [] ==> log == tl[a.term][..EndOf(a) + 1])
    && (a.entries == [] ==> log == old_)
  }

  lemma AcceptedBatch(old_: Log, h: History, a: AppendArgs)
    requires CallMatched(h, a) && Matches(old_, h.termLogs) && Matches(h.termLogs[a.term], h.termLogs)
    requires !Refuses(old_, a.prev, a.prevTerm)
    ensures Accepted(old_, Sync(old_, a.prev + 1, a.entries), h.termLogs, a)
  {
    hide Sync;
    var tl := h.termLogs;
    var whole := tl[a.term];
    assert old_[a.prev].term == whole[a.prev].term;
    if a.entries != [] {
      SyncIsLeaderPrefix(old_, whole, tl, a.prev, a.entries);
      MatchesPrefix(whole, tl, EndOf(a) + 1);
    } else {
      SyncNothing(old_, a.prev + 1);
      LogMatching(old_, whole, tl, a.prev);
    }
  }

  lemma AcceptedLog(c: Cluster, k: AppendCall)
    requires Matched(c) && k in c.appends && k.peer < |c.nodes|
    requires Accepts(c.nodes[k.peer], k.args)
    ensures CallMatched(c.hist, k.args)
    ensures Accepted(c.nodes[k.peer].log, AppendEntries(c.nodes[k.peer], k.args).0.log, c.hist.termLogs, k.args)
  {
    hide Sync, Shape, Matches;
    assert CallMatched(c.hist, k.args);
    var w :| w in c.hist.wins && w.term == k.args.term;
    assert WinMatched(c.hist.termLogs, w);
    AcceptedBatch(c.nodes[k.peer].log, c.hist, k.args);
  }

  /** The winner of a term never accepts a batch of that term: it would have to be its own. */
  lemma OwnLogKept(c: Cluster, k: AppendCall, w: Win)
    requires Base(c) && Matched(c) && k in c.appends && OneWinner(c.hist)
    requires w in c.hist.wins
    ensures OwnsLog(DoHandleAppend(c, k), w)
  {
    hide Shape, Matches, Merged, Refuses, ConflictOf, WinMatched, CallMatched, VoteCallOk, CandidateOk,
         LeaderOk, EntriesOk;
    assert OwnsLog(c, w) && WinOk(c, w);
    assert AppendCallOk(c, k);
    var v :| v in c.hist.wins && v.term == k.args.term && v.node == k.from;
    assert w.term == k.args.term ==> w.node != k.peer;
    HandledTerm(c.nodes[k.peer], k.args);
  }

  lemma HandledTerm(s: Node, a: AppendArgs)
    ensures var s' := AppendEntries(s, a).0;
      s'.term >= s.term && (s'.log != s.log ==> s'.term == a.term) && (s'.term != s.term ==> s'.term == a.term)
  {
  }

  lemma HandleAppendMatched(c: Cluster, k: AppendCall)
    requires Base(c) && Matched(c) && Enabled(c, HandleAppend(k))
    requires OneWinner(c.hist)
    ensures Matched(DoHandleAppend(c, k))
  {
    hide NodeOk, Matches, WinMatched, AppendEntries, CallMatched, AppendCallOk, VoteCallOk, CandidateOk,
         LeaderOk, WinOk, AdvertOk;
    var c' := DoHandleAppend(c, k);
    if Accepts(c.nodes[k.peer], k.args) {
      AcceptedLog(c, k);
    } else {
      RefusedLog(c.nodes[k.peer], k.args);
    }
    forall w | w in c'.hist.wins
      ensures OwnsLog(c', w) && WinMatched(c'.hist.termLogs, w)
    {
      OwnLogKept(c, k, w);
    }
    forall m | m in c'.appends
      ensures CallMatched(c'.hist, m.args)
    {
      assert CallMatched(c.hist, m.args);
      SameCall(c.hist, c'.hist, m.args);
    }
  }

  lemma RefusedLog(s: Node, a: AppendArgs)
    requires !Accepts(s, a)
    ensures AppendEntries(s, a).0.log == s.log
  {
  }

  lemma SameCall(h: History, h': History, a: AppendArgs)
    requires CallMatched(h, a) && h'.termLogs == h.termLogs && h'.wins == h.wins
    ensures CallMatched(h', a)
  {
  }

  // ---------------------------------------------------- growing the term logs

  lemma CallGrows(h: History, h': History, a: AppendArgs)
    requires CallMatched(h, a) && Grows(h.termLogs, h'.termLogs)
    requires forall w :: w in h'.wins ==> w in h.wins || w.term !in h.termLogs
    ensures CallMatched(h', a)
  {
    var whole, whole' := h.termLogs[a.term], h'.termLogs[a.term];
    assert whole <= whole';
    assert whole'[a.prev + 1..EndOf(a) + 1] == whole[a.prev + 1..EndOf(a) + 1];
  }

  lemma WinGrows(tl: TermLogs, tl': TermLogs, w: Win)
    requires WinMatched(tl, w) && Grows(tl, tl') && tl'[w.term] == tl[w.term]
    ensures WinMatched(tl', w)
  {
    hide Shape, Matches;
    MatchesGrows(tl[w.term], tl, tl');
  }

  lemma WinMatchedStep(c: Cluster, c': Cluster, i: nat, s: Node)
    requires Base(c) && Matched(c) && i < |c.nodes| && i < |c.epochs|
    requires c.nodes[i].role == Candidate
    requires s.term == c.nodes[i].term && s.log == c.nodes[i].log && s.log != []
    requires c' == c.(nodes := c.nodes[i := s], votes := c'.votes, hist := RecordWin(c.hist, i, c.epochs[i], s))
    requires OneWinner(c'.hist)
    ensures Matched(c')
  {
    hide Shape, Matches, Base, CallMatched, WinMatched, OneWinner;
    var tl, tl' := c.hist.termLogs, c'.hist.termLogs;
    var w0 := Win(s.term, i, c.epochs[i], s.log, BallotsFor(c.hist.ballots, s.term, i));
    assert c'.hist.wins == c.hist.wins + {w0};
    FreshTerm(c, c'.hist, i, w0);
    NewTermLog(tl, s.log, s.term);
    FirstTermLog(tl, w0);
    forall j | 0 <= j < |c'.nodes|
      ensures Matches(c'.nodes[j].log, tl')
    {
      MatchesGrows(c.nodes[j].log, tl, tl');
    }
    forall w | w in c.hist.wins
      ensures WinMatched(tl', w) && OwnsLog(c', w)
    {
      assert WinMatched(tl, w) && OwnsLog(c, w);
      WinElsewhere(tl, tl', w, s.term);
    }
    assert OwnsLog(c', w0);
    HasWinners(tl, tl', c.hist.wins, c'.hist.wins, w0);
    forall k | k in c'.appends
      ensures CallMatched(c'.hist, k.args)
    {
      CallGrows(c.hist, c'.hist, k.args);
    }
  }

  /** A candidate that may win without a rival wins a term nobody has won. */
  lemma FreshTerm(c: Cluster, h': History, i: nat, w0: Win)
    requires Base(c) && Matched(c) && i < |c.nodes| && c.nodes[i].role == Candidate
    requires w0.term == c.nodes[i].term && w0.node == i && w0.log == c.nodes[i].log
    requires h'.wins == c.hist.wins + {w0} && OneWinner(h')
    ensures forall w :: w in c.hist.wins ==> w.term != w0.term
    ensures w0.term !in c.hist.termLogs
    ensures Shape(w0.log) && LastTerm(w0.log) <= w0.term && w0.term >= 1
  {
    hide AppendCallOk, VoteCallOk, LeaderOk, AdvertOk, CallMatched, WinMatched, Matches;
    assert CandidateOk(c, i) && NodeOk(c.nodes[i], |c.nodes|);
    assert forall w :: w in c.hist.wins ==> w in h'.wins;
    assert w0 in h'.wins;
  }

  lemma FirstTermLog(tl: TermLogs, w0: Win)
    requires Shape(w0.log) && Matches(w0.log, tl[w0.term := w0.log])
    requires forall i :: 0 <= i < |w0.log| ==> w0.log[i].term < w0.term
    ensures WinMatched(tl[w0.term := w0.log], w0)
  {
  }

  lemma HasWinners(tl: TermLogs, tl': TermLogs, wins: set<Win>, wins': set<Win>, w0: Win)
    requires forall t :: t in tl ==> exists w :: w in wins && w.term == t
    requires wins' == wins + {w0} && tl'.Keys == tl.Keys + {w0.term}
    ensures forall t :: t in tl' ==> exists w :: w in wins' && w.term == t
  {
    forall t | t in tl'
      ensures exists w :: w in wins' && w.term == t
    {
      if t in tl {
        var w :| w in wins && w.term == t;
        assert w in wins';
      } else {
        assert w0 in wins';
      }
    }
  }

  /** The log a winner brings holds no entry of the new term. */
  lemma NewTermLog(tl: TermLogs, log: Log, t: nat)
    requires Matches(log, tl) && t !in tl && Shape(log) && 1 <= t && LastTerm(log) <= t
    ensures forall i :: 0 <= i < |log| ==> log[i].term < t
    ensures Matches(log, tl[t := log]) && Grows(tl, tl[t := log])
  {
    forall i | 0 <= i < |log|
      ensures log[i].term < t
    {
      if i > 0 {
        assert MatchesAt(log, tl, i);
      }
    }
    MatchesGrows(log, tl, tl[t := log]);
  }

  lemma LongerTermLog(tl: TermLogs, t: nat, e: Entry)
    requires t in tl && Matches(tl[t], tl) && e.term == t
    ensures var tl' := tl[t := tl[t] + [e]];
      Grows(tl, tl') && Matches(tl'[t], tl')
  {
    var tl' := tl[t := tl[t] + [e]];
    MatchesGrows(tl[t], tl, tl');
    var log := tl'[t];
    forall i | 1 <= i < |log|
      ensures MatchesAt(log, tl', i)
    {
      if i < |tl[t]| {
        assert MatchesAt(tl[t], tl', i);
        assert log[..i + 1] == tl[t][..i + 1];
      }
    }
  }

  /** A longer log of the own term keeps the winner's facts. */
  lemma WinLonger(tl: TermLogs, w: Win, e: Entry)
    requires WinMatched(tl, w) && e.term == w.term
    requires Shape(tl[w.term] + [e])
    ensures WinMatched(tl[w.term := tl[w.term] + [e]], w)
  {
    hide Shape, Matches;
    LongerTermLog(tl, w.term, e);
  }

  lemma LongerMatched(c: Cluster, c': Cluster, v: Win, e: Entry)
    requires Matched(c) && OneWinner(c.hist) && v in c.hist.wins && v.node < |c.nodes|
    requires c.nodes[v.node].term == v.term && e.term == v.term && v.term in c.hist.termLogs
    requires |c'.nodes| == |c.nodes| && c'.appends == c.appends && c'.hist.wins == c.hist.wins
    requires c'.hist.termLogs == c.hist.termLogs[v.term := c.hist.termLogs[v.term] + [e]]
    requires forall j :: 0 <= j < |c.nodes| && j != v.node ==> c'.nodes[j] == c.nodes[j]
    requires c'.nodes[v.node].log == c'.hist.termLogs[v.term] && c'.nodes[v.node].term == v.term
    requires Shape(c'.hist.termLogs[v.term])
    ensures Matched(c')
  {
    hide Shape, Matches, CallMatched, WinMatched;
    var tl, tl' := c.hist.termLogs, c'.hist.termLogs;
    OwnMatches(tl, v);
    LongerTermLog(tl, v.term, e);
    forall j | 0 <= j < |c'.nodes|
      ensures Matches(c'.nodes[j].log, tl')
    {
      if j != v.node {
        MatchesGrows(c.nodes[j].log, tl, tl');
      }
    }
    forall w | w in c'.hist.wins
      ensures WinMatched(tl', w) && OwnsLog(c', w)
    {
      assert WinMatched(tl, w) && OwnsLog(c, w);
      if w.term == v.term {
        WinLonger(tl, w, e);
      } else {
        WinElsewhere(tl, tl', w, v.term);
      }
    }
    forall k | k in c'.appends
      ensures CallMatched(c'.hist, k.args)
    {
      CallGrows(c.hist, c'.hist, k.args);
    }
  }

  lemma OwnMatches(tl: TermLogs, v: Win)
    requires WinMatched(tl, v)
    ensures Matches(tl[v.term], tl)
  {
  }

  /** A leader's log is the log of its term. */
  lemma LeaderOwns(c: Cluster, i: nat) returns (v: Win)
    requires Base(c) && Matched(c) && i < |c.nodes| && c.nodes[i].role == Leader
    ensures v in c.hist.wins && v.term == c.nodes[i].term && v.node == i
    ensures v.term in c.hist.termLogs && c.hist.termLogs[v.term] == c.nodes[i].log
  {
    hide NodeOk, Matches, WinMatched, CallMatched, AppendCallOk, VoteCallOk, CandidateOk, AdvertOk, WinOk;
    assert LeaderOk(c, i);
    v :| v in c.hist.wins && v.term == c.nodes[i].term && v.node == i;
    assert OwnsLog(c, v);
  }

  lemma ProposeMatched(c: Cluster, i: nat, cmd: Command)
    requires Base(c) && Matched(c) && Enabled(c, Action.Propose(i, cmd))
    requires OneWinner(c.hist)
    ensures Matched(DoPropose(c, i, cmd))
  {
    hide Shape, Matched, AppendCallOk, VoteCallOk, CandidateOk, LeaderOk, AdvertOk, WinOk, OneWinner;
    var v := LeaderOwns(c, i);
    ProposeKeepsOk(c.nodes[i], i, cmd, |c.nodes|);
    LongerMatched(c, DoPropose(c, i, cmd), v, Entry(v.term, cmd));
  }

  lemma WinElsewhere(tl: TermLogs, tl': TermLogs, w: Win, t: nat)
    requires WinMatched(tl, w) && Grows(tl, tl') && t != w.term
    requires w.term in tl ==> w.term in tl' && tl'[w.term] == tl[w.term]
    ensures WinMatched(tl', w)
  {
    hide Shape, Matches;
    WinGrows(tl, tl', w);
  }

  // ------------------------------------------------------------- every action

  lemma RecvVoteMatched(c: Cluster, k: VoteCall)
    requires Base(c) && Matched(c) && Enabled(c, RecvVote(k))
    requires OneWinner(DoRecvVote(c, k).hist)
    ensures Matched(DoRecvVote(c, k))
  {
    var c' := DoRecvVote(c, k);
    var s := c'.nodes[k.cand];
    if s.role == Leader && c.nodes[k.cand].role != Leader {
      WinMatchedStep(c, c', k.cand, s);
    } else {
      SameLogsMatched(c, c');
    }
  }

  lemma CampaignMatched(c: Cluster, i: nat)
    requires Base(c) && Matched(c) && i < |c.nodes|
    ensures Matched(Campaign(c, i))
  {
    hide Shape, AppendCallOk, VoteCallOk, CandidateOk, Matches, CallMatched, WinMatched, IndicesValid;
    SameLogsMatched(c, Campaign(c, i));
  }

  lemma ElectMatched(c: Cluster, i: nat)
    requires Base(c) && Matched(c) && Enabled(c, Elect(i))
    requires OneWinner(DoElect(c, i).hist)
    ensures Matched(DoElect(c, i))
  {
    hide Shape, Matched, AppendCallOk, VoteCallOk, IndicesValid, CandidateOk, LeaderOk, WinOk, AdvertOk,
         OneWinner, LastTerm;
    var m := Campaign(c, i);
    CampaignBase(c, i);
    CampaignMatched(c, i);
    var c' := DoElect(c, i);
    if c'.nodes[i].role == Leader {
      assert c'.nodes == m.nodes[i := c'.nodes[i]];
      WinMatchedStep(m, c', i, c'.nodes[i]);
    } else {
      assert c' == m;
    }
  }

  lemma RecvAppendMatched(c: Cluster, k: AppendCall)
    requires Base(c) && Matched(c) && Enabled(c, RecvAppend(k))
    ensures Matched(DoRecvAppend(c, k))
  {
    hide Matches, OnAppendReply, WinMatched;
    assert AppendCallOk(c, k);
    ReplyKeepsOk(c.nodes[k.from], k.from, k.peer, k.args, k.reply.value, |c.nodes|);
    SameLogsMatched(c, DoRecvAppend(c, k));
  }

  lemma RestartMatched(c: Cluster, i: nat)
    requires Base(c) && Matched(c) && Enabled(c, Restart(i))
    ensures Matched(DoRestart(c, i))
  {
    RestartKeepsDurable(c.nodes[i]);
    SameLogsMatched(c, DoRestart(c, i));
  }

  lemma QuietMatched(c: Cluster, a: Action)
    requires Base(c) && Matched(c) && Enabled(c, a)
    requires a.HandleVote? || a.Beat? || a.HandleBeat? || a.RecvBeat? || a.ApplyOne?
          || a.LoseVote? || a.LoseBeat? || a.LoseAppend?
    ensures Matched(Do(c, a))
  {
    hide NodeOk, Matches, WinMatched, CallMatched, AppendCallOk, VoteCallOk, CandidateOk, LeaderOk;
    if a.HandleVote? {
      var args := VoteArgs(a.vote.term, a.vote.cand, a.vote.lastIndex, a.vote.lastTerm);
      VoteKeepsOk(c.nodes[a.vote.peer], args, |c.nodes|);
    }
    SameLogsMatched(c, Do(c, a));
  }

  lemma StepMatched(c: Cluster, a: Action)
    requires Base(c) && Matched(c) && Enabled(c, a)
    requires OneWinner(c.hist) && OneWinner(Do(c, a).hist)
    ensures Matched(Do(c, a))
  {
    hide Matched, NodeOk, AppendCallOk, VoteCallOk, CandidateOk, LeaderOk;
    match a
    case Elect(i) => ElectMatched(c, i);
    case RecvVote(k) => RecvVoteMatched(c, k);
    case SendAppend(i, p) => SendAppendMatched(c, i, p);
    case HandleAppend(k) => HandleAppendMatched(c, k);
    case RecvAppend(k) => RecvAppendMatched(c, k);
    case Propose(i, cmd) => ProposeMatched(c, i, cmd);
    case Restart(i) => RestartMatched(c, i);
    case _ => QuietMatched(c, a);
  }

  // ----------------------------------------------------------------- theorem

  /** Wins are never forgotten, so one winner per term now means one all along. */
  lemma WinsStay(c: Cluster, a: Action)
    requires Base(c) && Enabled(c, a)
    ensures c.hist.wins <= Do(c, a).hist.wins
  {
    hide NodeOk, Base;
  }

  lemma {:induction false} RunMatched(run: Run, n: nat, k: nat)
    requires Valid(run, n) && k < |run.states| && OneWinner(run.states[k].hist)
    ensures Base(run.states[k]) && Matched(run.states[k])
  {
    hide Base, Matched, Do, Enabled;
    RunBase(run, n, k);
    if k == 0 {
      InitMatched(n);
    } else {
      RunBase(run, n, k - 1);
      assert Follows(run, k - 1);
      WinsStay(run.states[k - 1], run.acts[k - 1]);
      assert OneWinner(run.states[k - 1].hist);
      RunMatched(run, n, k - 1);
      StepMatched(run.states[k - 1], run.acts[k - 1]);
    }
  }
}
