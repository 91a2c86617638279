/**
 Fast log backtracking in runs: a leader that processes a refusal, however late,
 moves to a strictly lower attempt that skips no index on which it and the
 follower's log (as it was when it refused) agree.
 */
module RaftBacktrack {
  import opened RaftLog
  import opened RaftNode
  import opened RaftCluster
  import opened RaftShape
  import opened RaftMatching

  /** Every reply in flight was produced by the handler, on the peer, at some earlier step. */
  ghost predicate AnsweredAt(run: Run, j: nat, call: AppendCall) {
    && j < |run.acts| && j < |run.states|
    && call.reply.Some? && call.peer < |run.states[j].nodes|
    && run.acts[j] == HandleAppend(call.(reply := None))
    && call.reply.value == AppendEntries(run.states[j].nodes[call.peer], call.args).1
  }

  lemma {:induction false} ReplyOrigin(run: Run, n: nat, k: nat, call: AppendCall) returns (j: nat)
    requires Valid(run, n) && k < |run.states| && call in run.states[k].appends && call.reply.Some?
    ensures j < k && AnsweredAt(run, j, call)
  {
    hide Base, AppendEntries, BuildAppend;
    if k > 0 {
      RunBase(run, n, k - 1);
      assert Follows(run, k - 1);
      if call in run.states[k - 1].appends {
        j := ReplyOrigin(run, n, k - 1, call);
      } else {
        j := k - 1;
        NewReply(run.states[k - 1], run.acts[k - 1], call);
      }
    }
  }

  lemma NewReply(c: Cluster, a: Action, call: AppendCall)
    requires Sane(c) && Enabled(c, a) && call in Do(c, a).appends && call !in c.appends && call.reply.Some?
    ensures call.peer < |c.nodes| && a == HandleAppend(call.(reply := None))
    ensures call.reply.value == AppendEntries(c.nodes[call.peer], call.args).1
  {
    hide NodeOk, AppendEntries, BuildAppend;
    match a
    case HandleAppend(k) => assert call == k.(reply := call.reply);
    case _ =>
  }

  lemma {:induction false} TermLogsGrow(run: Run, n: nat, j: nat, k: nat)
    requires Valid(run, n) && j <= k < |run.states| && OneWinner(run.states[k].hist)
    ensures Grows(run.states[j].hist.termLogs, run.states[k].hist.termLogs)
    ensures OneWinner(run.states[j].hist)
  {
    hide Base, Matched, Do, Enabled;
    if j < k {
      RunBase(run, n, k - 1);
      assert Follows(run, k - 1);
      WinsStay(run.states[k - 1], run.acts[k - 1]);
      TermLogsGrow(run, n, j, k - 1);
      RunMatched(run, n, k - 1);
      StepGrows(run.states[k - 1], run.acts[k - 1]);
    }
  }

  lemma ElectGrows(c: Cluster, i: nat)
    requires Base(c) && Matched(c) && Enabled(c, Elect(i)) && OneWinner(DoElect(c, i).hist)
    ensures Grows(c.hist.termLogs, DoElect(c, i).hist.termLogs)
  {
    hide Matched, Shape, AppendCallOk, VoteCallOk, CandidateOk, LeaderOk, WinOk, AdvertOk, OneWinner;
    var c' := DoElect(c, i);
    if c'.nodes[i].role == Leader {
      CampaignBase(c, i);
      CampaignMatched(c, i);
      var m := Campaign(c, i);
      var s := m.nodes[i];
      FreshTerm(m, c'.hist, i, Win(s.term, i, c.epochs[i], s.log, BallotsFor(m.hist.ballots, s.term, i)));
    }
  }

  lemma RecvVoteGrows(c: Cluster, k: VoteCall)
    requires Base(c) && Matched(c) && Enabled(c, RecvVote(k)) && OneWinner(DoRecvVote(c, k).hist)
    ensures Grows(c.hist.termLogs, DoRecvVote(c, k).hist.termLogs)
  {
    hide Matched, Shape, AppendCallOk, VoteCallOk, CandidateOk, LeaderOk, WinOk, AdvertOk, OneWinner;
    var c' := DoRecvVote(c, k);
    var s := c'.nodes[k.cand];
    if s.role == Leader && c.nodes[k.cand].role != Leader {
      FreshTerm(c, c'.hist, k.cand,
                Win(s.term, k.cand, c.epochs[k.cand], s.log, BallotsFor(c.hist.ballots, s.term, k.cand)));
    }
  }

  lemma StepGrows(c: Cluster, a: Action)
    requires Base(c) && Matched(c) && Enabled(c, a) && OneWinner(Do(c, a).hist)
    ensures Grows(c.hist.termLogs, Do(c, a).hist.termLogs)
  {
    hide Matched, Shape, AppendCallOk, VoteCallOk, CandidateOk, LeaderOk, WinOk, AdvertOk, OneWinner;
    match a
    case Elect(i) => ElectGrows(c, i);
    case RecvVote(k) => RecvVoteGrows(c, k);
    case Propose(i, cmd) => ProposeGrows(c, i, cmd);
    case _ => SameTermLogs(c, a);
  }

  lemma ProposeGrows(c: Cluster, i: nat, cmd: Command)
    requires Base(c) && Matched(c) && Enabled(c, Action.Propose(i, cmd))
    ensures Grows(c.hist.termLogs, DoPropose(c, i, cmd).hist.termLogs)
  {
    hide Matched, Shape, AppendCallOk, VoteCallOk, CandidateOk, LeaderOk, WinOk, AdvertOk;
    var v := LeaderOwns(c, i);
  }

  lemma SameTermLogs(c: Cluster, a: Action)
    requires Sane(c) && Enabled(c, a) && !a.Elect? && !a.RecvVote? && !a.Propose?
    ensures Do(c, a).hist.termLogs == c.hist.termLogs
  {
    hide NodeOk, CommitFrom, Merged, Refuses, UpToDate;
  }

  /** The reply makes the leader back up: it is a current refusal and the node still leads the call's term. */
  ghost predicate BacksUp(c: Cluster, call: AppendCall) {
    && call.from < |c.nodes| && call.reply.Some? && !call.reply.value.success
    && call.reply.value.term <= c.nodes[call.from].term
    && c.nodes[call.from].term == call.args.term && c.nodes[call.from].role == Leader
  }

  /** The leader's own previous entry is what the call said it was. */
  lemma CallStillTrue(c: Cluster, call: AppendCall)
    requires Base(c) && Matched(c) && call in c.appends && call.from < |c.nodes|
    requires c.nodes[call.from].term == call.args.term && c.nodes[call.from].role == Leader
    ensures 0 <= call.args.prev < |c.nodes[call.from].log|
    ensures call.args.prevTerm == TermAt(c.nodes[call.from].log, call.args.prev)
  {
    hide Matches, WinMatched, OwnsLog, Shape, AppendCallOk, VoteCallOk, CandidateOk, LeaderOk, WinOk, AdvertOk;
    var v := LeaderOwns(c, call.from);
    assert CallMatched(c.hist, call.args);
  }

  lemma FollowerLog(run: Run, n: nat, j: nat, k: nat, p: nat)
    requires Valid(run, n) && j <= k < |run.states| && OneWinner(run.states[k].hist) && p < |run.states[j].nodes|
    ensures Shape(run.states[j].nodes[p].log)
    ensures Matches(run.states[j].nodes[p].log, run.states[k].hist.termLogs)
  {
    hide Matches, Shape;
    TermLogsGrow(run, n, j, k);
    RunMatched(run, n, j);
    assert NodeOk(run.states[j].nodes[p], |run.states[j].nodes|);
    MatchesGrows(run.states[j].nodes[p].log, run.states[j].hist.termLogs, run.states[k].hist.termLogs);
  }

  /** What processing a refusal at step k means, with the follower's log as it was at step j. */
  lemma BacktrackingExact(run: Run, n: nat, k: nat, call: AppendCall) returns (j: nat)
    requires Valid(run, n) && k < |run.acts| && OneWinner(run.states[k].hist)
    requires run.acts[k] == RecvAppend(call) && BacksUp(run.states[k], call)
    ensures j < k && AnsweredAt(run, j, call)
    ensures
      var leader := run.states[k].nodes[call.from].log;
      var follower := run.states[j].nodes[call.peer].log;
      && call.from < |run.states[k + 1].nodes|
      && call.peer < |run.states[k + 1].nodes[call.from].nextIndex|
      && var next := run.states[k + 1].nodes[call.from].nextIndex[call.peer];
         && 1 <= next <= call.args.prev
         && (forall x :: Agree(leader, follower, x) ==> x <= next - 1)
         && BacksUpTo(leader, follower, call.args.prev, next)
  {
    hide Matches, Agree, Matched, AppendCallOk, VoteCallOk, CandidateOk, LeaderOk, WinOk, AdvertOk, Shape,
         ConflictStart, ScanBack, BacksUpTo;
    assert Follows(run, k);
    RunBase(run, n, k);
    RunMatched(run, n, k);
    j := ReplyOrigin(run, n, k, call);
    var c := run.states[k];
    FollowerLog(run, n, j, k, call.peer);
    LeaderLog(c, call.from);
    CallStillTrue(c, call);
    BackUpIsExact(c.nodes[call.from].log, run.states[j].nodes[call.peer].log, c.hist.termLogs, call.args.prev);
  }

  lemma LeaderLog(c: Cluster, i: nat)
    requires Base(c) && Matched(c) && i < |c.nodes|
    ensures Shape(c.nodes[i].log) && Matches(c.nodes[i].log, c.hist.termLogs)
  {
    hide Matches, Shape;
    assert NodeOk(c.nodes[i], |c.nodes|);
  }
}
