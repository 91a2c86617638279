/**
 What leaders send and what followers make of it, in every run: where a leader
 starts, what it sends after an acknowledgement, which batches are adopted and
 what remains, how far a follower commits, and what is handed to the service.
 */
module RaftShipping {
  import opened RaftLog
  import opened RaftNode
  import opened RaftCluster
  import opened RaftShape
  import opened RaftMatching
  import opened RaftSteps
  import opened RaftTheorems

  function Max(a: int, b: int): int {
    if a < b then b else a
  }

  function Min(a: int, b: int): int {
    if a < b then a else b
  }

  // ------------------------------------------------------------------ sending

  /** The call of leader i to p that carries its log past index m. */
  function From(c: Cluster, i: nat, p: nat, m: int): AppendCall
    requires i < |c.nodes| == |c.epochs| && 0 <= m < |c.nodes[i].log|
  {
    var s := c.nodes[i];
    AppendCall(i, c.epochs[i], p, AppendArgs(s.term, i, m, s.log[m].term, s.log[m + 1..], s.commitIndex),
               c.serial, None)
  }

  /** The next call of i to p is enabled, and carries the log past index m. */
  ghost predicate SendsFrom(c: Cluster, i: nat, p: nat, m: int) {
    && i < |c.nodes| == |c.epochs| && 0 <= m < |c.nodes[i].log|
    && Sane(c) && Enabled(c, SendAppend(i, p))
    && Do(c, SendAppend(i, p)).appends == c.appends + {From(c, i, p, m)}
  }

  lemma NextIsSent(c: Cluster, i: nat, p: nat)
    requires Sane(c) && Enabled(c, SendAppend(i, p))
    ensures p < |c.nodes[i].nextIndex| && SendsFrom(c, i, p, c.nodes[i].nextIndex[p] - 1)
  {
    hide Durable, WellShaped;
    SentinelFirst(c.nodes[i], |c.nodes|);
  }

  lemma SentinelFirst(s: Node, n: nat)
    requires NodeOk(s, n)
    ensures s.log != [] && s.log[0].term == 0
  {
  }

  /** After a step that raised what the leader knows of p, it sends p exactly the log past that. */
  lemma AckMovesOn(run: Run, n: nat, k: nat, i: nat, p: nat)
    requires Valid(run, n) && k < |run.acts| && i < n && p < n && p != i
    requires |run.states[k].nodes| == |run.states[k + 1].nodes| == n
    requires run.states[k].nodes[i].role == Leader && run.states[k + 1].nodes[i].role == Leader
    requires p < |run.states[k].nodes[i].matchIndex| && p < |run.states[k + 1].nodes[i].matchIndex|
    requires run.states[k].nodes[i].matchIndex[p] < run.states[k + 1].nodes[i].matchIndex[p]
    ensures SendsFrom(run.states[k + 1], i, p, run.states[k + 1].nodes[i].matchIndex[p])
  {
    hide Base, Sane, SendsFrom, Do, Enabled;
    RunBase(run, n, k);
    RunBase(run, n, k + 1);
    BaseIsSane(run.states[k + 1]);
    assert Follows(run, k);
    RaisedByAck(run.states[k], run.acts[k], i, p);
    LeaderSends(run.states[k + 1], i, p);
  }

  lemma LeaderSends(c: Cluster, i: nat, p: nat)
    requires Sane(c) && i < |c.nodes| && p < |c.nodes| && p != i && c.nodes[i].role == Leader
    ensures p < |c.nodes[i].nextIndex| && SendsFrom(c, i, p, c.nodes[i].nextIndex[p] - 1)
  {
    hide SendsFrom;
    NextIsSent(c, i, p);
  }

  lemma RaisedByAck(c: Cluster, a: Action, i: nat, p: nat)
    requires Sane(c) && Enabled(c, a) && i < |c.nodes| && p < |c.nodes| && p != i
    requires c.nodes[i].role == Leader && i < |Do(c, a).nodes| && Do(c, a).nodes[i].role == Leader
    requires p < |c.nodes[i].matchIndex| && p < |Do(c, a).nodes[i].matchIndex|
    requires c.nodes[i].matchIndex[p] < Do(c, a).nodes[i].matchIndex[p]
    ensures p < |Do(c, a).nodes[i].nextIndex|
    ensures Do(c, a).nodes[i].nextIndex[p] == Do(c, a).nodes[i].matchIndex[p] + 1
  {
    hide NodeOk, OnAppendReply, AppendEntries, OnVoteReply, StartElection, RequestVote, BuildAppend;
    if a.RecvAppend? && a.append.from == i {
      AckRaises(c, a.append, p);
    } else {
      KeepsMatch(c, a, i, p);
    }
  }

  lemma AckRaises(c: Cluster, k: AppendCall, p: nat)
    requires Sane(c) && Enabled(c, RecvAppend(k)) && p < |c.nodes| && p != k.from
    requires c.nodes[k.from].role == Leader && DoRecvAppend(c, k).nodes[k.from].role == Leader
    ensures var s, s' := c.nodes[k.from], DoRecvAppend(c, k).nodes[k.from];
      && p < |s.matchIndex| && p < |s'.matchIndex| && p < |s'.nextIndex|
      && (s.matchIndex[p] < s'.matchIndex[p] ==> s'.nextIndex[p] == s'.matchIndex[p] + 1)
  {
    hide Durable, WellShaped, CommitFrom, BackUp;
    assert NodeOk(c.nodes[k.from], |c.nodes|);
  }

  /** Only replies change what a leader knows of another node. */
  lemma KeepsMatch(c: Cluster, a: Action, i: nat, p: nat)
    requires Sane(c) && Enabled(c, a) && i < |c.nodes| && p < |c.nodes| && p != i
    requires c.nodes[i].role == Leader && !(a.RecvAppend? && a.append.from == i)
    requires i < |Do(c, a).nodes| && Do(c, a).nodes[i].role == Leader
    ensures p < |c.nodes[i].matchIndex| && p < |Do(c, a).nodes[i].matchIndex|
    ensures Do(c, a).nodes[i].matchIndex[p] == c.nodes[i].matchIndex[p]
  {
    hide Durable, WellShaped, CommitFrom, BackUp, Sync, Refuses, ConflictOf, UpToDate, BuildAppend;
    assert NodeOk(c.nodes[i], |c.nodes|);
  }

  /** A reply in the leader's own term counts for its peer alone; a newer one makes a follower; an old one nothing. */
  lemma ReplyAnswer(run: Run, n: nat, k: nat, call: AppendCall)
    requires Valid(run, n) && k < |run.acts| && run.acts[k] == RecvAppend(call)
    ensures call.from < |run.states[k].nodes| == |run.states[k + 1].nodes| && call.peer < n && call.reply.Some?
    ensures
      var s, s' := run.states[k].nodes[call.from], run.states[k + 1].nodes[call.from];
      var r, end := call.reply.value, call.args.prev + |call.args.entries|;
      && s'.log == s.log && s'.lastApplied == s.lastApplied && s'.term == Max(s.term, r.term)
      && (r.term > s.term ==> s'.role == Follower && s'.votedFor == NOBODY && s'.voteCount == 0)
      && (r.term <= s.term && (s.role != Leader || s.term != call.args.term) ==> s' == s)
      && (r.term <= s.term == call.args.term && s.role == Leader ==>
            && s'.role == Leader && |s.matchIndex| == |s.nextIndex| == n
            && (if r.success then
                  && s'.matchIndex == s.matchIndex[call.peer := Max(s.matchIndex[call.peer], end)]
                  && (end <= s.matchIndex[call.peer] ==> s'.nextIndex == s.nextIndex)
                  && (end > s.matchIndex[call.peer] ==> s'.nextIndex == s.nextIndex[call.peer := end + 1])
                else
                  && s'.matchIndex == s.matchIndex && s'.commitIndex == s.commitIndex
                  && |s'.nextIndex| == n && s'.nextIndex == s.nextIndex[call.peer := s'.nextIndex[call.peer]]))
  {
    hide Base, CommitFrom, BackUp, Durable, WellShaped;
    RunBase(run, n, k);
    assert Follows(run, k);
    assert NodeOk(run.states[k].nodes[call.from], n);
  }

  /** A new leader has all nodes but itself to convince, and asks each first about the end of its log. */
  lemma WinnerStartsAtEnd(run: Run, n: nat, k: nat, i: nat, p: nat)
    requires Valid(run, n) && k < |run.acts| && i < n && p < n && p != i
    requires |run.states[k].nodes| == |run.states[k + 1].nodes| == n
    requires run.states[k].nodes[i].role != Leader && run.states[k + 1].nodes[i].role == Leader
    ensures var s := run.states[k + 1].nodes[i];
      && SendsFrom(run.states[k + 1], i, p, |s.log| - 1)
      && From(run.states[k + 1], i, p, |s.log| - 1).args.entries == []
      && p < |s.matchIndex| && s.matchIndex[p] == 0
  {
    hide Base, Sane, SendsFrom, Do, Enabled;
    RunBase(run, n, k);
    RunBase(run, n, k + 1);
    BaseIsSane(run.states[k + 1]);
    assert Follows(run, k);
    LeaderSends(run.states[k + 1], i, p);
    Crowned(run.states[k], run.acts[k], i, p);
    HasParts(run.states[k + 1], i, p, |run.states[k + 1].nodes[i].log| - 1);
  }

  lemma HasParts(c: Cluster, i: nat, p: nat, m: int)
    requires SendsFrom(c, i, p, m)
    ensures i < |c.nodes| == |c.epochs| && 0 <= m < |c.nodes[i].log|
  {
  }

  lemma Crowned(c: Cluster, a: Action, i: nat, p: nat)
    requires Sane(c) && Enabled(c, a) && i < |c.nodes| && p < |c.nodes| && p != i
    requires c.nodes[i].role != Leader && i < |Do(c, a).nodes| && Do(c, a).nodes[i].role == Leader
    ensures var s := Do(c, a).nodes[i];
      p < |s.nextIndex| && s.nextIndex[p] == |s.log| && p < |s.matchIndex| && s.matchIndex[p] == 0
  {
    hide NodeOk, OnAppendReply, AppendEntries, RequestVote, BuildAppend, Heartbeat, OnBeatReply;
    if !a.Elect? && !a.RecvVote? {
      OnlyVotesCrown(c, a, i);
    }
  }

  lemma OnlyVotesCrown(c: Cluster, a: Action, i: nat)
    requires Sane(c) && Enabled(c, a) && i < |c.nodes| && !a.Elect? && !a.RecvVote? && c.nodes[i].role != Leader
    ensures i < |Do(c, a).nodes| && Do(c, a).nodes[i].role != Leader
  {
    hide Durable, WellShaped, CommitFrom, BackUp, Sync, Refuses, ConflictOf, UpToDate, BuildAppend;
  }

  // --------------------------------------------------- what a leader has itself

  /** A leader counts its own log as held, to the end. */
  ghost predicate OwnHeld(s: Node, i: nat) {
    s.role == Leader ==>
      i < |s.matchIndex| && i < |s.nextIndex| && s.matchIndex[i] == |s.log| - 1 && s.nextIndex[i] == |s.log|
  }

  lemma ElectionOwnHeld(c: Cluster, a: Action, i: nat)
    requires Sane(c) && Enabled(c, a) && i < |c.nodes| && OwnHeld(c.nodes[i], i)
    requires a.Elect? || a.RecvVote? || a.HandleVote?
    ensures i < |Do(c, a).nodes| && OwnHeld(Do(c, a).nodes[i], i)
  {
    hide Durable, WellShaped, IndicesValid, UpToDate;
    assert NodeOk(c.nodes[i], |c.nodes|);
  }

  lemma AppendOwnHeld(c: Cluster, a: Action, i: nat)
    requires Sane(c) && Enabled(c, a) && i < |c.nodes| && OwnHeld(c.nodes[i], i)
    requires a.SendAppend? || a.HandleAppend? || a.RecvAppend?
    ensures i < |Do(c, a).nodes| && OwnHeld(Do(c, a).nodes[i], i)
  {
    hide Durable, WellShaped, CommitFrom, BackUp, Sync, Refuses, ConflictOf, BuildAppend;
    assert NodeOk(c.nodes[i], |c.nodes|);
  }

  lemma StepOwnHeld(c: Cluster, a: Action, i: nat)
    requires Sane(c) && Enabled(c, a) && i < |c.nodes| && OwnHeld(c.nodes[i], i)
    ensures i < |Do(c, a).nodes| && OwnHeld(Do(c, a).nodes[i], i)
  {
    hide NodeOk, OnVoteReply, StartElection, RequestVote, OnAppendReply, AppendEntries, BuildAppend;
    if a.Elect? || a.RecvVote? || a.HandleVote? {
      ElectionOwnHeld(c, a, i);
    } else if a.SendAppend? || a.HandleAppend? || a.RecvAppend? {
      AppendOwnHeld(c, a, i);
    } else {
      assert NodeOk(c.nodes[i], |c.nodes|);
    }
  }

  lemma {:induction false} LeaderHoldsOwn(run: Run, n: nat, k: nat, i: nat)
    requires Valid(run, n) && k < |run.states| && i < n
    ensures i < |run.states[k].nodes| && OwnHeld(run.states[k].nodes[i], i)
  {
    hide Do, Enabled, OwnHeld, Sane;
    if k == 0 {
      assert OwnHeld(Boot(Blank), i) by { NotLeading(Boot(Blank), i); }
    } else {
      LeaderHoldsOwn(run, n, k - 1, i);
      assert Follows(run, k - 1);
      StepOwnHeld(run.states[k - 1], run.acts[k - 1], i);
    }
  }

  lemma NotLeading(s: Node, i: nat)
    requires s.role != Leader
    ensures OwnHeld(s, i)
  {
  }

  /** A command goes to the end of the leader's log, in its term, and nowhere else. */
  lemma CommandIsAppended(run: Run, n: nat, k: nat, i: nat, cmd: Command)
    requires Valid(run, n) && k < |run.acts| && run.acts[k] == Action.Propose(i, cmd)
    ensures i < |run.states[k].nodes| == |run.states[k + 1].nodes|
    ensures var s, s' := run.states[k].nodes[i], run.states[k + 1].nodes[i];
      && s'.log == s.log + [Entry(s.term, cmd)] && s'.term == s.term && s'.role == Leader
      && s'.commitIndex == s.commitIndex && s'.lastApplied == s.lastApplied
    ensures forall j :: 0 <= j < |run.states[k].nodes| && j != i ==>
      run.states[k + 1].nodes[j] == run.states[k].nodes[j]
  {
    hide Durable, WellShaped;
    assert Follows(run, k);
    assert NodeOk(run.states[k].nodes[i], |run.states[k].nodes|);
  }

  // ----------------------------------------------------------------- adopting

  /** The follower has the entry the call says comes before its batch. */
  predicate HasPrev(s: Node, a: AppendArgs) {
    0 <= a.prev < |s.log| && s.log[a.prev].term == a.prevTerm
  }

  /** A batch is accepted iff its term is not old and the entry before it is there. */
  lemma BatchAnswer(run: Run, n: nat, k: nat, call: AppendCall)
    requires Valid(run, n) && k < |run.acts| && run.acts[k] == HandleAppend(call)
    ensures call.peer < |run.states[k].nodes| == |run.states[k + 1].nodes|
    ensures
      var s, s', a := run.states[k].nodes[call.peer], run.states[k + 1].nodes[call.peer], call.args;
      var ok := a.term >= s.term && HasPrev(s, a);
      && (exists r: AppendReply ::
            && run.states[k + 1].appends == run.states[k].appends - {call} + {call.(reply := Some(r))}
            && r.success == ok && r.term == if ok then a.term else s.term)
      && s'.term == Max(s.term, a.term)
      && s'.votedFor == (if a.term > s.term then NOBODY else s.votedFor)
      && s'.voteCount == (if a.term > s.term then 0 else s.voteCount)
      && (a.term >= s.term ==> s'.role == Follower)
      && (!ok ==> s'.log == s.log && s'.commitIndex == s.commitIndex)
      && (ok ==> s'.commitIndex == if a.commit > s.commitIndex then Min(a.commit, |s'.log| - 1) else s.commitIndex)
  {
    hide Base, Sync, ConflictOf, Durable, IndicesValid;
    RunBase(run, n, k);
    assert Follows(run, k);
    var c := run.states[k];
    SentinelFirst(c.nodes[call.peer], n);
    PrevIsThere(c, call);
    var r := AppendEntries(c.nodes[call.peer], call.args).1;
    assert run.states[k + 1].appends == c.appends - {call} + {call.(reply := Some(r))};
  }

  lemma PrevIsThere(c: Cluster, k: AppendCall)
    requires Base(c) && k in c.appends
    ensures k.args.prev >= 0
  {
    assert AppendCallOk(c, k);
  }

  /** An accepted batch has its length and its terms; with one winner per term it is adopted entry by entry. */
  lemma BatchAdopted(run: Run, n: nat, k: nat, call: AppendCall)
    requires Valid(run, n) && k < |run.acts| && run.acts[k] == HandleAppend(call)
    requires call.peer < |run.states[k].nodes| && call.peer < |run.states[k + 1].nodes|
    requires call.args.term >= run.states[k].nodes[call.peer].term && HasPrev(run.states[k].nodes[call.peer], call.args)
    ensures
      var log, log', a := run.states[k].nodes[call.peer].log, run.states[k + 1].nodes[call.peer].log, call.args;
      && (a.entries == [] ==> log' == log)
      && (a.entries != [] ==>
            && |log'| == a.prev + 1 + |a.entries| && log'[..a.prev + 1] == log[..a.prev + 1]
            && (forall x :: 0 <= x < |a.entries| ==> log'[a.prev + 1 + x].term == a.entries[x].term)
            && (OneWinner(run.states[k].hist) ==> log' == log[..a.prev + 1] + a.entries))
  {
    hide Base, Sync, NodeOk, Matched;
    RunBase(run, n, k);
    assert Follows(run, k);
    var c := run.states[k];
    var s, a := c.nodes[call.peer], call.args;
    SentinelFirst(s, n);
    NotRefused(s, a);
    assert run.states[k + 1].nodes[call.peer].log == Sync(s.log, a.prev + 1, a.entries);
    if a.entries == [] {
      SyncNothing(s.log, a.prev + 1);
    } else {
      SyncTerms(s.log, a.prev, a.entries);
      if OneWinner(c.hist) {
        RunMatched(run, n, k);
        AdoptsAll(c, call);
      }
    }
  }

  lemma NotRefused(s: Node, a: AppendArgs)
    requires HasPrev(s, a) && s.log[0].term == 0
    ensures !Refuses(s.log, a.prev, a.prevTerm)
  {
  }

  lemma AdoptsAll(c: Cluster, k: AppendCall)
    requires Matched(c) && k in c.appends && k.peer < |c.nodes| && k.args.entries != []
    requires Accepts(c.nodes[k.peer], k.args) && HasPrev(c.nodes[k.peer], k.args)
    ensures AppendEntries(c.nodes[k.peer], k.args).0.log == c.nodes[k.peer].log[..k.args.prev + 1] + k.args.entries
  {
    hide Sync, Matches, WinMatched, OwnsLog, AppendEntries;
    AcceptedLog(c, k);
    var log, a, tl := c.nodes[k.peer].log, k.args, c.hist.termLogs;
    var whole := tl[a.term];
    var w :| w in c.hist.wins && w.term == a.term;
    WholeMatches(c, w);
    LogMatching(log, whole, tl, a.prev);
    assert whole[..EndOf(a) + 1] == whole[..a.prev + 1] + a.entries;
  }

  lemma WholeMatches(c: Cluster, w: Win)
    requires Matched(c) && w in c.hist.wins
    ensures w.term in c.hist.termLogs && Matches(c.hist.termLogs[w.term], c.hist.termLogs)
    ensures c.hist.termLogs[w.term][0].term == 0
  {
    assert WinMatched(c.hist.termLogs, w);
  }

  // ----------------------------------------------------------------- applying

  /** Whatever is committed and not yet handed over can be, in every orderly run; and the next entry is what goes. */
  lemma NothingWithheld(run: Run, n: nat, k: nat, i: nat)
    requires Valid(run, n) && k < |run.states| && i < n
    ensures i < |run.states[k].nodes| == |run.states[k].epochs| && Sane(run.states[k])
    ensures var c := run.states[k]; var s := c.nodes[i];
      && (Enabled(c, ApplyOne(i)) <==> s.lastApplied < s.commitIndex && s.lastApplied + 1 < |s.log|)
      && s.lastApplied >= 0
      && (Orderly(run) ==> (Enabled(c, ApplyOne(i)) <==> s.lastApplied < s.commitIndex))
      && (Enabled(c, ApplyOne(i)) ==>
            var c' := Do(c, ApplyOne(i));
            && |c'.nodes| == |c.nodes| && c'.nodes[i].lastApplied == s.lastApplied + 1
            && AppliedBy(c'.hist, Instance(i, c.epochs[i])) == AppliedBy(c.hist, Instance(i, c.epochs[i]))
                 + [ApplyMsg(s.lastApplied + 1, s.log[s.lastApplied + 1].cmd)])
  {
    hide Base, NodeOk;
    RunBase(run, n, k);
    BaseIsSane(run.states[k]);
    NodeInRun(run, n, k, i);
    AppliedNat(run.states[k].nodes[i], n);
    if Orderly(run) {
      CommitWithinLog(run, n, k, i);
    }
  }

  lemma AppliedNat(s: Node, n: nat)
    requires NodeOk(s, n)
    ensures s.lastApplied >= 0
  {
  }

  // --------------------------------------------------------------- heartbeats

  /** A heartbeat of a current or newer term makes a follower of that term and touches nothing else. */
  lemma BeatAnswer(run: Run, n: nat, k: nat, call: BeatCall)
    requires Valid(run, n) && k < |run.acts| && run.acts[k] == HandleBeat(call)
    ensures call.peer < |run.states[k].nodes| == |run.states[k + 1].nodes|
    ensures
      var s, s', t := run.states[k].nodes[call.peer], run.states[k + 1].nodes[call.peer], call.term;
      && run.states[k + 1].beats == run.states[k].beats - {call}
           + {call.(reply := Some(BeatReply(Max(s.term, t), t >= s.term)))}
      && s'.term == Max(s.term, t) && s'.role == (if t >= s.term then Follower else s.role)
      && s'.votedFor == (if t > s.term then NOBODY else s.votedFor) && s'.voteCount == s.voteCount
      && s'.log == s.log && s'.commitIndex == s.commitIndex && s'.lastApplied == s.lastApplied
  {
    hide NodeOk;
    assert Follows(run, k);
  }

  /** A heartbeat round asks every other node, in the node's present term. */
  lemma BeatAsksAll(run: Run, n: nat, k: nat, i: nat)
    requires Valid(run, n) && k < |run.acts| && run.acts[k] == Beat(i)
    ensures i < |run.states[k].nodes| == |run.states[k].epochs| && run.states[k + 1].nodes == run.states[k].nodes
    ensures
      var c, c' := run.states[k], run.states[k + 1];
      forall b: BeatCall :: b in c'.beats <==>
        b in c.beats || (b.peer != i && b.peer < |c.nodes|
                         && b == BeatCall(i, c.epochs[i], b.peer, c.nodes[i].term, c.serial, None))
  {
    hide NodeOk;
    assert Follows(run, k);
  }

  /** A reply of a term newer than its heartbeat makes a follower without a vote, of the newer of the two terms. */
  lemma BeatReplyAnswer(run: Run, n: nat, k: nat, call: BeatCall)
    requires Valid(run, n) && k < |run.acts| && run.acts[k] == RecvBeat(call)
    ensures call.from < |run.states[k].nodes| == |run.states[k + 1].nodes| && call.reply.Some?
    ensures
      var s, s', t := run.states[k].nodes[call.from], run.states[k + 1].nodes[call.from], call.reply.value.term;
      && run.states[k + 1].beats == run.states[k].beats - {call}
      && (t <= call.term ==> s' == s)
      && (t > call.term ==>
            s'.term == Max(s.term, t) && s'.role == Follower && s'.votedFor == NOBODY && s'.voteCount == 0
            && s'.log == s.log && s'.commitIndex == s.commitIndex && s'.lastApplied == s.lastApplied)
  {
    hide NodeOk;
    assert Follows(run, k);
  }
}
