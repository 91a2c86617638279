/**
 The properties of whole runs. The first group needs no assumption on the run,
 Log Matching needs one winner per term, the last group needs orderly runs:
 timely votes, timely heartbeats, in-order appends.
 */
module RaftTheorems {
  import opened RaftLog
  import opened RaftNode
  import opened RaftCluster
  import opened RaftShape
  import opened RaftElection
  import opened RaftMatching
  import opened RaftSafety
  import opened RaftSteps

  // ------------------------------------------------------------- in every run

  ghost function Extend(run: Run, a: Action): Run
    requires |run.states| == |run.acts| + 1
    requires Sane(run.states[|run.acts|]) && Enabled(run.states[|run.acts|], a)
  {
    Run(run.states + [Do(run.states[|run.acts|], a)], run.acts + [a])
  }

  /** The code never meets a state it cannot handle: every enabled action is defined in every reachable state. */
  lemma NeverStuck(run: Run, n: nat)
    requires Valid(run, n)
    ensures Sane(run.states[|run.acts|])
    ensures forall a: Action :: Enabled(run.states[|run.acts|], a) ==> Valid(Extend(run, a), n)
  {
    hide Base, Do, Enabled;
    RunBase(run, n, |run.acts|);
    BaseIsSane(run.states[|run.acts|]);
    forall a: Action | Enabled(run.states[|run.acts|], a)
      ensures Valid(Extend(run, a), n)
    {
      var more := Extend(run, a);
      forall k | 0 <= k < |more.acts|
        ensures Follows(more, k)
      {
        assert k < |run.acts| ==> Follows(run, k);
      }
    }
  }

  lemma BaseIsSane(c: Cluster)
    requires Base(c)
    ensures Sane(c)
  {
  }

  lemma NodeInRun(run: Run, n: nat, k: nat, i: nat)
    requires Valid(run, n) && k < |run.states| && i < n
    ensures |run.states[k].nodes| == n && NodeOk(run.states[k].nodes[i], n)
  {
    hide NodeOk;
    RunBase(run, n, k);
  }

  /** The Persister always decodes to term, vote and log, so a crash loses volatile fields only. */
  lemma CrashRefinement(run: Run, n: nat, k: nat, i: nat)
    requires Valid(run, n) && k < |run.states| && i < n && i < |run.states[k].nodes|
    ensures var s := run.states[k].nodes[i];
      && Durable(s)
      && Boot(s.disk) == s.(role := Follower, voteCount := 0, commitIndex := 0, lastApplied := 0,
                            nextIndex := [], matchIndex := [])
  {
    NodeInRun(run, n, k, i);
    RestartKeepsDurable(run.states[k].nodes[i]);
  }

  /** Sentinel first, terms never falling and never past the node's own. */
  lemma LogShape(run: Run, n: nat, k: nat, i: nat)
    requires Valid(run, n) && k < |run.states| && i < n && i < |run.states[k].nodes|
    ensures var s := run.states[k].nodes[i];
      && s.log != [] && s.log[0] == SENTINEL
      && (forall x, y :: 0 <= x <= y < |s.log| ==> s.log[x].term <= s.log[y].term <= s.term)
  {
    NodeInRun(run, n, k, i);
    var s := run.states[k].nodes[i];
    assert forall y :: 0 <= y < |s.log| ==> s.log[y].term <= s.log[|s.log| - 1].term;
  }

  /** A winner's log at the moment it wins is the one it advertised to its voters. */
  lemma WinsWithAdvertisedLog(run: Run, n: nat, k: nat, w: Win)
    requires Valid(run, n) && k < |run.states| && w in run.states[k].hist.wins
    ensures Slot(w.term, w.node) in run.states[k].hist.adverts
    ensures w.log == run.states[k].hist.adverts[Slot(w.term, w.node)]
  {
    RunBase(run, n, k);
    assert WinOk(run.states[k], w);
  }

  /** While a node leads, every next index is a valid cut of its log and every match index lies inside it. */
  lemma LeaderIndicesValid(run: Run, n: nat, k: nat, i: nat)
    requires Valid(run, n) && k < |run.states| && i < n && i < |run.states[k].nodes|
    requires run.states[k].nodes[i].role == Leader
    ensures var s := run.states[k].nodes[i];
      && |s.nextIndex| == n && |s.matchIndex| == n
      && forall p :: 0 <= p < n ==> 1 <= s.nextIndex[p] <= |s.log| && 0 <= s.matchIndex[p] < |s.log|
  {
    NodeInRun(run, n, k, i);
  }

  lemma StepRaisesTerm(c: Cluster, a: Action, i: nat)
    requires Base(c) && Enabled(c, a) && i < |c.nodes|
    ensures TermRises(c, Do(c, a), i)
  {
    hide Base;
    BaseIsSane(c);
    if a.Elect? || a.HandleVote? || a.RecvVote? {
      ElectionRaisesTerm(c, a, i);
    } else if a.HandleAppend? || a.RecvAppend? || a.SendAppend? || a.Propose? {
      AppendRaisesTerm(c, a, i);
    } else {
      OtherRaisesTerm(c, a, i);
    }
  }

  ghost predicate TermRises(c: Cluster, c': Cluster, i: nat) {
    && i < |c.nodes| == |c'.nodes| == |c'.epochs| && i < |c.epochs|
    && c.nodes[i].term <= c'.nodes[i].term && c.epochs[i] <= c'.epochs[i]
    && (c.nodes[i].role == Follower && c'.nodes[i].term == c.nodes[i].term ==> c'.nodes[i].role == Follower)
  }

  lemma ElectionRaisesTerm(c: Cluster, a: Action, i: nat)
    requires Sane(c) && Enabled(c, a) && i < |c.nodes| && (a.Elect? || a.HandleVote? || a.RecvVote?)
    ensures TermRises(c, Do(c, a), i)
  {
    hide Shape, UpToDate, IndicesValid;
  }

  lemma AppendRaisesTerm(c: Cluster, a: Action, i: nat)
    requires Sane(c) && Enabled(c, a) && i < |c.nodes|
    requires a.HandleAppend? || a.RecvAppend? || a.SendAppend? || a.Propose?
    ensures TermRises(c, Do(c, a), i)
  {
    hide Shape, Sync, Refuses, CommitFrom;
    if a.HandleAppend? {
      HandledTerm(c.nodes[a.append.peer], a.append.args);
    }
  }

  lemma OtherRaisesTerm(c: Cluster, a: Action, i: nat)
    requires Sane(c) && Enabled(c, a) && i < |c.nodes| && !a.Elect? && !a.HandleVote? && !a.RecvVote?
    requires !a.HandleAppend? && !a.RecvAppend? && !a.SendAppend? && !a.Propose?
    ensures TermRises(c, Do(c, a), i)
  {
    hide Shape;
    if a.Restart? {
      RestartKeepsDurable(c.nodes[a.i]);
    }
  }

  /** No node's term ever goes down, not even across crashes. */
  lemma {:induction false} TermsNeverFall(run: Run, n: nat, j: nat, k: nat, i: nat)
    requires Valid(run, n) && j <= k < |run.states| && i < n
    ensures i < |run.states[j].nodes| && i < |run.states[k].nodes|
    ensures run.states[j].nodes[i].term <= run.states[k].nodes[i].term
  {
    hide Base, Do, Enabled;
    RunBase(run, n, j);
    RunBase(run, n, k);
    if j < k {
      TermsNeverFall(run, n, j, k - 1, i);
      RunBase(run, n, k - 1);
      assert Follows(run, k - 1);
      StepRaisesTerm(run.states[k - 1], run.acts[k - 1], i);
    }
  }

  /** Whoever leads after a step led the term before, with a shorter or equal log, or wins it for the first time. */
  ghost predicate LedOrWins(c: Cluster, c': Cluster, i: nat) {
    && i < |c.nodes| == |c'.nodes|
    && (c'.nodes[i].role == Leader ==>
          var s, s' := c.nodes[i], c'.nodes[i];
          (s.role == Leader && s.term == s'.term && s.log <= s'.log) || !Won(c.hist, s'.term, i))
  }

  lemma ElectionLeads(c: Cluster, a: Action, i: nat)
    requires Base(c) && Enabled(c, a) && i < |c.nodes| && (a.Elect? || a.HandleVote? || a.RecvVote?)
    ensures LedOrWins(c, Do(c, a), i)
  {
    hide Shape, UpToDate, IndicesValid, AppendCallOk, VoteCallOk, LeaderOk, AdvertOk;
    assert CandidateOk(c, i);
    forall w | w in c.hist.wins
      ensures w.term == c.nodes[i].term + 1 ==> w.node != i
    {
      assert WinOk(c, w);
    }
  }

  lemma AppendLeads(c: Cluster, a: Action, i: nat)
    requires Sane(c) && Enabled(c, a) && i < |c.nodes|
    requires a.HandleAppend? || a.RecvAppend? || a.SendAppend? || a.Propose?
    ensures LedOrWins(c, Do(c, a), i)
  {
    hide Shape, Sync, Refuses, CommitFrom, Won;
  }

  lemma OtherLeads(c: Cluster, a: Action, i: nat)
    requires Sane(c) && Enabled(c, a) && i < |c.nodes| && !a.Elect? && !a.HandleVote? && !a.RecvVote?
    requires !a.HandleAppend? && !a.RecvAppend? && !a.SendAppend? && !a.Propose?
    ensures LedOrWins(c, Do(c, a), i)
  {
    hide Shape, Won;
  }

  lemma StepLeads(c: Cluster, a: Action, i: nat)
    requires Base(c) && Enabled(c, a) && i < |c.nodes|
    ensures LedOrWins(c, Do(c, a), i)
  {
    hide Base, Sane, LedOrWins;
    BaseIsSane(c);
    if a.Elect? || a.HandleVote? || a.RecvVote? {
      ElectionLeads(c, a, i);
    } else if a.HandleAppend? || a.RecvAppend? || a.SendAppend? || a.Propose? {
      AppendLeads(c, a, i);
    } else {
      OtherLeads(c, a, i);
    }
  }

  /** Leader Append-Only: a node that leads one term at two moments has only appended to its log in between. */
  lemma {:induction false} LeaderAppendOnly(run: Run, n: nat, j: nat, k: nat, i: nat)
    requires Valid(run, n) && j <= k < |run.states| && i < n
    requires i < |run.states[j].nodes| && i < |run.states[k].nodes|
    requires run.states[j].nodes[i].role == Leader && run.states[k].nodes[i].role == Leader
    requires run.states[j].nodes[i].term == run.states[k].nodes[i].term
    ensures run.states[j].nodes[i].log <= run.states[k].nodes[i].log
  {
    hide Base, Do, Enabled;
    if j < k {
      RunBase(run, n, k - 1);
      assert Follows(run, k - 1);
      StepLeads(run.states[k - 1], run.acts[k - 1], i);
      WonBefore(run, n, j, k - 1, i);
      LeaderAppendOnly(run, n, j, k - 1, i);
    }
  }

  /** A term once led stays won. */
  lemma {:induction false} WonBefore(run: Run, n: nat, j: nat, k: nat, i: nat)
    requires Valid(run, n) && j <= k < |run.states| && i < n
    requires i < |run.states[j].nodes| && run.states[j].nodes[i].role == Leader
    ensures Won(run.states[k].hist, run.states[j].nodes[i].term, i)
  {
    hide Do, Enabled;
    if j < k {
      hide Base;
      WonBefore(run, n, j, k - 1, i);
      RunBase(run, n, k - 1);
      assert Follows(run, k - 1);
      WinsStay(run.states[k - 1], run.acts[k - 1]);
    } else {
      RunBase(run, n, j);
      assert LeaderOk(run.states[j], i);
    }
  }

  // ----------------------------------------------------------- votes that were cast

  ghost predicate CastBy(h: History, i: nat, term: nat, cand: int) {
    exists b :: b in h.ballots && b.voter == i && b.term == term && b.cand == cand
  }

  /** A vote a node remembers for its term was cast by it in that term. */
  ghost predicate Voted(c: Cluster) {
    forall i :: 0 <= i < |c.nodes| && c.nodes[i].votedFor != NOBODY ==>
      CastBy(c.hist, i, c.nodes[i].term, c.nodes[i].votedFor)
  }

  /** A step keeps node j's vote and term, or casts the vote. */
  ghost predicate KeepsOrCasts(c: Cluster, c': Cluster) {
    && |c'.nodes| == |c.nodes| && c.hist.ballots <= c'.hist.ballots
    && forall j :: 0 <= j < |c.nodes| && c'.nodes[j].votedFor != NOBODY ==>
         || (c'.nodes[j].votedFor == c.nodes[j].votedFor && c'.nodes[j].term == c.nodes[j].term)
         || CastBy(c'.hist, j, c'.nodes[j].term, c'.nodes[j].votedFor)
  }

  lemma ElectVotes(c: Cluster, i: nat)
    requires Sane(c) && Enabled(c, Elect(i))
    ensures KeepsOrCasts(c, Do(c, Elect(i)))
  {
    hide Shape, UpToDate, IndicesValid;
    var c' := Do(c, Elect(i));
    assert Ballot(c'.nodes[i].term, i, i, c'.nodes[i].log) in c'.hist.ballots;
  }

  lemma HandleVoteVotes(c: Cluster, k: VoteCall)
    requires Sane(c) && Enabled(c, HandleVote(k))
    ensures KeepsOrCasts(c, Do(c, HandleVote(k)))
  {
    hide Shape, UpToDate, IndicesValid;
    var c' := Do(c, HandleVote(k));
    var s := c'.nodes[k.peer];
    assert s.votedFor != NOBODY && (s.votedFor != c.nodes[k.peer].votedFor || s.term != c.nodes[k.peer].term) ==>
      Ballot(s.term, k.peer, k.cand, s.log) in c'.hist.ballots;
  }

  lemma AppendVotes(c: Cluster, a: Action)
    requires Sane(c) && Enabled(c, a) && (a.HandleAppend? || a.RecvAppend? || a.SendAppend? || a.Propose?)
    ensures KeepsOrCasts(c, Do(c, a))
  {
    hide Shape, Sync, Refuses, CommitFrom, CastBy;
  }

  lemma OtherVotes(c: Cluster, a: Action)
    requires Sane(c) && Enabled(c, a) && !a.Elect? && !a.HandleVote?
    requires !a.HandleAppend? && !a.RecvAppend? && !a.SendAppend? && !a.Propose?
    ensures KeepsOrCasts(c, Do(c, a))
  {
    hide Shape, CastBy;
    if a.Restart? {
      RestartKeepsDurable(c.nodes[a.i]);
    }
  }

  lemma StepVoted(c: Cluster, a: Action)
    requires Sane(c) && Enabled(c, a) && Voted(c)
    ensures Voted(Do(c, a))
  {
    hide Sane, Do;
    match a
    case Elect(i) => ElectVotes(c, i);
    case HandleVote(k) => HandleVoteVotes(c, k);
    case HandleAppend(_) => AppendVotes(c, a);
    case RecvAppend(_) => AppendVotes(c, a);
    case SendAppend(_, _) => AppendVotes(c, a);
    case Propose(_, _) => AppendVotes(c, a);
    case _ => OtherVotes(c, a);
  }

  lemma {:induction false} RunVoted(run: Run, n: nat, k: nat)
    requires Valid(run, n) && k < |run.states|
    ensures Voted(run.states[k])
  {
    hide Do, Enabled, Sane, CastBy;
    if k > 0 {
      RunVoted(run, n, k - 1);
      assert Follows(run, k - 1);
      StepVoted(run.states[k - 1], run.acts[k - 1]);
    }
  }

  // ------------------------------------------- in every run with one winner per term

  /** Two nodes whose logs have the same term at an index have the same log up to it. */
  lemma LogMatchingInRun(run: Run, n: nat, k: nat, i: nat, j: nat, x: int)
    requires Valid(run, n) && k < |run.states| && OneWinner(run.states[k].hist) && i < n && j < n
    requires i < |run.states[k].nodes| && j < |run.states[k].nodes|
    requires var a, b := run.states[k].nodes[i].log, run.states[k].nodes[j].log;
      0 <= x < |a| && x < |b| && a[x].term == b[x].term
    ensures run.states[k].nodes[i].log[..x + 1] == run.states[k].nodes[j].log[..x + 1]
  {
    hide Base, Matches;
    RunMatched(run, n, k);
    var c := run.states[k];
    LogMatching(c.nodes[i].log, c.nodes[j].log, c.hist.termLogs, x);
  }

  /** The same holds between a node and the entries of a call that is still in flight. */
  lemma CallMatchesLog(run: Run, n: nat, k: nat, i: nat, call: AppendCall, x: int)
    requires Valid(run, n) && k < |run.states| && OneWinner(run.states[k].hist) && i < n
    requires i < |run.states[k].nodes| && call in run.states[k].appends
    requires var log, a := run.states[k].nodes[i].log, call.args;
      a.prev < x <= EndOf(a) && 0 <= x < |log| && a.entries[x - a.prev - 1].term == log[x].term
    ensures var log, a := run.states[k].nodes[i].log, call.args;
      && 0 <= a.prev && TermAt(log, a.prev) == a.prevTerm
      && log[a.prev + 1..x + 1] == a.entries[..x - a.prev]
  {
    hide Base, Matches, OwnsLog, Shape;
    RunMatched(run, n, k);
    var c := run.states[k];
    var log, a := c.nodes[i].log, call.args;
    assert CallMatched(c.hist, a);
    var w :| w in c.hist.wins && w.term == a.term;
    assert WinMatched(c.hist.termLogs, w);
    var whole := c.hist.termLogs[a.term];
    assert a.entries[x - a.prev - 1] == whole[x];
    LogMatching(log, whole, c.hist.termLogs, x);
    SliceAgrees(log, whole, a, x);
  }

  /** And between two calls in flight: where both carry an entry of one term, they agree on all they share up to it. */
  lemma CallsMatch(run: Run, n: nat, k: nat, a: AppendCall, b: AppendCall, x: int, y: int)
    requires Valid(run, n) && k < |run.states| && OneWinner(run.states[k].hist)
    requires a in run.states[k].appends && b in run.states[k].appends
    requires a.args.prev < x <= EndOf(a.args) && b.args.prev < x <= EndOf(b.args)
    requires a.args.entries[x - a.args.prev - 1].term == b.args.entries[x - b.args.prev - 1].term
    requires a.args.prev <= y <= x && b.args.prev < y
    ensures a.args.prev < y ==> a.args.entries[y - a.args.prev - 1] == b.args.entries[y - b.args.prev - 1]
    ensures a.args.prev == y ==> a.args.prevTerm == b.args.entries[y - b.args.prev - 1].term
  {
    hide Base, Matched, Matches, Agree;
    RunMatched(run, n, k);
    var tl := run.states[k].hist.termLogs;
    CallEntry(run.states[k], a, x);
    CallEntry(run.states[k], b, x);
    LogMatching(tl[a.args.term], tl[b.args.term], tl, x);
    CallEntry(run.states[k], a, y);
    CallEntry(run.states[k], b, y);
    AgreeAt(tl[a.args.term], tl[b.args.term], x, y);
  }

  /** A call's entries are its term's log at their own indices. */
  lemma CallEntry(c: Cluster, k: AppendCall, x: int)
    requires Matched(c) && k in c.appends && k.args.prev <= x <= EndOf(k.args)
    ensures k.args.term in c.hist.termLogs && Matches(c.hist.termLogs[k.args.term], c.hist.termLogs)
    ensures 0 <= x < |c.hist.termLogs[k.args.term]|
    ensures k.args.prev < x ==> k.args.entries[x - k.args.prev - 1] == c.hist.termLogs[k.args.term][x]
    ensures k.args.prev == x ==> k.args.prevTerm == c.hist.termLogs[k.args.term][x].term
  {
    hide MatchesAt, Shape, OwnsLog;
    assert CallMatched(c.hist, k.args);
    var w :| w in c.hist.wins && w.term == k.args.term;
    assert WinMatched(c.hist.termLogs, w);
    var whole, prev := c.hist.termLogs[w.term], k.args.prev;
    if prev < x {
      assert whole[prev + 1..EndOf(k.args) + 1][x - prev - 1] == whole[x];
    }
  }

  lemma SliceAgrees(log: Log, whole: Log, a: AppendArgs, x: int)
    requires Agree(log, whole, x) && 0 <= a.prev < x <= EndOf(a) < |whole|
    requires a.prevTerm == TermAt(whole, a.prev) && a.entries == whole[a.prev + 1..EndOf(a) + 1]
    ensures TermAt(log, a.prev) == a.prevTerm
    ensures log[a.prev + 1..x + 1] == a.entries[..x - a.prev]
  {
    AgreeAt(log, whole, x, a.prev);
    assert log[a.prev + 1..x + 1] == log[..x + 1][a.prev + 1..];
    assert a.entries[..x - a.prev] == whole[..x + 1][a.prev + 1..];
  }

  // -------------------------------------------------------- in every orderly run

  /** An entry committed in a term is in the log of every node that wins a later term. */
  lemma LeaderCompleteness(run: Run, n: nat, k: nat, cm: Commit, w: Win)
    requires Valid(run, n) && Orderly(run) && k < |run.states|
    requires cm in run.states[k].hist.commits && w in run.states[k].hist.wins && w.term > cm.term
    ensures |cm.prefix| == cm.index + 1 && cm.prefix <= w.log
  {
    hide Base, Fair, Matched;
    RunSafe(run, n, k);
    CommitIsOk(run.states[k], cm);
    WinnersComplete(run.states[k], cm, w);
  }

  /** What a leader counts as matched, the follower has, for as long as it stays in that term. */
  lemma AcknowledgementSound(run: Run, n: nat, k: nat, i: nat, p: nat, N: int)
    requires Valid(run, n) && Orderly(run) && k < |run.states| && i < n && p < n && i != p
    requires |run.states[k].nodes| == n && run.states[k].nodes[i].role == Leader
    requires p < |run.states[k].nodes[i].matchIndex| && 1 <= N <= run.states[k].nodes[i].matchIndex[p]
    requires run.states[k].nodes[p].term == run.states[k].nodes[i].term
    ensures Agree(run.states[k].nodes[p].log, run.states[k].nodes[i].log, N)
  {
    hide Base, Fair, Matched, Agree, WinKeeps, CommitOk, CallKept;
    RunSafe(run, n, k);
    var c := run.states[k];
    var v := LeaderOwns(c, i);
    assert TallyOk(c, i);
    assert Excused(c.nodes[p].log, c.hist, v.term, N, v.term);
  }

  /** Every node's commit index lies inside its log. */
  lemma CommitWithinLog(run: Run, n: nat, k: nat, i: nat)
    requires Valid(run, n) && Orderly(run) && k < |run.states| && i < n && i < |run.states[k].nodes|
    ensures 0 <= run.states[k].nodes[i].commitIndex < |run.states[k].nodes[i].log|
  {
    hide Fair, Matched, Kept, Shape;
    RunSafe(run, n, k);
    NodeInRun(run, n, k, i);
    if run.states[k].nodes[i].commitIndex > 0 {
      var cm := NodeCommitted(run.states[k], i);
    }
  }

  /** A follower that accepts a batch commits nothing past the end of the batch. */
  lemma FollowerCommitBound(run: Run, n: nat, k: nat, call: AppendCall)
    requires Valid(run, n) && Orderly(run) && k < |run.acts| && run.acts[k] == HandleAppend(call)
    requires call.peer < |run.states[k].nodes| && call.peer < |run.states[k + 1].nodes|
    requires run.states[k + 1].nodes[call.peer].commitIndex > run.states[k].nodes[call.peer].commitIndex
    ensures run.states[k + 1].nodes[call.peer].commitIndex <= EndOf(call.args)
  {
    hide Base, Fair, Matched, Sync;
    RunSafe(run, n, k);
    assert Follows(run, k);
    assert CallKept(run.states[k].hist, call);
  }

  ghost predicate CommitRises(c: Cluster, c': Cluster, i: nat) {
    i < |c.nodes| == |c'.nodes| && c.nodes[i].commitIndex <= c'.nodes[i].commitIndex
  }

  lemma AppendsRaiseCommit(c: Cluster, a: Action, i: nat)
    requires Safe(c) && Enabled(c, a) && i < |c.nodes| && Safe(Do(c, a))
    requires a.SendAppend? || a.HandleAppend? || a.RecvAppend? || a.Propose?
    ensures CommitRises(c, Do(c, a), i)
  {
    hide Fair, Matched, Kept, Shape, AppendCallOk, VoteCallOk, CandidateOk, LeaderOk, WinOk, AdvertOk, Sync,
         Refuses, ConflictOf, Commits;
    if a.HandleAppend? && a.append.peer == i && Accepts(c.nodes[i], a.append.args) && c.nodes[i].commitIndex > 0 {
      AcceptedCommitHeld(c, a.append);
    }
  }

  lemma OthersRaiseCommit(c: Cluster, a: Action, i: nat)
    requires Sane(c) && Enabled(c, a) && i < |c.nodes|
    requires !a.SendAppend? && !a.HandleAppend? && !a.RecvAppend? && !a.Propose? && !(a.Restart? && a.i == i)
    ensures CommitRises(c, Do(c, a), i)
  {
    hide NodeOk, UpToDate;
  }

  /** Outside a restart, no step lowers a commit index. */
  lemma StepRaisesCommit(c: Cluster, a: Action, i: nat)
    requires Safe(c) && Enabled(c, a) && i < |c.nodes| && Safe(Do(c, a))
    requires !(a.Restart? && a.i == i)
    ensures CommitRises(c, Do(c, a), i)
  {
    hide Base, Fair, Matched, Kept, CommitRises;
    BaseIsSane(c);
    if a.SendAppend? || a.HandleAppend? || a.RecvAppend? || a.Propose? {
      AppendsRaiseCommit(c, a, i);
    } else {
      OthersRaiseCommit(c, a, i);
    }
  }

  lemma AcceptedCommitHeld(c: Cluster, k: AppendCall)
    requires Safe(c) && Enabled(c, HandleAppend(k)) && Safe(DoHandleAppend(c, k))
    requires Accepts(c.nodes[k.peer], k.args) && c.nodes[k.peer].commitIndex > 0
    ensures c.nodes[k.peer].commitIndex < |DoHandleAppend(c, k).nodes[k.peer].log|
  {
    hide Fair, Matched, Shape, AppendCallOk, VoteCallOk, CandidateOk, LeaderOk, WinOk, AdvertOk, Sync, Keeps,
         WinKeeps, CommitOk, TallyOk, CallKept, AckOk;
    var p := k.peer;
    var s := c.nodes[p];
    var c' := DoHandleAppend(c, k);
    assert Justified(c.hist, p, s.commitIndex, s.term);
    var cm, t: nat :| cm in c.hist.commits && cm.term <= t <= s.term && s.commitIndex <= cm.index
                      && s.commitIndex <= AckOf(c.hist, t, p);
    CommitIsOk(c', cm);
    CommittedIsHeld(c', cm, t, p, s.commitIndex);
  }

  /** Within one instance the commit index never falls. */
  lemma {:induction false} CommitNeverFalls(run: Run, n: nat, j: nat, k: nat, i: nat)
    requires Valid(run, n) && Orderly(run) && j <= k < |run.states| && i < n
    requires forall x :: j <= x < k ==> !(run.acts[x].Restart? && run.acts[x].i == i)
    ensures i < |run.states[j].nodes| && i < |run.states[k].nodes|
    ensures run.states[j].nodes[i].commitIndex <= run.states[k].nodes[i].commitIndex
  {
    hide Base, Fair, Matched, Kept, Do, Enabled, Orderly;
    RunSafe(run, n, k);
    if j < k {
      CommitNeverFalls(run, n, j, k - 1, i);
      RunSafe(run, n, k - 1);
      assert Follows(run, k - 1);
      StepRaisesCommit(run.states[k - 1], run.acts[k - 1], i);
    }
  }
}
