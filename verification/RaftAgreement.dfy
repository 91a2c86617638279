/**
 No orderly run of two nodes or more is stuck: whatever was lost, whoever crashed
 and however the logs differ, it has an orderly continuation in which all nodes
 end with one log and a new command is committed and applied by each of them.
 */
module RaftAgreement {
  import opened RaftLog
  import opened RaftNode
  import opened RaftCluster
  import opened RaftShape
  import opened RaftElection
  import opened RaftMatching
  import opened RaftSafety
  import opened RaftSteps
  import opened RaftTheorems
  import opened RaftBacktrack
  import opened RaftApply
  import opened RaftAnswers
  import opened RaftShipping
  import opened RaftWitness

  // -------------------------------------------------------------- going on

  ghost predicate Grown(run: Run, run': Run) {
    run.states <= run'.states && run.acts <= run'.acts
  }

  /** An orderly run of n nodes, at least two. */
  ghost predicate Good(run: Run, n: nat) {
    Valid(run, n) && Orderly(run) && n > 1
  }

  ghost predicate Sized(c: Cluster, n: nat) {
    |c.nodes| == |c.epochs| == n
  }

  lemma GoodSized(run: Run, n: nat)
    requires Good(run, n)
    ensures Sized(Last(run), n) && |run.states| == |run.acts| + 1 && Sane(Last(run))
  {
    hide Base, Orderly;
    RunBase(run, n, |run.acts|);
    BaseIsSane(Last(run));
  }

  /** One more orderly step. */
  lemma Take(run: Run, n: nat, a: Action) returns (run': Run)
    requires Good(run, n) && Sized(Last(run), n) && Enabled(Last(run), a)
    requires TimelyVote(Last(run), a) && TimelyBeat(Last(run), a) && InOrderAppend(Last(run), a)
    ensures Good(run', n) && Sized(Last(run'), n) && Grown(run, run')
    ensures Sane(Last(run)) && Last(run') == Do(Last(run), a)
    ensures |run.states| == |run.acts| + 1 && |run'.states| == |run'.acts| + 1 == |run.states| + 1
    ensures run'.acts[|run.acts|] == a
    ensures run'.states[|run.acts|] == Last(run) && run'.states[|run.acts| + 1] == Last(run')
  {
    hide TimelyVotes, TimelyHeartbeats, InOrderAppends, TimelyVote, TimelyBeat, InOrderAppend, Do, Enabled, Sane;
    GoodSized(run, n);
    run' := Step(run, n, a);
    GoodSized(run', n);
  }

  // ------------------------------------------------------------ the best log

  ghost predicate Best(c: Cluster, i: nat) {
    && i < |c.nodes| && (forall j :: 0 <= j < |c.nodes| ==> c.nodes[j].log != [])
    && (forall j :: 0 <= j < |c.nodes| ==> !Ahead(c.nodes[j].log, c.nodes[i].log))
  }

  /** Some node is behind nobody. */
  lemma {:induction false} SomeBest(nodes: seq<Node>) returns (i: nat)
    requires nodes != [] && forall j :: 0 <= j < |nodes| ==> nodes[j].log != [] && NonDecreasing(nodes[j].log)
    ensures i < |nodes| && forall j :: 0 <= j < |nodes| ==> !Ahead(nodes[j].log, nodes[i].log)
  {
    hide Ahead;
    var last := |nodes| - 1;
    AheadIsOrder(nodes[last].log, nodes[last].log, nodes[last].log);
    if last == 0 {
      i := 0;
    } else {
      i := SomeBest(nodes[..last]);
      if Ahead(nodes[last].log, nodes[i].log) {
        forall j | 0 <= j < last
          ensures !Ahead(nodes[j].log, nodes[last].log)
        {
          assert !Ahead(nodes[..last][j].log, nodes[i].log);
          AheadIsOrder(nodes[j].log, nodes[last].log, nodes[i].log);
        }
        i := last;
      }
    }
  }

  lemma {:induction false} Highest(nodes: seq<Node>) returns (top: nat)
    ensures forall j :: 0 <= j < |nodes| ==> nodes[j].term <= top
  {
    if nodes == [] {
      top := 0;
    } else {
      var last := |nodes| - 1;
      top := Highest(nodes[..last]);
      assert forall j :: 0 <= j < last ==> nodes[..last][j] == nodes[j];
      if nodes[last].term > top {
        top := nodes[last].term;
      }
    }
  }

  // ------------------------------------------------------------- an election

  ghost predicate SameLogs(c: Cluster, c': Cluster) {
    |c.nodes| == |c'.nodes| && forall j :: 0 <= j < |c.nodes| ==> c'.nodes[j].log == c.nodes[j].log
  }

  function Request(c: Cluster, i: nat, p: nat): VoteCall
    requires i < |c.nodes| && i < |c.epochs| && c.nodes[i].log != []
  {
    var s := c.nodes[i];
    VoteCall(i, c.epochs[i], p, s.term, |s.log| - 1, LastTerm(s.log), None)
  }

  /** Node i stands in the highest term with v votes; the nodes from p on have been asked and are behind it. */
  ghost predicate Runs(c: Cluster, n: nat, i: nat, v: nat, p: nat) {
    && Sized(c, n) && i < n && c.nodes[i].role == Candidate && c.nodes[i].voteCount == v && c.nodes[i].log != []
    && (forall q :: 0 <= q < n ==> c.nodes[q].term <= c.nodes[i].term)
    && (forall q: nat :: p <= q < n && q != i ==>
          c.nodes[q].term < c.nodes[i].term && Request(c, i, q) in c.votes)
  }

  lemma OnlyMoves(c: Cluster, a: Action, i: nat)
    requires Sane(c) && Enabled(c, a)
    requires a == Elect(i) || (a.HandleVote? && a.vote.peer == i) || (a.RecvVote? && a.vote.cand == i)
    ensures |Do(c, a).nodes| == |c.nodes| && Do(c, a).epochs == c.epochs
    ensures forall j :: 0 <= j < |c.nodes| && j != i ==> Do(c, a).nodes[j] == c.nodes[j]
  {
    hide NodeOk, StartElection, RequestVote, OnVoteReply;
  }

  lemma Stands(run: Run, n: nat, i: nat) returns (run': Run)
    requires Good(run, n) && i < n
    ensures Good(run', n) && Grown(run, run') && Sized(Last(run), n) && Sized(Last(run'), n)
    ensures SameLogs(Last(run), Last(run'))
    ensures Last(run').nodes[i].term == Last(run).nodes[i].term + 1
    ensures forall j :: 0 <= j < n && j != i ==> Last(run').nodes[j] == Last(run).nodes[j]
    ensures (forall j :: 0 <= j < n && j != i ==> Last(run).nodes[j].term <= Last(run).nodes[i].term) ==>
      Runs(Last(run'), n, i, 1, 0)
  {
    hide Valid, Orderly, Do, Sane;
    GoodSized(run, n);
    run' := Take(run, n, Elect(i));
    OnlyMoves(Last(run), Elect(i), i);
    ElectionAsksAll(run', n, |run.acts|, i);
    var c, c' := Last(run), Last(run');
    forall q: nat | q < n && q != i
      ensures Request(c', i, q) in c'.votes
    {
      assert Request(c', i, q) == Asking(c, i, q);
    }
  }

  /** It stands again until its term is the highest. */
  lemma {:induction false} Campaign(run: Run, n: nat, i: nat, top: nat) returns (run': Run)
    requires Good(run, n) && Sized(Last(run), n) && i < n
    requires forall j :: 0 <= j < n && j != i ==> Last(run).nodes[j].term <= top
    ensures Good(run', n) && Grown(run, run') && SameLogs(Last(run), Last(run')) && Runs(Last(run'), n, i, 1, 0)
    decreases top - Last(run).nodes[i].term
  {
    hide Good, Runs;
    run' := Stands(run, n, i);
    if Last(run).nodes[i].term < top {
      run' := Campaign(run', n, i, top);
    }
  }

  /** Its log is behind nobody's, and it advertised it. */
  lemma Advertised(run: Run, n: nat, i: nat)
    requires Good(run, n) && i < n && Sized(Last(run), n) && Last(run).nodes[i].role == Candidate
    ensures var c := Last(run);
      Slot(c.nodes[i].term, i) in c.hist.adverts && c.hist.adverts[Slot(c.nodes[i].term, i)] == c.nodes[i].log
  {
    hide Orderly, Shape, NodeOk, VoteCallOk, AdvertOk, WinOk, AppendCallOk;
    RunBase(run, n, |run.acts|);
    assert CandidateOk(Last(run), i);
  }

  function Grant(k: VoteCall): VoteCall {
    k.(reply := Some(VoteReply(k.term, true)))
  }

  /** The next node grants its vote. */
  lemma GivesVote(run: Run, n: nat, i: nat, v: nat, p: nat) returns (run': Run)
    requires Good(run, n) && Runs(Last(run), n, i, v, p) && Best(Last(run), i) && p < n && p != i
    ensures Good(run', n) && Grown(run, run') && SameLogs(Last(run), Last(run')) && Runs(Last(run'), n, i, v, p + 1)
    ensures Last(run').nodes[i] == Last(run).nodes[i] && Last(run').epochs == Last(run).epochs
    ensures Grant(Request(Last(run'), i, p)) in Last(run').votes
  {
    hide Valid, Orderly, Do, Sane, Ahead;
    var c, k := Last(run), Request(Last(run), i, p);
    Advertised(run, n, i);
    run' := Take(run, n, HandleVote(k));
    OnlyMoves(c, HandleVote(k), p);
    VoteAnswer(run', n, |run.acts|, k);
  }

  /** The candidate counts it. */
  lemma CountsVote(run: Run, n: nat, i: nat, v: nat, p: nat) returns (run': Run)
    requires Good(run, n) && Runs(Last(run), n, i, v, p + 1) && p < n && p != i
    requires Grant(Request(Last(run), i, p)) in Last(run).votes
    ensures Good(run', n) && Grown(run, run') && SameLogs(Last(run), Last(run')) && Sized(Last(run'), n)
    ensures 2 * (v + 1) > n ==> Last(run').nodes[i].role == Leader && Last(run).nodes[i].role != Leader
    ensures 2 * (v + 1) <= n ==> Runs(Last(run'), n, i, v + 1, p + 1)
    ensures forall q :: 0 <= q < n ==> Last(run').nodes[q].term <= Last(run').nodes[i].term
  {
    hide Valid, Orderly, Do, Sane;
    var c, k := Last(run), Grant(Request(Last(run), i, p));
    run' := Take(run, n, RecvVote(k));
    OnlyMoves(c, RecvVote(k), i);
    CountAnswer(run', n, |run.acts|, k);
    CountKeepsLog(c, k);
  }

  lemma CountKeepsLog(c: Cluster, k: VoteCall)
    requires Sane(c) && Enabled(c, RecvVote(k))
    ensures k.cand < |Do(c, RecvVote(k)).nodes| && Do(c, RecvVote(k)).nodes[k.cand].log == c.nodes[k.cand].log
  {
    hide NodeOk;
  }

  /** Node i leads the highest term; the calls to the others start at or before the end of the given log. */
  ghost predicate Leads(c: Cluster, n: nat, i: nat, end: int) {
    && Sized(c, n) && i < n && c.nodes[i].role == Leader && |c.nodes[i].nextIndex| == n
    && (forall q :: 0 <= q < n ==> c.nodes[q].term <= c.nodes[i].term)
    && (forall q :: 0 <= q < n && q != i ==> c.nodes[i].nextIndex[q] <= end)
  }

  lemma CountWins(run: Run, n: nat, i: nat, v: nat, p: nat) returns (run': Run)
    requires Good(run, n) && Runs(Last(run), n, i, v, p + 1) && p < n && p != i && 2 * (v + 1) > n
    requires Grant(Request(Last(run), i, p)) in Last(run).votes
    ensures Good(run', n) && Grown(run, run') && SameLogs(Last(run), Last(run'))
    ensures Leads(Last(run'), n, i, |Last(run').nodes[i].log|)
  {
    hide Valid, Orderly, Do, Sane, Request, Grant;
    run' := CountsVote(run, n, i, v, p);
    GoodSized(run, n);
    GoodSized(run', n);
    NewLeader(run', n, i);
  }

  lemma NewLeader(run: Run, n: nat, i: nat)
    requires Good(run, n) && Sized(Last(run), n) && i < n && Last(run).nodes[i].role == Leader
    ensures |Last(run).nodes[i].nextIndex| == n
    ensures forall q :: 0 <= q < n ==> 1 <= Last(run).nodes[i].nextIndex[q] <= |Last(run).nodes[i].log|
  {
    hide Base, Orderly, Durable, WellShaped;
    LeaderIndicesValid(run, n, |run.acts|, i);
  }

  /** It wins: it has all votes by the time it has heard from all. */
  lemma {:induction false} Wins(run: Run, n: nat, i: nat, v: nat, p: nat) returns (run': Run)
    requires Good(run, n) && Runs(Last(run), n, i, v, p) && Best(Last(run), i) && p <= n
    requires v == (if i < p then p else p + 1) && 2 * v <= n
    ensures Good(run', n) && Grown(run, run') && SameLogs(Last(run), Last(run'))
    ensures Leads(Last(run'), n, i, |Last(run').nodes[i].log|)
    decreases n - p
  {
    hide Good, Request, Grant, Ahead;
    if p == i {
      run' := Wins(run, n, i, v, p + 1);
    } else {
      run' := GivesVote(run, n, i, v, p);
      if 2 * (v + 1) > n {
        run' := CountWins(run', n, i, v, p);
      } else {
        run' := CountsVote(run', n, i, v, p);
        run' := Wins(run', n, i, v + 1, p + 1);
      }
    }
  }

  /** A node behind nobody can be elected, over logs as they are. */
  lemma CanLead(run: Run, n: nat) returns (run': Run, i: nat)
    requires Good(run, n)
    ensures Good(run', n) && Grown(run, run') && Sized(Last(run'), n) && i < n
    ensures Leads(Last(run'), n, i, |Last(run').nodes[i].log|)
  {
    hide Valid, Orderly, Ahead, Runs, Leads;
    GoodSized(run, n);
    LogsShaped(Last(run));
    i := SomeBest(Last(run).nodes);
    var top := Highest(Last(run).nodes);
    run' := Campaign(run, n, i, top);
    StillBest(Last(run), Last(run'), i);
    run' := Wins(run', n, i, 1, 0);
    GoodSized(run', n);
  }

  lemma LogsShaped(c: Cluster)
    requires Sane(c)
    ensures forall j :: 0 <= j < |c.nodes| ==> c.nodes[j].log != [] && NonDecreasing(c.nodes[j].log)
  {
    hide Durable, IndicesValid;
    assert forall j :: 0 <= j < |c.nodes| ==> NodeOk(c.nodes[j], |c.nodes|);
  }

  lemma StillBest(c: Cluster, c': Cluster, i: nat)
    requires Best(c, i) && SameLogs(c, c')
    ensures Best(c', i)
  {
    hide Ahead;
  }

  // ------------------------------------------------------------- replication

  /** Node i leads the highest term with log L, which ends in an entry of that term. */
  ghost predicate Leading(c: Cluster, n: nat, i: nat, L: Log) {
    && Sized(c, n) && i < n && L != [] && c.nodes[i].role == Leader && c.nodes[i].log == L
    && L[|L| - 1].term == c.nodes[i].term
    && (forall q :: 0 <= q < n ==> c.nodes[q].term <= c.nodes[i].term)
  }

  /** Nothing of the leader but its commit index and what it knows of p may differ. */
  ghost predicate OnlyAbout(c: Cluster, c': Cluster, i: nat, p: nat) {
    && |c.nodes| == |c'.nodes| && i < |c.nodes| && c'.epochs == c.epochs
    && (forall j :: 0 <= j < |c.nodes| && j != i && j != p ==> c'.nodes[j] == c.nodes[j])
    && |c.nodes[i].nextIndex| == |c'.nodes[i].nextIndex| && |c.nodes[i].matchIndex| == |c'.nodes[i].matchIndex|
    && (forall j :: 0 <= j < |c.nodes[i].nextIndex| && j != p ==> c'.nodes[i].nextIndex[j] == c.nodes[i].nextIndex[j])
    && (forall j :: 0 <= j < |c.nodes[i].matchIndex| && j != p ==>
          c'.nodes[i].matchIndex[j] == c.nodes[i].matchIndex[j])
  }

  lemma SendKeeps(c: Cluster, i: nat, p: nat)
    requires Sane(c) && Enabled(c, SendAppend(i, p))
    ensures Do(c, SendAppend(i, p)).nodes == c.nodes && Do(c, SendAppend(i, p)).epochs == c.epochs
    ensures Do(c, SendAppend(i, p)).hist == c.hist
  {
    hide Durable, WellShaped, BuildAppend;
    assert NodeOk(c.nodes[i], |c.nodes|);
    assert ClampNext(c.nodes[i], p) == c.nodes[i];
  }

  lemma HandleKeeps(c: Cluster, k: AppendCall)
    requires Sane(c) && Enabled(c, HandleAppend(k))
    ensures var c' := Do(c, HandleAppend(k));
      && |c'.nodes| == |c.nodes| && c'.epochs == c.epochs
      && forall j :: 0 <= j < |c.nodes| && j != k.peer ==> c'.nodes[j] == c.nodes[j]
  {
    hide NodeOk, AppendEntries;
  }

  lemma ReplyKeeps(c: Cluster, k: AppendCall)
    requires Sane(c) && Enabled(c, RecvAppend(k))
    ensures var c' := Do(c, RecvAppend(k));
      && |c'.nodes| == |c.nodes| && c'.epochs == c.epochs
      && forall j :: 0 <= j < |c.nodes| && j != k.from ==> c'.nodes[j] == c.nodes[j]
  {
    hide NodeOk, OnAppendReply;
  }

  /** The leader sends p all of its log past where it thinks p is. */
  lemma Sends(run: Run, n: nat, i: nat, p: nat, L: Log) returns (run': Run, k: AppendCall)
    requires Good(run, n) && Leading(Last(run), n, i, L) && p < n && p != i
    ensures Good(run', n) && Grown(run, run') && Sized(Last(run'), n)
    ensures Last(run').nodes == Last(run).nodes && Last(run').epochs == Last(run).epochs
    ensures p < |Last(run).nodes[i].nextIndex| && 1 <= Last(run).nodes[i].nextIndex[p] <= |L|
    ensures k == From(Last(run), i, p, Last(run).nodes[i].nextIndex[p] - 1) && k in Last(run').appends
  {
    hide Valid, Orderly, Do, Sane;
    GoodSized(run, n);
    NewLeader(run, n, i);
    LeaderSends(Last(run), i, p);
    run' := Take(run, n, SendAppend(i, p));
    SendKeeps(Last(run), i, p);
    k := From(Last(run), i, p, Last(run).nodes[i].nextIndex[p] - 1);
  }

  /** What p makes of it. */
  ghost predicate Handled(s: Node, s': Node, L: Log, a: AppendArgs, r: AppendReply) {
    && r.success == HasPrev(s, a) && r.term <= a.term && s'.term == a.term
    && (!r.success ==> s'.log == s.log)
    && (r.success ==>
          && s'.log == (if a.entries == [] then s.log else L)
          && s'.commitIndex == if a.commit > s.commitIndex then Min(a.commit, |s'.log| - 1) else s.commitIndex)
  }

  lemma Handles(run: Run, n: nat, i: nat, L: Log, k: AppendCall) returns (run': Run, r: AppendReply)
    requires Good(run, n) && Leading(Last(run), n, i, L) && k in Last(run).appends && k.peer < n && k.peer != i
    requires 0 <= k.args.prev < |L| && k == From(Last(run), i, k.peer, k.args.prev).(serial := k.serial)
    ensures Good(run', n) && Grown(run, run') && Leading(Last(run'), n, i, L)
    ensures OnlyAbout(Last(run), Last(run'), i, k.peer) && Last(run').nodes[i] == Last(run).nodes[i]
    ensures k.(reply := Some(r)) in Last(run').appends
    ensures Handled(Last(run).nodes[k.peer], Last(run').nodes[k.peer], L, k.args, r)
  {
    hide Valid, Orderly, Do, Sane;
    GoodSized(run, n);
    WholeSuffixIsInOrder(run, n, i, k.peer);
    run' := Take(run, n, HandleAppend(k));
    HandleKeeps(Last(run), k);
    BatchAnswer(run', n, |run.acts|, k);
    r :| Last(run').appends == Last(run).appends - {k} + {k.(reply := Some(r))}
      && r.success == (k.args.term >= Last(run).nodes[k.peer].term && HasPrev(Last(run).nodes[k.peer], k.args))
      && r.term == if r.success then k.args.term else Last(run).nodes[k.peer].term;
    if r.success {
      Adopts(run', n, i, L, k);
    }
  }

  lemma Adopts(run: Run, n: nat, i: nat, L: Log, k: AppendCall)
    requires Good(run, n) && |run.acts| > 0 && |run.states| == |run.acts| + 1
    requires run.acts[|run.acts| - 1] == HandleAppend(k)
    requires var c := run.states[|run.acts| - 1];
      && Leading(c, n, i, L) && k.peer < n && k.args.term >= c.nodes[k.peer].term && HasPrev(c.nodes[k.peer], k.args)
      && k.args.prev < |L| && k.args.prevTerm == L[k.args.prev].term && k.args.entries == L[k.args.prev + 1..]
    requires Sized(Last(run), n)
    ensures Last(run).nodes[k.peer].log ==
      if k.args.entries == [] then run.states[|run.acts| - 1].nodes[k.peer].log else L
  {
    hide Orderly, NodeOk;
    var x := |run.acts| - 1;
    OneWinnerSoFar(run, n, x);
    BatchAdopted(run, n, x, k);
    LogMatchingInRun(run, n, x, k.peer, i, k.args.prev);
    assert L == L[..k.args.prev + 1] + L[k.args.prev + 1..];
  }

  lemma OneWinnerSoFar(run: Run, n: nat, x: nat)
    requires Good(run, n) && x < |run.states|
    ensures OneWinner(run.states[x].hist)
  {
    hide OneWinner;
    ElectionSafety(run, n);
  }

  /** An acceptance of the whole log tells the leader that p has it all. */
  lemma HearsYes(run: Run, n: nat, i: nat, L: Log, k: AppendCall) returns (run': Run)
    requires Good(run, n) && Leading(Last(run), n, i, L) && k in Last(run).appends && k.peer < n && k.peer != i
    requires k.from == i && k.epoch == Last(run).epochs[i] && k.reply.Some? && k.reply.value.success
    requires k.reply.value.term <= k.args.term == Last(run).nodes[i].term && k.args.prev + |k.args.entries| == |L| - 1
    ensures Good(run', n) && Grown(run, run') && Leading(Last(run'), n, i, L)
    ensures OnlyAbout(Last(run), Last(run'), i, k.peer) && Last(run').nodes[k.peer] == Last(run).nodes[k.peer]
    ensures k.peer < |Last(run').nodes[i].matchIndex| && Last(run').nodes[i].matchIndex[k.peer] >= |L| - 1
  {
    hide Valid, Orderly, Do, Sane;
    run' := Take(run, n, RecvAppend(k));
    ReplyKeeps(Last(run), k);
    ReplyAnswer(run', n, |run.acts|, k);
  }

  /** A refusal makes it try further down. */
  lemma HearsNo(run: Run, n: nat, i: nat, L: Log, k: AppendCall) returns (run': Run)
    requires Good(run, n) && Leading(Last(run), n, i, L) && k in Last(run).appends && k.peer < n && k.peer != i
    requires k.from == i && k.epoch == Last(run).epochs[i] && k.reply.Some? && !k.reply.value.success
    requires k.reply.value.term <= k.args.term == Last(run).nodes[i].term
    ensures Good(run', n) && Grown(run, run') && Leading(Last(run'), n, i, L)
    ensures OnlyAbout(Last(run), Last(run'), i, k.peer) && Last(run').nodes[k.peer] == Last(run).nodes[k.peer]
    ensures k.peer < |Last(run').nodes[i].nextIndex| && 1 <= Last(run').nodes[i].nextIndex[k.peer] <= k.args.prev
  {
    hide Valid, Orderly, Do, Sane, AnsweredAt, BacksUpTo, Agree;
    run' := Take(run, n, RecvAppend(k));
    ReplyKeeps(Last(run), k);
    ReplyAnswer(run', n, |run.acts|, k);
    OneWinnerSoFar(run', n, |run.acts|);
    var j := BacktrackingExact(run', n, |run.acts|, k);
  }

  /** The nodes before p have the leader's log, and it knows; the others are still to be told of its last entry. */
  ghost predicate Told(c: Cluster, n: nat, i: nat, L: Log, p: nat) {
    && Leading(c, n, i, L) && |c.nodes[i].nextIndex| == |c.nodes[i].matchIndex| == n
    && (forall q :: p <= q < n && q != i ==> 1 <= c.nodes[i].nextIndex[q] < |L|)
    && (forall q :: 0 <= q < p && q < n && q != i ==> c.nodes[q].log == L && c.nodes[i].matchIndex[q] >= |L| - 1)
  }

  /** One attempt at p, and another one further down if it is refused: the retry loop of the leader. */
  lemma {:induction false} Tells(run: Run, n: nat, i: nat, L: Log, p: nat) returns (run': Run)
    requires Good(run, n) && Told(Last(run), n, i, L, p) && p < n && p != i
    ensures Good(run', n) && Grown(run, run') && Told(Last(run'), n, i, L, p + 1)
    decreases Last(run).nodes[i].nextIndex[p]
  {
    hide Good, HasPrev;
    var k: AppendCall, r: AppendReply;
    run', k := Sends(run, n, i, p, L);
    run', r := Handles(run', n, i, L, k);
    k := k.(reply := Some(r));
    if r.success {
      run' := HearsYes(run', n, i, L, k);
    } else {
      run' := HearsNo(run', n, i, L, k);
      run' := Tells(run', n, i, L, p);
    }
  }

  lemma {:induction false} TellsAll(run: Run, n: nat, i: nat, L: Log, p: nat) returns (run': Run)
    requires Good(run, n) && Told(Last(run), n, i, L, p) && p <= n
    ensures Good(run', n) && Grown(run, run') && Told(Last(run'), n, i, L, n)
    decreases n - p
  {
    hide Good;
    if p == n {
      run' := run;
    } else if p == i {
      run' := TellsAll(run, n, i, L, p + 1);
    } else {
      run' := Tells(run, n, i, L, p);
      run' := TellsAll(run', n, i, L, p + 1);
    }
  }

  /** Then it has committed all of it. */
  lemma AllTold(run: Run, n: nat, i: nat, L: Log)
    requires Good(run, n) && Told(Last(run), n, i, L, n)
    ensures Last(run).nodes[i].commitIndex >= |L| - 1
  {
    hide Valid, Orderly;
    GoodSized(run, n);
    NothingRipeWaits(run, n, |run.acts|, i);
    var s := Last(run).nodes[i];
    assert Having(s, i, |L| - 1) == Ids(n);
    assert Ripe(s, i, |L| - 1);
  }

  /** A new leader takes the command. */
  lemma Asked(run: Run, n: nat, i: nat, cmd: Command) returns (run': Run, L: Log)
    requires Good(run, n) && Sized(Last(run), n) && i < n && Leads(Last(run), n, i, |Last(run).nodes[i].log|)
    ensures Good(run', n) && Grown(run, run') && Told(Last(run'), n, i, L, 0)
    ensures L == Last(run).nodes[i].log + [Entry(Last(run).nodes[i].term, cmd)]
  {
    hide Valid, Orderly, Do, Sane;
    GoodSized(run, n);
    NewLeader(run, n, i);
    run' := Take(run, n, Action.Propose(i, cmd));
    CommandIsAppended(run', n, |run.acts|, i, cmd);
    CommandKeepsNext(Last(run), i, cmd);
    L := Last(run').nodes[i].log;
    GoodSized(run', n);
    Indexed(Last(run'), n, i);
    var c, c' := Last(run), Last(run');
    assert L[|L| - 1] == Entry(c.nodes[i].term, cmd);
    assert forall q :: 0 <= q < n && q != i ==> c'.nodes[q] == c.nodes[q];
    assert Leading(c', n, i, L);
    assert forall q :: 0 <= q < n && q != i ==> c'.nodes[i].nextIndex[q] == c.nodes[i].nextIndex[q];
    assert forall q :: 0 <= q < n && q != i ==> 1 <= c'.nodes[i].nextIndex[q] < |L|;
  }

  lemma CommandKeepsNext(c: Cluster, i: nat, cmd: Command)
    requires Sane(c) && Enabled(c, Action.Propose(i, cmd))
    ensures var s, s' := c.nodes[i], Do(c, Action.Propose(i, cmd)).nodes[i];
      && |s'.nextIndex| == |s.nextIndex|
      && forall q :: 0 <= q < |s.nextIndex| && q != i ==> s'.nextIndex[q] == s.nextIndex[q]
  {
    hide Durable, WellShaped;
    assert NodeOk(c.nodes[i], |c.nodes|);
  }

  lemma Indexed(c: Cluster, n: nat, i: nat)
    requires Sane(c) && Sized(c, n) && i < n && c.nodes[i].role == Leader
    ensures |c.nodes[i].nextIndex| == |c.nodes[i].matchIndex| == n
  {
    assert NodeOk(c.nodes[i], n);
  }

  // ------------------------------------------------- committing and applying

  /** All nodes have log L, and those before p have committed all of it. */
  ghost predicate Spread(c: Cluster, n: nat, i: nat, L: Log, p: nat) {
    && Leading(c, n, i, L) && c.nodes[i].commitIndex >= |L| - 1
    && (forall q :: 0 <= q < n ==> c.nodes[q].log == L)
    && (forall q :: 0 <= q < p && q < n ==> c.nodes[q].commitIndex >= |L| - 1)
  }

  /** The next call tells p how far the leader has committed. */
  lemma Spreads(run: Run, n: nat, i: nat, L: Log, p: nat) returns (run': Run)
    requires Good(run, n) && Spread(Last(run), n, i, L, p) && p < n && p != i
    ensures Good(run', n) && Grown(run, run') && Spread(Last(run'), n, i, L, p + 1)
  {
    hide Good;
    var k: AppendCall, r: AppendReply;
    run', k := Sends(run, n, i, p, L);
    assert HasPrev(Last(run').nodes[p], k.args);
    run', r := Handles(run', n, i, L, k);
  }

  lemma {:induction false} SpreadsAll(run: Run, n: nat, i: nat, L: Log, p: nat) returns (run': Run)
    requires Good(run, n) && Spread(Last(run), n, i, L, p) && p <= n
    ensures Good(run', n) && Grown(run, run') && Spread(Last(run'), n, i, L, n)
    decreases n - p
  {
    hide Good;
    if p == n {
      run' := run;
    } else if p == i {
      run' := SpreadsAll(run, n, i, L, p + 1);
    } else {
      run' := Spreads(run, n, i, L, p);
      run' := SpreadsAll(run', n, i, L, p + 1);
    }
  }

  /** All nodes have committed L, and those before p have applied all of it. */
  ghost predicate Applied(c: Cluster, n: nat, L: Log, p: nat) {
    && Sized(c, n) && L != []
    && (forall q :: 0 <= q < n ==> c.nodes[q].log == L && c.nodes[q].commitIndex >= |L| - 1)
    && (forall q :: 0 <= q < p && q < n ==> c.nodes[q].lastApplied >= |L| - 1)
  }

  lemma AppliesOne(run: Run, n: nat, L: Log, p: nat) returns (run': Run)
    requires Good(run, n) && Applied(Last(run), n, L, p) && p < n && Last(run).nodes[p].lastApplied < |L| - 1
    ensures Good(run', n) && Grown(run, run') && Applied(Last(run'), n, L, p)
    ensures Last(run').nodes[p].lastApplied == Last(run).nodes[p].lastApplied + 1
  {
    hide Valid, Orderly, Sane;
    GoodSized(run, n);
    NothingWithheld(run, n, |run.acts|, p);
    run' := Take(run, n, ApplyOne(p));
  }

  lemma {:induction false} AppliesAll(run: Run, n: nat, L: Log, p: nat) returns (run': Run)
    requires Good(run, n) && Applied(Last(run), n, L, p) && p <= n
    ensures Good(run', n) && Grown(run, run') && Applied(Last(run'), n, L, n)
    decreases n - p, if p < n then |L| - Last(run).nodes[p].lastApplied else 0
  {
    hide Good;
    if p == n {
      run' := run;
    } else if Last(run).nodes[p].lastApplied < |L| - 1 {
      run' := AppliesOne(run, n, L, p);
      run' := AppliesAll(run', n, L, p);
    } else {
      run' := AppliesAll(run, n, L, p + 1);
    }
  }

  // ----------------------------------------------------------------- theorem

  /** What instances applied in an orderly run is what leaders committed. */
  lemma {:induction false} RunApplied(run: Run, n: nat, k: nat)
    requires Valid(run, n) && Orderly(run) && k < |run.states|
    ensures Safe(run.states[k]) && |run.states[k].nodes| == n && AppliedOk(run.states[k])
  {
    hide Safe, Do, Enabled, Sane, AllBacked, OneWinner, TimelyVotes, TimelyHeartbeats, InOrderAppends;
    RunSafe(run, n, k);
    RunBase(run, n, k);
    if k == 0 {
      NothingApplied(n);
    } else {
      RunApplied(run, n, k - 1);
      assert Follows(run, k - 1);
      var c, a := run.states[k - 1], run.acts[k - 1];
      ElectionSafety(run, n);
      SafeGrows(c, a);
      StepCommitsStay(c, a);
      StepApplied(c, a);
    }
  }

  lemma NothingApplied(n: nat)
    ensures AppliedOk(Init(n))
  {
  }

  lemma SafeGrows(c: Cluster, a: Action)
    requires Safe(c) && Sane(c) && Enabled(c, a) && OneWinner(Do(c, a).hist)
    ensures Grows(c.hist.termLogs, Do(c, a).hist.termLogs)
  {
    hide Base, Matched, Do, Enabled, Sane, Fair, Kept;
    StepGrows(c, a);
  }

  /** Everything is agreed: one log, all of it committed and applied by every node. */
  ghost predicate AllAgree(c: Cluster, n: nat, L: Log) {
    && Sized(c, n) && L != []
    && forall q: nat :: q < n ==>
         && c.nodes[q].log == L && c.nodes[q].commitIndex == |L| - 1 && c.nodes[q].lastApplied >= |L| - 1
         && ApplyMsg(|L| - 1, L[|L| - 1].cmd) in AppliedBy(c.hist, Instance(q, c.epochs[q]))
  }

  lemma NodeAgrees(run: Run, n: nat, L: Log, q: nat)
    requires Good(run, n) && Applied(Last(run), n, L, n) && q < n && |L| > 1
    ensures var c := Last(run);
      c.nodes[q].commitIndex == |L| - 1
      && ApplyMsg(|L| - 1, L[|L| - 1].cmd) in AppliedBy(c.hist, Instance(q, c.epochs[q]))
  {
    hide Valid, Orderly, Backed, Base, Matched, Kept, Fair, CommitOk;
    GoodSized(run, n);
    var c, N := Last(run), |L| - 1;
    CommitWithinLog(run, n, |run.acts|, q);
    RunApplied(run, n, |run.acts|);
    RunNumbered(run, n, |run.acts|);
    var msgs := AppliedBy(c.hist, Instance(q, c.epochs[q]));
    assert Numbered(c, Instance(q, c.epochs[q]));
    assert AllBacked(c.hist, n, msgs);
    var m := msgs[N - 1];
    var cm := NodeCommitted(c, q);
    CommitIsOk(c, cm);
    EntryIsBacked(c.hist, n, L, cm, N, N);
    BackedAgree(c, m, ApplyMsg(N, L[N].cmd));
    assert m in msgs;
  }

  lemma {:induction false} RunNumbered(run: Run, n: nat, k: nat)
    requires Valid(run, n) && k < |run.states|
    ensures AllNumbered(run.states[k])
  {
    hide Base, Do, Enabled, Sane, Numbered;
    if k == 0 {
      NoneNumbered(n);
    } else {
      RunNumbered(run, n, k - 1);
      RunBase(run, n, k - 1);
      assert Follows(run, k - 1);
      StepNumbered(run.states[k - 1], run.acts[k - 1]);
    }
  }

  lemma NoneNumbered(n: nat)
    ensures AllNumbered(Init(n))
  {
  }

  /**
   Every orderly run of two nodes or more can go on to full agreement on a new
   command, whatever has happened in it.
   */
  lemma EveryRunCanAgree(run: Run, n: nat, cmd: Command) returns (run': Run, L: Log)
    requires Valid(run, n) && Orderly(run) && n > 1
    ensures Valid(run', n) && Orderly(run') && Grown(run, run')
    ensures AllAgree(Last(run'), n, L) && L[|L| - 1].cmd == cmd
  {
    hide Valid, Orderly, Told, Applied;
    var i: nat;
    run', i := CanLead(run, n);
    GoodSized(run', n);
    run', L := Asked(run', n, i, cmd);
    run' := TellsAll(run', n, i, L, 0);
    AllTold(run', n, i, L);
    ToldSpread(Last(run'), n, i, L);
    run' := SpreadsAll(run', n, i, L, 0);
    SpreadApplied(Last(run'), n, i, L);
    run' := AppliesAll(run', n, L, 0);
    Agreed(run', n, L);
  }

  lemma Agreed(run: Run, n: nat, L: Log)
    requires Good(run, n) && Applied(Last(run), n, L, n) && |L| > 1
    ensures AllAgree(Last(run), n, L)
  {
    hide Good;
    forall q: nat | q < n
      ensures var c := Last(run);
        c.nodes[q].commitIndex == |L| - 1
        && ApplyMsg(|L| - 1, L[|L| - 1].cmd) in AppliedBy(c.hist, Instance(q, c.epochs[q]))
    {
      NodeAgrees(run, n, L, q);
    }
  }

  lemma ToldSpread(c: Cluster, n: nat, i: nat, L: Log)
    requires Told(c, n, i, L, n) && c.nodes[i].commitIndex >= |L| - 1
    ensures Spread(c, n, i, L, 0)
  {
  }

  lemma SpreadApplied(c: Cluster, n: nat, i: nat, L: Log)
    requires Spread(c, n, i, L, n)
    ensures Applied(c, n, L, 0)
  {
  }
}
