/**
 State Machine Safety with killed instances. A killed leader commits only what a
 majority acknowledged; a killed follower takes its commits from leaders that have
 them all; and what is proposed to a killed leader stays its own.
 */
module RaftKilledSafety {
  import opened RaftLog
  import opened RaftNode
  import opened RaftCluster
  import opened RaftShape
  import opened RaftElection
  import opened RaftMatching
  import opened RaftSafety
  import opened RaftSteps
  import opened RaftTheorems
  import opened RaftBacktrack
  import opened RaftApply
  import opened RaftKilled
  import opened RaftKilledLogs

  // --------------------------------------------------------------- invariant

  /** The part of the log that counts as committed; a batch may have cut the log below the commit index. */
  function Upto(z: Killed): int {
    if z.s.commitIndex < z.own then z.s.commitIndex else z.own - 1
  }

  ghost predicate UpheldBy(h: History, n: nat, z: Killed, cm: Commit) {
    && CommitOk(h, n, cm) && cm.term <= z.s.term && z.s.commitIndex <= cm.index
    && z.own <= |z.s.log| && Agree(z.s.log[..z.own], h.termLogs[cm.term], Upto(z))
  }

  /** What it holds committed was committed by counting, in a term it has reached. */
  ghost predicate Upheld(h: History, n: nat, z: Killed) {
    z.s.commitIndex <= 0 || exists cm :: UpheldBy(h, n, z, cm)
  }

  /** The commit index is below all it was given after its death, also while it stands or leads as it died. */
  predicate CommitBelow(z: Killed) {
    (z.own < |z.s.log| || (z.s.term == z.died && z.s.role != Follower)) ==> z.s.commitIndex < z.own
  }

  /** A majority voted for node i in term t. */
  ghost predicate VotedIn(h: History, n: nat, i: nat, t: nat) {
    Majority(Voters(BallotsFor(h.ballots, t, i)), n)
  }

  /** Nobody else can lead term t. */
  ghost predicate Sole(h: History, n: nat, i: nat, t: nat) {
    Won(h, t, i) || VotedIn(h, n, i, t)
  }

  /** What was proposed after the death is of the term it died in, and that term gets no other entries there. */
  ghost predicate TailOk(h: History, n: nat, at: Instance, z: Killed) {
    && (forall x :: z.own <= x < |z.s.log| ==> z.s.log[x].term == z.died)
    && (z.own < |z.s.log| ==>
          Sole(h, n, at.node, z.died) && (z.died in h.termLogs ==> |h.termLogs[z.died]| <= z.own))
  }

  /** It led when it was killed: it acknowledged its log, and its tally is made of acknowledgements. */
  ghost predicate Tallied(h: History, me: nat, z: Killed) {
    && z.s.term == z.died && Won(h, z.died, me)
    && z.died in h.termLogs && z.own <= |z.s.log| && z.s.log[..z.own] == h.termLogs[z.died]
    && AckOf(h, z.died, me) >= z.own - 1
    && forall p :: 0 <= p < |z.s.matchIndex| && p != me ==>
         z.s.matchIndex[p] <= 0 || z.s.matchIndex[p] <= AckOf(h, z.died, p)
  }

  ghost predicate NoCalls(c: Cluster, at: Instance, term: nat) {
    forall k :: k in c.appends && Mine(at, k) ==> k.args.term != term
  }

  /** A killed leader led before, or was elected after its death and has no calls to be answered. */
  ghost predicate LeadsOk(c: Cluster, at: Instance, z: Killed) {
    z.s.role == Leader ==>
      || Tallied(c.hist, at.node, z)
      || (NoCalls(c, at, z.s.term) &&
          (z.late || (z.s.term == z.died && !Won(c.hist, z.died, at.node)
                      && VotedIn(c.hist, |c.nodes|, at.node, z.died))))
  }

  /** A killed candidate that counted no vote of another election: its count is made of real votes. */
  ghost predicate StandsOk(c: Cluster, at: Instance, z: Killed) {
    z.s.role == Candidate && !z.late ==>
      if z.s.term == z.died then
        && !Won(c.hist, z.died, at.node)
        && z.s.voteCount <= |Backers(c.hist.ballots, c.votes, at.node, z.died)|
      else
        z.s.voteCount <= 1
  }

  ghost predicate NodeSafe(c: Cluster, at: Instance, z: Killed) {
    && Upheld(c.hist, |c.nodes|, z) && CommitBelow(z)
    && TailOk(c.hist, |c.nodes|, at, z)
    && LeadsOk(c, at, z) && StandsOk(c, at, z)
  }

  ghost predicate KilledSafe(c: Cluster, at: Instance, z: Killed) {
    AllBacked(c.hist, |c.nodes|, z.said) && (|c.nodes| > 1 ==> NodeSafe(c, at, z))
  }

  ghost predicate WorldSafe(w: World) {
    && WorldMatched(w) && Safe(w.live) && AppliedOk(w.live)
    && forall at :: at in w.killed ==> KilledSafe(w.live, at, w.killed[at])
  }

  // ------------------------------------------------------- the cluster moves

  ghost predicate HistoryGrew(h: History, h': History, n: nat) {
    && Grows(h.termLogs, h'.termLogs) && CommitsStay(h, h', n)
    && h.wins <= h'.wins && h.ballots <= h'.ballots
    && forall t: nat, p: nat :: AckOf(h, t, p) <= AckOf(h', t, p)
  }

  lemma StepBallots(c: Cluster, a: Action)
    requires Sane(c) && Enabled(c, a)
    ensures c.hist.ballots <= Do(c, a).hist.ballots
  {
    hide NodeOk, Sync, CommitFrom, Refuses, ConflictOf, UpToDate;
  }

  lemma StepSafe(c: Cluster, a: Action)
    requires Safe(c) && Enabled(c, a) && |c.nodes| > 0
    requires TimelyVote(c, a) && TimelyBeat(c, a) && InOrderAppend(c, a)
    ensures Sane(c) && Safe(Do(c, a)) && |Do(c, a).nodes| == |c.nodes|
    ensures HistoryGrew(c.hist, Do(c, a).hist, |c.nodes|)
  {
    hide Base, Fair, Matched, Kept, Do, Enabled, TimelyVote, TimelyBeat, InOrderAppend, OneWinner, Grows,
         CommitsStay, AckOf;
    BaseIsSane(c);
    StepBase(c, a);
    StepFair(c, a);
    FairHasOneWinner(c);
    FairHasOneWinner(Do(c, a));
    StepMatched(c, a);
    StepKept(c, a);
    RaftBacktrack.StepGrows(c, a);
    StepCommitsStay(c, a);
    WinsStay(c, a);
    StepBallots(c, a);
    forall t: nat, p: nat
      ensures AckOf(c.hist, t, p) <= AckOf(Do(c, a).hist, t, p)
    {
      StepRaisesAcks(c, a, t, p);
    }
  }

  /** A new win, and a new or longer term log, is of a node that leads that term after the step. */
  lemma WinnerLeads(c: Cluster, a: Action, w: Win)
    requires Sane(c) && Enabled(c, a) && w in Do(c, a).hist.wins && w !in c.hist.wins
    ensures w.node < |Do(c, a).nodes| && Do(c, a).nodes[w.node].role == Leader
    ensures Do(c, a).nodes[w.node].term == w.term
  {
    hide NodeOk, Sync, CommitFrom, Refuses, ConflictOf, UpToDate;
  }

  predicate Extends(a: Action) {
    a.Elect? || a.RecvVote? || a.Propose?
  }

  function ActsFor(a: Action): nat
    requires Extends(a)
  {
    if a.RecvVote? then a.vote.cand else a.i
  }

  lemma ExtenderLeads(c: Cluster, a: Action, t: nat)
    requires Sane(c) && Enabled(c, a) && Extends(a)
    ensures (t in Do(c, a).hist.termLogs ==> t in c.hist.termLogs
                                             && Do(c, a).hist.termLogs[t] == c.hist.termLogs[t])
         || (ActsFor(a) < |Do(c, a).nodes| && Do(c, a).nodes[ActsFor(a)].role == Leader
             && Do(c, a).nodes[ActsFor(a)].term == t)
  {
    hide Durable, WellShaped;
  }

  lemma TermLogLed(c: Cluster, a: Action, t: nat) returns (j: nat)
    requires Sane(c) && Enabled(c, a)
    ensures (t in Do(c, a).hist.termLogs ==> t in c.hist.termLogs
                                             && Do(c, a).hist.termLogs[t] == c.hist.termLogs[t])
         || (j < |Do(c, a).nodes| && Do(c, a).nodes[j].role == Leader && Do(c, a).nodes[j].term == t)
  {
    hide Do, Enabled, Sane;
    if Extends(a) {
      ExtenderLeads(c, a, t);
      j := ActsFor(a);
    } else {
      SameTermLogs(c, a);
      j := 0;
    }
  }

  lemma QuorumsAgree(c: Cluster, w: Win, i: nat, t: nat)
    requires Fair(c) && w in c.hist.wins && w.term == t && VotedIn(c.hist, |c.nodes|, i, t)
    ensures w.node == i
  {
    hide BallotOk, VoterOk, OneCallEach, GrantOk, CountOk;
    assert QuorumOk(c, w);
    var q := BallotsFor(c.hist.ballots, t, i);
    var p := MajoritiesMeet(Voters(w.quorum), Voters(q), |c.nodes|);
    var a :| a in w.quorum && a.voter == p;
    var b :| b in q && b.voter == p;
    assert a in c.hist.ballots && b in c.hist.ballots;
  }

  lemma SoleLeader(c: Cluster, i: nat, t: nat, j: nat)
    requires Fair(c) && Sole(c.hist, |c.nodes|, i, t) && Won(c.hist, t, j)
    ensures j == i
  {
    hide Fair, VotedIn;
    FairHasOneWinner(c);
    var w :| w in c.hist.wins && w.term == t && w.node == j;
    if !Won(c.hist, t, i) {
      QuorumsAgree(c, w, i, t);
    }
  }

  lemma VotedInStays(c: Cluster, h: History, i: nat, t: nat)
    requires Fair(c) && VotedIn(h, |c.nodes|, i, t) && h.ballots <= c.hist.ballots
    ensures VotedIn(c.hist, |c.nodes|, i, t)
  {
    hide Fair;
    BackersAreVoters(c, {}, i, t);
    var a, b := Voters(BallotsFor(h.ballots, t, i)), Voters(BallotsFor(c.hist.ballots, t, i));
    forall p | p in a
      ensures p in b
    {
      var x :| x in BallotsFor(h.ballots, t, i) && x.voter == p;
      assert x in BallotsFor(c.hist.ballots, t, i);
    }
    SubsetCard(a, b);
  }

  lemma SoleStays(c: Cluster, h: History, i: nat, t: nat)
    requires Fair(c) && Sole(h, |c.nodes|, i, t) && h.ballots <= c.hist.ballots && h.wins <= c.hist.wins
    ensures Sole(c.hist, |c.nodes|, i, t)
  {
    hide Fair, VotedIn;
    if Won(h, t, i) {
      var w :| w in h.wins && w.term == t && w.node == i;
      assert w in c.hist.wins;
    } else {
      VotedInStays(c, h, i, t);
    }
  }

  /** A term that only node i could lead, and that node i has outrun, gets no more entries. */
  lemma TermFrozen(c: Cluster, a: Action, i: nat, t: nat)
    requires Sane(c) && Enabled(c, a) && Base(Do(c, a)) && Fair(Do(c, a)) && Outrun(Do(c, a), i, t)
    requires Sole(Do(c, a).hist, |Do(c, a).nodes|, i, t)
    ensures t in Do(c, a).hist.termLogs ==>
      t in c.hist.termLogs && Do(c, a).hist.termLogs[t] == c.hist.termLogs[t]
  {
    hide Do, Enabled, Sane, Fair, Sole;
    var c' := Do(c, a);
    var j := TermLogLed(c, a, t);
    if j < |c'.nodes| && c'.nodes[j].role == Leader && c'.nodes[j].term == t {
      assert LeaderOk(c', j);
      SoleLeader(c', i, t, j);
    }
  }

  lemma NotWonStays(c: Cluster, a: Action, i: nat, t: nat)
    requires Sane(c) && Enabled(c, a) && !Won(c.hist, t, i) && Outrun(Do(c, a), i, t)
    ensures !Won(Do(c, a).hist, t, i)
  {
    hide Do, Enabled, Sane;
    forall w | w in Do(c, a).hist.wins && w.term == t
      ensures w.node != i
    {
      if w !in c.hist.wins {
        WinnerLeads(c, a, w);
      }
    }
  }

  lemma NoNewVoteCall(c: Cluster, a: Action, i: nat, t: nat, p: nat)
    requires Sane(c) && Enabled(c, a) && Outrun(c, i, t)
    ensures Pending(Do(c, a).votes, i, t, p) ==> Pending(c.votes, i, t, p)
  {
    hide Do, Enabled, Sane;
    if Pending(Do(c, a).votes, i, t, p) {
      var k :| k in Do(c, a).votes && k.cand == i && k.term == t && k.peer == p;
      OldVotes(c, a, k);
      var o :| o in c.votes && k == o.(reply := k.reply);
    }
  }

  /** Votes for an outrun candidacy only come in. */
  lemma BackersStay(c: Cluster, a: Action, i: nat, t: nat)
    requires Sane(c) && Enabled(c, a) && Outrun(c, i, t)
    ensures |Backers(c.hist.ballots, c.votes, i, t)| <= |Backers(Do(c, a).hist.ballots, Do(c, a).votes, i, t)|
  {
    hide Do, Enabled, Sane, Pending;
    var c' := Do(c, a);
    StepBallots(c, a);
    forall p | p in Backers(c.hist.ballots, c.votes, i, t)
      ensures p in Backers(c'.hist.ballots, c'.votes, i, t)
    {
      var b :| b in c.hist.ballots && b.term == t && b.cand == i && !Pending(c.votes, i, t, b.voter) && b.voter == p;
      NoNewVoteCall(c, a, i, t, p);
      assert b in c'.hist.ballots;
    }
    SubsetCard(Backers(c.hist.ballots, c.votes, i, t), Backers(c'.hist.ballots, c'.votes, i, t));
  }

  lemma UpheldStays(h: History, h': History, n: nat, z: Killed)
    requires Upheld(h, n, z) && HistoryGrew(h, h', n) && 1 <= z.own
    ensures Upheld(h', n, z)
  {
    hide Majority, Ackers, AckOf, Agree;
    if z.s.commitIndex > 0 {
      var cm :| UpheldBy(h, n, z, cm);
      assert CommitOk(h', n, cm);
      assert h.termLogs[cm.term] <= h'.termLogs[cm.term];
      AgreeGrows(z.s.log[..z.own], h.termLogs[cm.term], h'.termLogs[cm.term], Upto(z));
      assert UpheldBy(h', n, z, cm);
    }
  }

  lemma NoCallsStays(c: Cluster, a: Action, at: Instance, t: nat)
    requires Sane(c) && Enabled(c, a) && NoCalls(c, at, t)
    requires at.node < |c.epochs| && at.epoch < c.epochs[at.node]
    ensures NoCalls(Do(c, a), at, t)
  {
    hide Do, Enabled, NodeOk;
    forall k | k in Do(c, a).appends && Mine(at, k)
      ensures k.args.term != t
    {
      OldCalls(c, a, k);
      var o :| o in c.appends && o.from == k.from && o.epoch == k.epoch && o.args == k.args;
    }
  }

  /** A live step from one safe cluster to another, seen from an instance killed before. */
  ghost predicate StepOver(c: Cluster, a: Action, at: Instance, z: Killed) {
    && Sane(c) && Enabled(c, a) && KilledOk(c, at, z) && KilledOk(Do(c, a), at, z)
    && Base(Do(c, a)) && Fair(Do(c, a)) && |Do(c, a).nodes| == |c.nodes|
    && HistoryGrew(c.hist, Do(c, a).hist, |c.nodes|)
  }

  lemma TailStays(c: Cluster, a: Action, at: Instance, z: Killed)
    requires StepOver(c, a, at, z) && TailOk(c.hist, |c.nodes|, at, z)
    ensures TailOk(Do(c, a).hist, |c.nodes|, at, z)
  {
    hide Do, Enabled, Sane, Fair, Base, NodeFits, Sole, VoteCallsOld;
    if z.own < |z.s.log| {
      SoleStays(Do(c, a), c.hist, at.node, z.died);
      TermFrozen(c, a, at.node, z.died);
    }
  }

  lemma LeadsStays(c: Cluster, a: Action, at: Instance, z: Killed)
    requires StepOver(c, a, at, z) && LeadsOk(c, at, z)
    ensures LeadsOk(Do(c, a), at, z)
  {
    hide Do, Enabled, Sane, Fair, Base, NodeFits, NoCalls, VotedIn, VoteCallsOld, Won, AckOf;
    var c' := Do(c, a);
    if z.s.role == Leader {
      if Tallied(c.hist, at.node, z) {
        SoleStays(c', c.hist, at.node, z.died);
        TermFrozen(c, a, at.node, z.died);
        WonStays(c.hist, c'.hist, z.died, at.node);
        assert c.hist.termLogs[z.died] <= c'.hist.termLogs[z.died];
      } else {
        NoCallsStays(c, a, at, z.s.term);
        if !z.late {
          NotWonStays(c, a, at.node, z.died);
          VotedInStays(c', c.hist, at.node, z.died);
        }
      }
    }
  }

  lemma WonStays(h: History, h': History, t: nat, i: nat)
    requires Won(h, t, i) && h.wins <= h'.wins
    ensures Won(h', t, i)
  {
    var w :| w in h.wins && w.term == t && w.node == i;
    assert w in h'.wins;
  }

  lemma StandsStays(c: Cluster, a: Action, at: Instance, z: Killed)
    requires StepOver(c, a, at, z) && StandsOk(c, at, z)
    ensures StandsOk(Do(c, a), at, z)
  {
    hide Do, Enabled, Sane, Fair, Base, NodeFits, VoteCallsOld, Won, Backers;
    if z.s.role == Candidate && !z.late && z.s.term == z.died {
      NotWonStays(c, a, at.node, z.died);
      BackersStay(c, a, at.node, z.died);
    }
  }

  lemma KilledSafeStays(c: Cluster, a: Action, at: Instance, z: Killed)
    requires StepOver(c, a, at, z) && KilledSafe(c, at, z)
    ensures KilledSafe(Do(c, a), at, z)
  {
    hide Do, Enabled, AllBacked, Upheld, CommitBelow, TailOk, LeadsOk, StandsOk, Sane, Base, Fair;
    AllBackedStays(c.hist, Do(c, a).hist, |c.nodes|, z.said);
    if |c.nodes| > 1 {
      UpheldStays(c.hist, Do(c, a).hist, |c.nodes|, z);
      TailStays(c, a, at, z);
      LeadsStays(c, a, at, z);
      StandsStays(c, a, at, z);
    }
  }

  lemma JustKilledSafe(c: Cluster, i: nat)
    requires Safe(c) && AppliedOk(c) && i < |c.nodes| == |c.epochs|
    ensures KilledSafe(DoRestart(c, i), Instance(i, c.epochs[i]), NewlyKilled(c, i))
  {
    hide Keeps, WinKeeps, CommitOk, Justified, CallKept, AckOk, Agree, Matches, WinMatched, OwnsLog, CallMatched,
         NodeOk, AdvertOk, VoteCallOk, AppendCallOk, WinOk, BallotOk, VoterOk, OneBallotEach, OneCallEach, GrantOk,
         QuorumOk, Backers;
    var s, h, n := c.nodes[i], c.hist, |c.nodes|;
    var z := NewlyKilled(c, i);
    assert s.log[..|s.log|] == s.log;
    assert s.log != [] by {
      assert NodeOk(s, n);
      HasLog(s, n);
    }
    if s.commitIndex > 0 {
      var cm := NodeCommitted(c, i);
      CommitIsOk(c, cm);
      CommitInside(s.log, h.termLogs[cm.term], s.commitIndex);
      assert UpheldBy(h, n, z, cm);
    }
    if s.role == Leader {
      var v := LeaderOwns(c, i);
      assert TallyOk(c, i) && LeaderOk(c, i);
    }
    assert CandidateOk(c, i) && CountOk(c, i);
  }

  lemma HasLog(s: Node, n: nat)
    requires NodeOk(s, n)
    ensures s.log != []
  {
  }

  lemma CommitInside(log: Log, whole: Log, x: int)
    requires Agree(log, whole, x)
    ensures 0 <= x < |log| && x < |whole|
  {
  }

  lemma LiveSafe(w: World, a: Action)
    requires WorldSafe(w) && WorldReady(w) && Enabled(w.live, a) && |w.live.nodes| > 0 && OrderlyMove(w, Live(a))
    ensures WorldSafe(DoLive(w, a))
  {
    hide WorldOk, Safe, AppliedOk, KilledOk, KilledSafe, Do, Enabled, WorldReady, TimelyVote, TimelyBeat,
         InOrderAppend, HistoryGrew, KilledMatched, Matched, OneWinner;
    var c := w.live;
    SafeParts(c);
    StepSafe(c, a);
    SafeParts(Do(c, a));
    LiveMoveMatched(w, a);
    GrewCommits(c, a);
    StepApplied(c, a);
    if a.Restart? {
      RestartIs(c, a.i);
    }
    forall at | at in DoLive(w, a).killed
      ensures KilledSafe(Do(c, a), at, DoLive(w, a).killed[at])
    {
      if a.Restart? && at == Instance(a.i, c.epochs[a.i]) {
        JustKilledSafe(c, a.i);
      } else {
        KilledIn(w, at);
        KilledIn(DoLive(w, a), at);
        KilledSafeStays(c, a, at, w.killed[at]);
      }
    }
  }

  lemma KilledIn(w: World, at: Instance)
    requires WorldMatched(w) && at in w.killed
    ensures KilledOk(w.live, at, w.killed[at]) && KilledMatched(w.live.hist, w.killed[at])
  {
  }

  lemma SafeParts(c: Cluster)
    requires Safe(c)
    ensures Sane(c) && Base(c) && Fair(c) && Matched(c) && OneWinner(c.hist)
  {
    hide Fair, Matched, Kept, OneWinner;
    FairHasOneWinner(c);
  }

  lemma GrewCommits(c: Cluster, a: Action)
    requires Sane(c) && Enabled(c, a) && HistoryGrew(c.hist, Do(c, a).hist, |c.nodes|)
    ensures CommitsStay(c.hist, Do(c, a).hist, |c.nodes|)
  {
    hide Do, Enabled, CommitsStay, Grows;
  }

  // -------------------------------------------------- a killed instance moves

  /** Log, commit index and what it was given stand. */
  ghost predicate Steady(z: Killed, z': Killed) {
    && z'.s.log == z.s.log && z'.s.commitIndex == z.s.commitIndex && z'.s.term >= z.s.term
    && z'.own == z.own && z'.died == z.died
    && (z'.s.role != Follower && z'.s.term == z.died ==> z.s.role != Follower && z.s.term == z.died)
  }

  lemma SteadyUpheld(h: History, n: nat, at: Instance, z: Killed, z': Killed)
    requires Upheld(h, n, z) && CommitBelow(z) && TailOk(h, n, at, z) && Steady(z, z')
    ensures Upheld(h, n, z') && CommitBelow(z') && TailOk(h, n, at, z')
  {
    hide CommitOk, Agree, Sole;
    if z.s.commitIndex > 0 {
      var cm :| UpheldBy(h, n, z, cm);
      assert UpheldBy(h, n, z', cm);
    }
  }

  /** A step that changes neither log nor commit index and no candidacy but by starting a new one. */
  lemma CalmSafe(c: Cluster, at: Instance, z: Killed, z': Killed)
    requires NodeSafe(c, at, z) && Steady(z, z') && (z'.late == z.late || z'.s.role == Candidate)
    requires z'.s.role == Leader ==>
      z.s.role == Leader && z'.s.term == z.s.term && z'.s.matchIndex == z.s.matchIndex
    requires z'.s.role == Candidate ==>
      || (z.s.role == Candidate && z'.s.term == z.s.term && z'.s.voteCount == z.s.voteCount && z'.late == z.late)
      || (z'.s.term > z.died && z'.s.voteCount <= 1)
    ensures NodeSafe(c, at, z')
  {
    hide Upheld, CommitBelow, TailOk, NoCalls, VotedIn, Won, Backers, AckOf;
    SteadyUpheld(c.hist, |c.nodes|, at, z, z');
  }

  lemma LateCalmSafe(c: Cluster, at: Instance, z: Killed, a: Action)
    requires |c.nodes| > 1 && KilledOk(c, at, z) && NodeReady(z.s, |c.nodes|, a) && LateEnabled(c, at, z.s, a)
    requires NodeSafe(c, at, z)
    requires a.Elect? || a.HandleVote? || a.HandleBeat? || a.RecvBeat? || a.SendAppend? || a.ApplyOne?
    ensures NodeSafe(c, at, LateKilled(z, at.node, |c.nodes|, a))
  {
    hide NodeSafe, NodeOk, CallFits, UpToDate, VoteCallsOld, InSequence;
    CalmSafe(c, at, z, LateKilled(z, at.node, |c.nodes|, a));
  }

  // ------------------------------------------------------------ taking votes

  lemma VoteUpheld(c: Cluster, at: Instance, z: Killed, k: VoteCall)
    requires |c.nodes| > 1 && KilledOk(c, at, z) && NodeSafe(c, at, z) && LateEnabled(c, at, z.s, RecvVote(k))
    requires NodeReady(z.s, |c.nodes|, RecvVote(k))
    ensures var z' := LateKilled(z, at.node, |c.nodes|, RecvVote(k));
      Upheld(c.hist, |c.nodes|, z') && CommitBelow(z') && TailOk(c.hist, |c.nodes|, at, z')
  {
    hide NodeOk, CallFits, VoteCallsOld, InSequence, Upheld, CommitBelow, TailOk, LeadsOk, StandsOk;
    SteadyUpheld(c.hist, |c.nodes|, at, z, LateKilled(z, at.node, |c.nodes|, RecvVote(k)));
  }

  /** A killed candidate that takes a vote of its election: one more real voter. */
  lemma LateVoteSafe(c: Cluster, at: Instance, z: Killed, k: VoteCall)
    requires Fair(c) && |c.nodes| > 1 && KilledOk(c, at, z) && NodeSafe(c, at, z)
    requires LateEnabled(c, at, z.s, RecvVote(k)) && NodeReady(z.s, |c.nodes|, RecvVote(k))
    ensures var c', z' := Taken(c, RecvVote(k)), LateKilled(z, at.node, |c.nodes|, RecvVote(k));
      LeadsOk(c', at, z') && StandsOk(c', at, z')
  {
    hide Fair, NodeOk, InSequence, Upheld, CommitBelow, TailOk, Backers, Won, AckOf, VotedIn;
    var c', z' := Taken(c, RecvVote(k)), LateKilled(z, at.node, |c.nodes|, RecvVote(k));
    MoreBackers(c, k.cand, z.died, k);
    if z.s.role == Candidate && k.reply.value.granted && !z'.late && k.reply.value.term <= z.s.term {
      assert k.term == z.s.term == z.died;
      GrantAddsBacker(c, k);
      if z'.s.role == Leader {
        CountedIn(c, c.votes - {k}, at.node, z.died, z.s.voteCount + 1);
      }
    }
    assert z.s.role == Candidate ==> NoCalls(c, at, z.s.term);
  }

  lemma MoreBackers(c: Cluster, i: nat, t: nat, k: VoteCall)
    ensures |Backers(c.hist.ballots, c.votes, i, t)| <= |Backers(c.hist.ballots, c.votes - {k}, i, t)|
  {
    FewerDescend(c.votes, c.votes - {k});
    BackersGrow(c.hist.ballots, c.hist.ballots, c.votes, c.votes - {k}, i, t);
  }

  lemma CountedIn(c: Cluster, votes: set<VoteCall>, i: nat, t: nat, count: nat)
    requires Fair(c) && count <= |Backers(c.hist.ballots, votes, i, t)| && IsMajority(count, |c.nodes|)
    ensures VotedIn(c.hist, |c.nodes|, i, t)
  {
    hide Fair, Backers, Voters, BallotsFor;
    BackersAreVoters(c, votes, i, t);
  }

  // ------------------------------------------------------------- a command

  /** What is proposed to a killed leader is of a term nobody else adds to. */
  lemma LateProposeSafe(c: Cluster, at: Instance, z: Killed, cmd: Command)
    requires Fair(c) && Matched(c) && |c.nodes| > 1 && KilledOk(c, at, z) && NodeSafe(c, at, z)
    requires z.s.role == Leader && !z.late && NodeReady(z.s, |c.nodes|, Action.Propose(at.node, cmd))
    ensures NodeSafe(c, at, LateKilled(z, at.node, |c.nodes|, Action.Propose(at.node, cmd)))
  {
    hide Fair, NodeOk, InSequence, CallFits, VoteCallsOld, Matches, WinMatched, OwnsLog, CallMatched, CommitOk,
         VotedIn, Won, AckOf, Agree, NoCalls;
    var z' := LateKilled(z, at.node, |c.nodes|, Action.Propose(at.node, cmd));
    assert z'.s.log[..z.own] == z.s.log[..z.own];
    if z.s.commitIndex > 0 {
      var cm :| UpheldBy(c.hist, |c.nodes|, z, cm);
      assert UpheldBy(c.hist, |c.nodes|, z', cm);
    }
    if !Tallied(c.hist, at.node, z) && z.died in c.hist.termLogs {
      var w :| w in c.hist.wins && w.term == z.died;
      IsWon(c.hist, w);
      SoleLeader(c, at.node, z.died, w.node);
    }
  }

  lemma IsWon(h: History, w: Win)
    requires w in h.wins
    ensures Won(h, w.term, w.node)
  {
  }

  // -------------------------------------------------------------- a batch

  lemma LeaderCommitCovered(c: Cluster, k: AppendCall)
    requires Kept(c) && k in c.appends
    ensures k.args.commit <= EndOf(k.args)
    ensures k.args.commit <= 0
      || exists cm :: CommitOk(c.hist, |c.nodes|, cm) && cm.term <= k.args.term && k.args.commit <= cm.index
  {
    hide CommitOk, Keeps, WinKeeps, Justified, TallyOk, AckOk;
    assert CallKept(c.hist, k);
    if k.args.commit > 0 {
      var cm :| cm in c.hist.commits && cm.term <= k.args.term && k.args.commit <= cm.index;
      CommitIsOk(c, cm);
    }
  }

  /** No log of the cluster has an entry of the term it died in where it has its own. */
  lemma OwnUnseen(tl: TermLogs, whole: Log, z: Killed, x: int)
    requires Matches(whole, tl) && 1 <= z.own <= x < |whole| && x < |z.s.log|
    requires z.s.log[x].term == z.died && (z.died in tl ==> |tl[z.died]| <= z.own)
    ensures whole[x].term != z.s.log[x].term
  {
    assert MatchesAt(whole, tl, x);
  }

  /** So a batch the consistency check lets pass goes through below that. */
  lemma BatchBelow(c: Cluster, at: Instance, z: Killed, k: AppendCall)
    requires Matched(c) && k in c.appends && TailOk(c.hist, |c.nodes|, at, z) && 1 <= z.own <= |z.s.log|
    requires 0 <= k.args.prev < |z.s.log| && Accepts(z.s, k.args)
    ensures k.args.prev < z.own
    ensures k.args.entries != [] ==> HeldUpto(z.s.log, k.args) <= z.own
  {
    hide Matches, Shape, OwnsLog, Sole, TermRun, Refuses;
    var a, log, tl := k.args, z.s.log, c.hist.termLogs;
    assert CallMatched(c.hist, a);
    var w :| w in c.hist.wins && w.term == a.term;
    assert WinMatched(tl, w);
    var whole := tl[a.term];
    SamePrev(log, a);
    if a.prev >= z.own {
      OwnUnseen(tl, whole, z, a.prev);
      assert false;
    }
    if a.entries != [] && HeldUpto(log, a) > z.own {
      var r := TermRun(log[a.prev + 1..], a.entries);
      var x := z.own - a.prev - 1;
      assert log[a.prev + 1..][x] == log[z.own] && a.entries[x] == whole[z.own];
      OwnUnseen(tl, whole, z, z.own);
      assert false;
    }
  }

  lemma SamePrev(log: Log, a: AppendArgs)
    requires 0 <= a.prev < |log| && !Refuses(log, a.prev, a.prevTerm)
    ensures TermAt(log, a.prev) == a.prevTerm
  {
  }

  /** A batch from a leader of the cluster: the leader has all that was committed before. */
  lemma LateBatchSafe(c: Cluster, at: Instance, z: Killed, k: AppendCall)
    requires Safe(c) && |c.nodes| > 1 && KilledOk(c, at, z) && KilledMatched(c.hist, z) && NodeSafe(c, at, z)
    requires k in c.appends && k.peer == at.node && Accepts(z.s, k.args) && k.args.entries != []
    requires NodeReady(z.s, |c.nodes|, HandleAppend(k))
    ensures NodeSafe(c, at, LateKilled(z, at.node, |c.nodes|, HandleAppend(k)))
  {
    hide Safe, Agree, Refuses, Sync, Matches, Matched, HeldUpto, CommitOk, NodeFits, VoteCallsOld, InSequence,
         LeadsOk, StandsOk, Base, Kept, Sole;
    var z', h, a := LateKilled(z, at.node, |c.nodes|, HandleAppend(k)), c.hist, k.args;
    SafeParts(c);
    PrevKnown(c, k);
    AcceptedPrev(z.s.log, a);
    BatchBelow(c, at, z, k);
    CutSync(z.s.log, z.own, a);
    CutRefuses(z.s.log, z.own, a);
    BatchIn(c, z.s.log[..z.own], k);
    assert z'.s.log[..z'.own] == z'.s.log;
    NewCommit(c, z, z', k);
    NoTail(c, at, z');
  }

  lemma NoTail(c: Cluster, at: Instance, z: Killed)
    requires z.own == |z.s.log| && z.s.role == Follower && Upheld(c.hist, |c.nodes|, z)
    ensures NodeSafe(c, at, z)
  {
    hide Upheld, Tallied, NoCalls, VotedIn, Backers, Sole, Won;
  }

  /** The commit index after a batch. */
  lemma NewCommit(c: Cluster, z: Killed, z': Killed, k: AppendCall)
    requires Safe(c) && k in c.appends && z.s.term <= k.args.term <= z'.s.term
    requires 1 <= z.own <= |z.s.log| && z'.own == |z'.s.log| && z'.s.log[..z'.own] == z'.s.log
    requires Upheld(c.hist, |c.nodes|, z) && k.args.entries != []
    requires Accepted(z.s.log[..z.own], z'.s.log, c.hist.termLogs, k.args)
    requires z'.s.commitIndex == if k.args.commit <= z.s.commitIndex then z.s.commitIndex
                                 else if k.args.commit < |z'.s.log| - 1 then k.args.commit else |z'.s.log| - 1
    ensures Upheld(c.hist, |c.nodes|, z')
  {
    hide Base, Fair, Matched, Kept, Agree, Matches, CommitOk;
    var h, a := c.hist, k.args;
    LeaderCommitCovered(c, k);
    CommitInside(z'.s.log, h.termLogs[a.term], EndOf(a));
    if z'.s.commitIndex > 0 {
      var cm: Commit;
      if a.commit > z.s.commitIndex {
        cm :| CommitOk(h, |c.nodes|, cm) && cm.term <= a.term && a.commit <= cm.index;
      } else {
        cm :| UpheldBy(h, |c.nodes|, z, cm);
      }
      LaterTermsComplete(c, cm, a.term);
      var x := Upto(z');
      AgreeDown(z'.s.log, h.termLogs[a.term], EndOf(a), x);
      AgreeDown(h.termLogs[a.term], h.termLogs[cm.term], cm.index, x);
      AgreeJoin(z'.s.log, h.termLogs[a.term], h.termLogs[cm.term], x);
      assert UpheldBy(h, |c.nodes|, z', cm);
    }
  }

  /** An empty batch moves the commit index at most to where the leader and it agree. */
  lemma LateEmptySafe(c: Cluster, at: Instance, z: Killed, k: AppendCall)
    requires Safe(c) && |c.nodes| > 1 && KilledOk(c, at, z) && KilledMatched(c.hist, z) && NodeSafe(c, at, z)
    requires k in c.appends && k.peer == at.node && Accepts(z.s, k.args) && k.args.entries == []
    requires NodeReady(z.s, |c.nodes|, HandleAppend(k))
    ensures NodeSafe(c, at, LateKilled(z, at.node, |c.nodes|, HandleAppend(k)))
  {
    hide Safe, Agree, Refuses, Sync, Matches, Matched, HeldUpto, CommitOk, NodeFits, VoteCallsOld, InSequence, Base,
         Kept, Sole, Won, VotedIn, Backers, NoCalls;
    var z', h, a := LateKilled(z, at.node, |c.nodes|, HandleAppend(k)), c.hist, k.args;
    SafeParts(c);
    PrevKnown(c, k);
    AcceptedPrev(z.s.log, a);
    BatchBelow(c, at, z, k);
    CutRefuses(z.s.log, z.own, a);
    BatchIn(c, z.s.log[..z.own], k);
    SyncNothing(z.s.log, a.prev + 1);
    SyncNothing(z.s.log[..z.own], a.prev + 1);
    EmptyCommit(c, z, z', k);
  }

  lemma EmptyCommit(c: Cluster, z: Killed, z': Killed, k: AppendCall)
    requires Safe(c) && k in c.appends && z.s.term <= k.args.term <= z'.s.term
    requires 1 <= z.own <= |z.s.log| && z'.own == z.own && z'.s.log == z.s.log && EndOf(k.args) < z.own
    requires Upheld(c.hist, |c.nodes|, z) && k.args.term in c.hist.termLogs
    requires Agree(z.s.log[..z.own], c.hist.termLogs[k.args.term], EndOf(k.args))
    requires z'.s.commitIndex == if k.args.commit <= z.s.commitIndex then z.s.commitIndex
                                 else if k.args.commit < |z.s.log| - 1 then k.args.commit else |z.s.log| - 1
    ensures Upheld(c.hist, |c.nodes|, z') && (z'.s.commitIndex == z.s.commitIndex || z'.s.commitIndex < z.own)
  {
    hide Base, Fair, Matched, Kept, Agree, CommitOk;
    var h, a := c.hist, k.args;
    LeaderCommitCovered(c, k);
    if z'.s.commitIndex > 0 {
      if a.commit > z.s.commitIndex {
        var cm :| CommitOk(h, |c.nodes|, cm) && cm.term <= a.term && a.commit <= cm.index;
        LaterTermsComplete(c, cm, a.term);
        var x, log := Upto(z'), z.s.log[..z.own];
        AgreeDown(log, h.termLogs[a.term], EndOf(a), x);
        AgreeDown(h.termLogs[a.term], h.termLogs[cm.term], cm.index, x);
        AgreeJoin(log, h.termLogs[a.term], h.termLogs[cm.term], x);
        assert UpheldBy(h, |c.nodes|, z', cm);
      } else {
        var cm :| UpheldBy(h, |c.nodes|, z, cm);
        assert UpheldBy(h, |c.nodes|, z', cm);
      }
    }
  }

  lemma LateHandleSafe(c: Cluster, at: Instance, z: Killed, k: AppendCall)
    requires Safe(c) && |c.nodes| > 1 && KilledOk(c, at, z) && KilledMatched(c.hist, z) && NodeSafe(c, at, z)
    requires k in c.appends && k.peer == at.node && NodeReady(z.s, |c.nodes|, HandleAppend(k))
    ensures NodeSafe(c, at, LateKilled(z, at.node, |c.nodes|, HandleAppend(k)))
  {
    hide Safe, NodeSafe, NodeFits, VoteCallsOld, InSequence, Refuses, ConflictOf, Sync, HeldUpto, KilledMatched;
    if Accepts(z.s, k.args) {
      if k.args.entries != [] {
        LateBatchSafe(c, at, z, k);
      } else {
        LateEmptySafe(c, at, z, k);
      }
    } else {
      CalmSafe(c, at, z, LateKilled(z, at.node, |c.nodes|, HandleAppend(k)));
    }
  }

  // ---------------------------------------------------------- acknowledgements

  /** Acknowledgements that arrive after the death still make a majority of acknowledgements. */
  lemma LateReplySafe(c: Cluster, at: Instance, z: Killed, k: AppendCall)
    requires Kept(c) && |c.nodes| > 1 && KilledOk(c, at, z) && NodeSafe(c, at, z)
    requires LateEnabled(c, at, z.s, RecvAppend(k)) && NodeReady(z.s, |c.nodes|, RecvAppend(k))
    ensures NodeSafe(c, at, LateKilled(z, at.node, |c.nodes|, RecvAppend(k)))
  {
    hide Kept, CallFits, InSequence, VoteCallsOld, NodeSafe, Durable, WellShaped, CommitFrom;
    var r := k.reply.value;
    var z' := LateKilled(z, at.node, |c.nodes|, RecvAppend(k));
    if r.term <= z.s.term && z.s.role == Leader && z.s.term == k.args.term && r.success {
      LateAckSafe(c, at, z, z', k);
    } else {
      CalmSafe(c, at, z, z');
    }
  }

  lemma LateAckSafe(c: Cluster, at: Instance, z: Killed, z': Killed, k: AppendCall)
    requires Kept(c) && |c.nodes| > 1 && NodeSafe(c, at, z) && at.node < |c.nodes| && 1 <= z.own <= |z.s.log|
    requires NodeOk(z.s, |c.nodes|) && z.s.role == Leader && z.s.term == k.args.term
    requires k in c.appends && Mine(at, k) && k.peer < |c.nodes| && k.reply.Some? && k.reply.value.success
    requires var s1 := Acknowledge(z.s, k.peer, EndOf(k.args));
      z' == z.(s := s1.(commitIndex := CommitFrom(s1, at.node, |s1.log| - 1)))
    ensures NodeSafe(c, at, z')
  {
    hide Keeps, WinKeeps, Justified, TallyOk, AckOk, Agree, Durable, WellShaped, CommitOk, Won,
         VotedIn, Sole, CommitFrom;
    assert CallKept(c.hist, k);
    assert Tallied(c.hist, at.node, z);
    var s1 := Acknowledge(z.s, k.peer, EndOf(k.args));
    var z1 := z.(s := s1);
    assert Tallied(c.hist, at.node, z1);
    if z'.s.commitIndex > z.s.commitIndex {
      CommitBelowOwn(c, at, z1, z'.s.commitIndex);
      LateCommit(c, at.node, z1, z');
    } else {
      SteadyUpheld(c.hist, |c.nodes|, at, z, z');
    }
  }

  /** With more than one node, nobody acknowledged what was proposed after the death. */
  lemma CommitBelowOwn(c: Cluster, at: Instance, z: Killed, x: int)
    requires Kept(c) && |c.nodes| > 1 && Tallied(c.hist, at.node, z) && at.node < |c.nodes|
    requires |z.s.matchIndex| == |c.nodes| && 1 <= x < |z.s.log| && Commits(z.s, at.node, x) && 1 <= z.own
    ensures x < z.own && Majority(Ackers(c.hist, z.died, x, |c.nodes|), |c.nodes|)
  {
    hide Keeps, WinKeeps, Justified, TallyOk, CallKept, CommitOk, Won, Majority, Ackers;
    forall p: nat | p < |c.nodes| && p != at.node
      ensures z.s.matchIndex[p] < z.own
    {
      assert AckOk(c, z.died, p);
    }
    NobodyHolds(z.s.matchIndex, at.node, x, z.own, |c.nodes|);
    CountedMajority(c, at.node, z.s, x);
  }

  lemma {:induction false} NobodyHolds(match_: seq<int>, me: nat, x: int, bound: int, upto: nat)
    requires upto <= |match_| && forall p: nat :: p < |match_| && p != me ==> match_[p] < bound
    ensures x >= bound ==> CountMatch(match_, me, x, upto) == 0
  {
    if upto > 0 {
      NobodyHolds(match_, me, x, bound, upto - 1);
    }
  }

  lemma LateCommit(c: Cluster, me: nat, z: Killed, z': Killed)
    requires Tallied(c.hist, me, z) && z' == z.(s := z.s.(commitIndex := z'.s.commitIndex)) && CommitBelow(z)
    requires 1 <= z'.s.commitIndex < z.own && z.s.log[z'.s.commitIndex].term == z.died
    requires Majority(Ackers(c.hist, z.died, z'.s.commitIndex, |c.nodes|), |c.nodes|)
    ensures Upheld(c.hist, |c.nodes|, z') && CommitBelow(z')
  {
    hide Majority, Ackers;
    var whole, x := c.hist.termLogs[z.died], z'.s.commitIndex;
    var cm := Commit(z.died, x, whole[..x + 1]);
    assert UpheldBy(c.hist, |c.nodes|, z', cm);
  }

  // -------------------------------------------------------------- every move

  lemma LateSaidSafe(c: Cluster, at: Instance, z: Killed)
    requires NodeSafe(c, at, z) && CanApply(z.s) && AllBacked(c.hist, |c.nodes|, z.said) && 1 <= z.own <= |z.s.log|
    ensures AllBacked(c.hist, |c.nodes|, z.said + [NextMsg(z.s)])
  {
    hide CommitOk, Agree, Backed, TailOk, LeadsOk, StandsOk;
    var cm :| UpheldBy(c.hist, |c.nodes|, z, cm);
    var x := z.s.lastApplied + 1;
    EntryIsBacked(c.hist, |c.nodes|, z.s.log[..z.own], cm, Upto(z), x);
    assert z.s.log[..z.own][x] == z.s.log[x];
    MoreBacked(c.hist, |c.nodes|, z.said, NextMsg(z.s));
  }

  lemma FewerCallsSafe(c: Cluster, c': Cluster, at: Instance, z: Killed)
    requires NodeSafe(c, at, z) && c'.nodes == c.nodes && c'.hist == c.hist
    requires c'.appends <= c.appends && c'.votes <= c.votes
    ensures NodeSafe(c', at, z)
  {
    hide Upheld, TailOk, CommitBelow, Tallied, VotedIn, Won, Backers;
    FewerDescend(c.votes, c'.votes);
    BackersGrow(c.hist.ballots, c.hist.ballots, c.votes, c'.votes, at.node, z.died);
  }

  /** The killed instance after its own step, with the reply it took gone from the network. */
  lemma LateNodeSafe(c: Cluster, at: Instance, z: Killed, a: Action)
    requires Safe(c) && |c.nodes| > 1 && KilledOk(c, at, z) && KilledMatched(c.hist, z) && NodeSafe(c, at, z)
    requires LateEnabled(c, at, z.s, a) && NodeReady(z.s, |c.nodes|, a) && (a.Propose? ==> !z.late)
    requires at.node < |c.nodes|
    ensures NodeSafe(Taken(c, a), at, LateKilled(z, at.node, |c.nodes|, a))
  {
    hide Base, Fair, Matched, Kept, NodeSafe, KilledMatched, KilledOk, LateKilled, NodeReady, Taken, OneWinner;
    SafeParts(c);
    if a.RecvVote? {
      VoteSafe(c, at, z, a.vote);
    } else {
      match a {
        case HandleAppend(k) => LateHandleSafe(c, at, z, k);
        case RecvAppend(k) => LateReplySafe(c, at, z, k);
        case Propose(i, cmd) => LateProposeSafe(c, at, z, cmd);
        case _ => LateCalmSafe(c, at, z, a);
      }
      var l := TakenIsLost(c, a);
      FewerCallsSafe(c, Taken(c, a), at, LateKilled(z, at.node, |c.nodes|, a));
    }
  }

  lemma VoteSafe(c: Cluster, at: Instance, z: Killed, k: VoteCall)
    requires Fair(c) && |c.nodes| > 1 && KilledOk(c, at, z) && NodeSafe(c, at, z)
    requires LateEnabled(c, at, z.s, RecvVote(k)) && NodeReady(z.s, |c.nodes|, RecvVote(k))
    ensures NodeSafe(Taken(c, RecvVote(k)), at, LateKilled(z, at.node, |c.nodes|, RecvVote(k)))
  {
    hide Fair, KilledOk, LateKilled, NodeReady, Upheld, TailOk, CommitBelow, LeadsOk, StandsOk, LateEnabled;
    VoteUpheld(c, at, z, k);
    LateVoteSafe(c, at, z, k);
  }

  lemma LateSafe(w: World, at: Instance, a: Action)
    requires WorldSafe(w) && WorldReady(w) && MoveEnabled(w, Late(at, a)) && |w.live.nodes| > 0
    requires OrderlyMove(w, Late(at, a))
    ensures WorldSafe(DoLate(w, at, a))
  {
    hide WorldMatched, Safe, AppliedOk, LateKilled, Taken, NodeReady, NodeSafe, AllBacked, WorldReady, OneWinner,
         KilledOk, KilledMatched, LateEnabled, CanApply;
    var c, z, w' := w.live, w.killed[at], DoLate(w, at, a);
    SafeParts(c);
    LateMoveMatched(w, at, a);
    ReadyForLate(w, at, a);
    KilledIn(w, at);
    TakenSafe(c, a);
    assert KilledSafe(c, at, z);
    forall x | x in w'.killed
      ensures KilledSafe(w'.live, x, w'.killed[x])
    {
      if x == at {
        SaidSafe(c, at, z, a);
        if |c.nodes| > 1 {
          LateNodeSafe(c, at, z, a);
        }
      } else {
        assert KilledSafe(c, x, w.killed[x]);
        if |c.nodes| > 1 {
          FewerCallsSafe(c, Taken(c, a), x, w.killed[x]);
        }
      }
    }
  }

  lemma SaidSafe(c: Cluster, at: Instance, z: Killed, a: Action)
    requires KilledOk(c, at, z) && KilledSafe(c, at, z) && LateEnabled(c, at, z.s, a) && NodeReady(z.s, |c.nodes|, a)
    ensures AllBacked(c.hist, |c.nodes|, LateKilled(z, at.node, |c.nodes|, a).said)
  {
    hide NodeSafe, AllBacked, LateNode, LateOwn, LateVote, VoteCallsOld, NodeOk, CallFits, InSequence;
    if a.ApplyOne? {
      LateSaidSafe(c, at, z);
    }
  }

  lemma TakenSafe(c: Cluster, a: Action)
    requires Safe(c) && AppliedOk(c) && |c.nodes| > 0
    ensures Safe(Taken(c, a)) && AppliedOk(Taken(c, a)) && Taken(c, a).nodes == c.nodes && Taken(c, a).hist == c.hist
    ensures Taken(c, a).appends <= c.appends && Taken(c, a).votes <= c.votes
  {
    hide Safe, Taken, Enabled, Do, AllBacked, Sane, Base, Fair, Matched, OneWinner;
    SafeParts(c);
    var l := TakenIsLost(c, a);
    if Taken(c, a) != c {
      StepSafe(c, l);
    }
  }

  // ------------------------------------------------------------------ theorems

  lemma {:induction false} RunWorldSafe(run: WorldRun, n: nat, k: nat)
    requires ValidWorld(run, n) && OrderlyWorld(run) && k < |run.states|
    ensures WorldSafe(run.states[k]) && |run.states[k].live.nodes| == n
  {
    hide WorldOk, Safe, KilledSafe, MoveEnabled, WorldReady, Next, OrderlyMove, AllBacked, Matched, KilledMatched;
    RunWorldOk(run, n, k);
    if k == 0 {
      InitSafe(n);
    } else {
      RunWorldSafe(run, n, k - 1);
      RunWorldOk(run, n, k - 1);
      assert Moves(run, k - 1) && OrderlyMove(run.states[k - 1], run.moves[k - 1]);
      MoveSafe(run.states[k - 1], run.moves[k - 1]);
    }
  }

  lemma InitSafe(n: nat)
    requires n >= 1
    ensures Safe(Init(n)) && AppliedOk(Init(n)) && Matched(Init(n))
  {
    hide Base, Fair, Matched, Kept;
    InitBase(n);
    InitFair(n);
    InitMatched(n);
    InitKept(n);
  }

  lemma MoveSafe(w: World, m: Move)
    requires WorldSafe(w) && WorldReady(w) && MoveEnabled(w, m) && |w.live.nodes| > 0 && OrderlyMove(w, m)
    ensures WorldSafe(Next(w, m))
  {
    hide WorldSafe, WorldReady, Enabled, LateEnabled;
    match m
    case Live(a) => LiveSafe(w, a);
    case Late(at, a) => LateSafe(w, at, a);
  }

  /** State Machine Safety: no two instances, running or killed, ever apply different commands at an index. */
  lemma StateMachineSafety(run: WorldRun, n: nat, k: nat, a: Instance, b: Instance, x: nat, y: nat)
    requires ValidWorld(run, n) && OrderlyWorld(run) && k < |run.states|
    requires x < |SaidBy(run.states[k], a)| && y < |SaidBy(run.states[k], b)|
    requires SaidBy(run.states[k], a)[x].index == SaidBy(run.states[k], b)[y].index
    ensures SaidBy(run.states[k], a)[x].cmd == SaidBy(run.states[k], b)[y].cmd
  {
    hide WorldMatched, Safe, Backed, NodeSafe;
    RunWorldSafe(run, n, k);
    var w := run.states[k];
    SaidIsBacked(w, a);
    SaidIsBacked(w, b);
    BackedAgree(w.live, SaidBy(w, a)[x], SaidBy(w, b)[y]);
  }

  lemma SaidIsBacked(w: World, at: Instance)
    requires WorldSafe(w)
    ensures AllBacked(w.live.hist, |w.live.nodes|, SaidBy(w, at))
  {
    hide WorldMatched, Safe, AllBacked, NodeSafe;
    if at in w.killed {
      assert KilledSafe(w.live, at, w.killed[at]);
    }
  }
}
