/**
 What acknowledgements and commits mean. The step-by-step invariant is local: a
 node that acknowledged an index either still has that prefix, or some later
 term was won without it. Leader Completeness then follows in every single
 state, by induction on terms and majority intersection.
 */
module RaftSafety {
  import opened RaftLog
  import opened RaftNode
  import opened RaftCluster
  import opened RaftShape
  import opened RaftElection
  import opened RaftMatching

  // --------------------------------------------------------------- invariant

  /** Some term after T, up to `upto`, was won with a log that differs from the log of T at or below m. */
  ghost predicate Broken(h: History, T: nat, m: int, upto: int) {
    T in h.termLogs && exists w :: w in h.wins && T < w.term <= upto && !Agree(w.log, h.termLogs[T], m)
  }

  /** The log has what the leader of T had up to m, or a later winner is to blame. */
  ghost predicate Excused(log: Log, h: History, T: nat, m: int, upto: int) {
    T in h.termLogs && (Agree(log, h.termLogs[T], m) || Broken(h, T, m, upto))
  }

  /** Everything node p acknowledged in terms below `below` is in the log, or excused by winners up to `upto`. */
  ghost predicate Keeps(log: Log, h: History, p: nat, below: int, upto: int) {
    forall T: nat, m: int :: T < below && 0 <= m <= AckOf(h, T, p) ==> Excused(log, h, T, m, upto)
  }

  ghost predicate AckOk(c: Cluster, T: nat, p: nat) {
    AckOf(c.hist, T, p) >= 0 ==>
      && p < |c.nodes|
      && T <= c.nodes[p].term
      && T in c.hist.termLogs
      && AckOf(c.hist, T, p) < |c.hist.termLogs[T]|
  }

  ghost predicate WinKeeps(h: History, w: Win) {
    forall b :: b in w.quorum ==> Keeps(b.log, h, b.voter, w.term, w.term - 1)
  }

  ghost function Ackers(h: History, T: nat, m: int, n: nat): set<nat> {
    set p | p in Ids(n) && AckOf(h, T, p) >= m
  }

  /** A committed index: an entry of the committing leader's own term, acknowledged by a majority. */
  ghost predicate CommitOk(h: History, n: nat, cm: Commit) {
    && cm.term in h.termLogs
    && 1 <= cm.index < |h.termLogs[cm.term]|
    && h.termLogs[cm.term][cm.index].term == cm.term
    && cm.prefix == h.termLogs[cm.term][..cm.index + 1]
    && Majority(Ackers(h, cm.term, cm.index, n), n)
  }

  /** An index is covered: some commit of a term up to `upto` reaches it. */
  ghost predicate Covered(h: History, index: int, upto: int) {
    exists cm :: cm in h.commits && cm.term <= upto && index <= cm.index
  }

  /** What a node holds committed was committed by a leader, and the node acknowledged it in that term or later. */
  ghost predicate Justified(h: History, p: nat, index: int, term: nat) {
    index <= 0
    || exists cm, t: nat :: cm in h.commits && cm.term <= t <= term && index <= cm.index && index <= AckOf(h, t, p)
  }

  ghost predicate CallKept(h: History, k: AppendCall) {
    && k.args.commit <= EndOf(k.args)
    && (k.args.commit <= 0 || Covered(h, k.args.commit, k.args.term))
    && (k.reply.Some? && k.reply.value.success ==> EndOf(k.args) <= AckOf(h, k.args.term, k.peer))
  }

  /** A leader's match indices are acknowledgements, and it has acknowledged its own log. */
  ghost predicate TallyOk(c: Cluster, i: nat)
    requires i < |c.nodes|
  {
    var s := c.nodes[i];
    s.role == Leader ==>
      && AckOf(c.hist, s.term, i) >= |s.log| - 1
      && forall p :: 0 <= p < |s.matchIndex| && p != i ==>
           s.matchIndex[p] <= 0 || s.matchIndex[p] <= AckOf(c.hist, s.term, p)
  }

  ghost predicate Kept(c: Cluster) {
    && (forall T: nat, p: nat :: AckOk(c, T, p))
    && (forall p :: 0 <= p < |c.nodes| ==> Keeps(c.nodes[p].log, c.hist, p, c.nodes[p].term + 1, c.nodes[p].term))
    && (forall b :: b in c.hist.ballots ==> Keeps(b.log, c.hist, b.voter, b.term, b.term))
    && (forall w :: w in c.hist.wins ==> WinKeeps(c.hist, w))
    && (forall cm :: cm in c.hist.commits ==> CommitOk(c.hist, |c.nodes|, cm))
    && (forall i :: 0 <= i < |c.nodes| ==> Justified(c.hist, i, c.nodes[i].commitIndex, c.nodes[i].term))
    && (forall i :: 0 <= i < |c.nodes| ==> TallyOk(c, i))
    && (forall k :: k in c.appends ==> CallKept(c.hist, k))
  }

  /** All that holds in every state of a run with timely votes, timely heartbeats and in-order appends. */
  ghost predicate Safe(c: Cluster) {
    Base(c) && Fair(c) && Matched(c) && Kept(c)
  }

  lemma InitKept(n: nat)
    ensures Kept(Init(n))
  {
  }

  // ---------------------------------------------- what one state already implies

  lemma CommitIsOk(c: Cluster, cm: Commit)
    requires Kept(c) && cm in c.hist.commits
    ensures CommitOk(c.hist, |c.nodes|, cm)
  {
  }

  /**
   Leader Completeness, in one state: whoever won a later term won it with the
   whole committed prefix. The quorum that elected w meets the quorum that
   acknowledged m; their common node voted with the prefix in its log, unless an
   earlier winner lacked it, and induction on terms rules that out.
   */
  lemma {:induction false} WinnersComplete(c: Cluster, cm: Commit, w: Win)
    requires Safe(c) && CommitOk(c.hist, |c.nodes|, cm) && w in c.hist.wins && cm.term < w.term
    ensures Agree(w.log, c.hist.termLogs[cm.term], cm.index)
    decreases w.term
  {
    hide Base, Fair, Matched, Matches, Shape, Agree, CallKept;
    var h, T, m := c.hist, cm.term, cm.index;
    var b := SharedVoter(c, cm, w);
    assert Excused(b.log, h, T, m, w.term - 1);
    if Broken(h, T, m, w.term - 1) {
      var v :| v in h.wins && T < v.term <= w.term - 1 && !Agree(v.log, h.termLogs[T], m);
      WinnersComplete(c, cm, v);
      assert false;
    }
    VoterIsBehind(c, cm, w, b);
    var v := LastLeader(c, w);
    if v.term > T {
      WinnersComplete(c, cm, v);
      LaterTermCovers(c, cm, w, v);
    } else {
      SameTermCovers(c, cm, w, b);
    }
  }

  /** The voter in both majorities, with all it acknowledged at stake. */
  lemma SharedVoter(c: Cluster, cm: Commit, w: Win) returns (b: Ballot)
    requires Safe(c) && CommitOk(c.hist, |c.nodes|, cm) && w in c.hist.wins
    ensures b in w.quorum && b in c.hist.ballots && b.term == w.term && b.cand == w.node
    ensures AckOf(c.hist, cm.term, b.voter) >= cm.index
    ensures Keeps(b.log, c.hist, b.voter, w.term, w.term - 1)
    ensures BallotOk(c, b)
  {
    hide Base, Matched, Keeps, CallKept, AckOk, Justified, CountOk, GrantOk;
    assert QuorumOk(c, w) && WinKeeps(c.hist, w);
    var p := MajoritiesMeet(Ackers(c.hist, cm.term, cm.index, |c.nodes|), Voters(w.quorum), |c.nodes|);
    b :| b in w.quorum && b.voter == p;
    assert b in c.hist.ballots;
  }

  /** The winner's last term is at least T: it passed the check of a voter that holds an entry of T. */
  lemma VoterIsBehind(c: Cluster, cm: Commit, w: Win, b: Ballot)
    requires Base(c) && Matched(c) && w in c.hist.wins && cm.term < w.term && BallotOk(c, b)
    requires b.term == w.term && b.cand == w.node
    requires CommitOk(c.hist, |c.nodes|, cm) && Agree(b.log, c.hist.termLogs[cm.term], cm.index)
    ensures w.log != [] && b.log != [] && 1 <= cm.term <= LastTerm(w.log) < w.term
    ensures UpToDate(|w.log| - 1, LastTerm(w.log), b.log)
    ensures LastTerm(b.log) >= cm.term
  {
    hide Sane, Matches, AppendCallOk, VoteCallOk, CandidateOk, LeaderOk, CallMatched, OwnsLog, Majority;
    assert WinOk(c, w) && WinMatched(c.hist.termLogs, w);
    AgreeAt(b.log, c.hist.termLogs[cm.term], cm.index, cm.index);
    assert b.log[cm.index].term <= b.log[|b.log| - 1].term;
    assert b.log[cm.index].term >= 1;
  }

  /** The leader whose entry ends the winner's log; up to there the two logs are one. */
  lemma LastLeader(c: Cluster, w: Win) returns (v: Win)
    requires Matched(c) && w in c.hist.wins && w.log != [] && LastTerm(w.log) >= 1
    ensures v in c.hist.wins && v.term == LastTerm(w.log)
    ensures v.term in c.hist.termLogs && Agree(w.log, c.hist.termLogs[v.term], |w.log| - 1)
    ensures WinMatched(c.hist.termLogs, v)
  {
    hide Shape, CallMatched, OwnsLog;
    var tl := c.hist.termLogs;
    assert WinMatched(tl, w);
    assert w.log == tl[w.term][..|w.log|];
    MatchesPrefix(tl[w.term], tl, |w.log|);
    assert w.log[0] == SENTINEL;
    assert MatchesAt(w.log, tl, |w.log| - 1);
    v :| v in c.hist.wins && v.term == LastTerm(w.log);
  }

  /** The winner ends in an entry of a term after T whose winner had the prefix. */
  lemma LaterTermCovers(c: Cluster, cm: Commit, w: Win, v: Win)
    requires w.log != [] && v.term == LastTerm(w.log) && WinMatched(c.hist.termLogs, v)
    requires Agree(w.log, c.hist.termLogs[v.term], |w.log| - 1)
    requires cm.term in c.hist.termLogs && Agree(v.log, c.hist.termLogs[cm.term], cm.index)
    ensures Agree(w.log, c.hist.termLogs[cm.term], cm.index)
  {
    hide Shape, Matches;
    var whole := c.hist.termLogs[v.term];
    AgreeAt(w.log, whole, |w.log| - 1, |w.log| - 1);
    assert forall i :: 0 <= i < |v.log| ==> v.log[i] == whole[i];
    AgreeDown(w.log, whole, |w.log| - 1, cm.index);
    PrefixAgrees(v.log, whole);
    AgreeDown(v.log, whole, |v.log| - 1, cm.index);
  }

  /** The winner ends in an entry of T itself, and its log is as long as the voter's. */
  lemma SameTermCovers(c: Cluster, cm: Commit, w: Win, b: Ballot)
    requires w.log != [] && b.log != [] && cm.term == LastTerm(w.log) && cm.term in c.hist.termLogs
    requires Agree(w.log, c.hist.termLogs[cm.term], |w.log| - 1)
    requires Agree(b.log, c.hist.termLogs[cm.term], cm.index)
    requires UpToDate(|w.log| - 1, LastTerm(w.log), b.log) && LastTerm(b.log) >= cm.term
    ensures Agree(w.log, c.hist.termLogs[cm.term], cm.index)
  {
    AgreeDown(w.log, c.hist.termLogs[cm.term], |w.log| - 1, cm.index);
  }

  /** Every log of a later term contains what was committed. */
  lemma LaterTermsComplete(c: Cluster, cm: Commit, t: nat)
    requires Safe(c) && CommitOk(c.hist, |c.nodes|, cm) && cm.term <= t && t in c.hist.termLogs
    ensures cm.term in c.hist.termLogs && Agree(c.hist.termLogs[t], c.hist.termLogs[cm.term], cm.index)
  {
    hide Base, Fair, Matches, Shape, CallKept, Justified, Keeps, WinKeeps, AckOk, CallMatched, OwnsLog;
    if t > cm.term {
      var w :| w in c.hist.wins && w.term == t;
      assert WinMatched(c.hist.termLogs, w);
      WinnersComplete(c, cm, w);
      PrefixAgrees(w.log, c.hist.termLogs[t]);
      AgreeDown(w.log, c.hist.termLogs[t], |w.log| - 1, cm.index);
    }
  }

  /** Two commits never disagree. */
  lemma CommitsAgree(c: Cluster, a: Commit, b: Commit, index: int)
    requires Safe(c) && CommitOk(c.hist, |c.nodes|, a) && CommitOk(c.hist, |c.nodes|, b)
    requires 0 <= index <= a.index && index <= b.index
    ensures a.term in c.hist.termLogs && b.term in c.hist.termLogs
    ensures Agree(c.hist.termLogs[a.term], c.hist.termLogs[b.term], index)
  {
    hide Base, Fair, Matched, Shape, CallKept, Justified, Keeps, WinKeeps, AckOk;
    if a.term <= b.term {
      LaterTermsComplete(c, a, b.term);
      AgreeDown(c.hist.termLogs[b.term], c.hist.termLogs[a.term], a.index, index);
    } else {
      LaterTermsComplete(c, b, a.term);
      AgreeDown(c.hist.termLogs[a.term], c.hist.termLogs[b.term], b.index, index);
    }
  }

  /** What a node acknowledged, as long as it is committed, is in its log: nobody is to blame. */
  lemma CommittedIsHeld(c: Cluster, cm: Commit, t: nat, p: nat, index: int)
    requires Safe(c) && CommitOk(c.hist, |c.nodes|, cm) && p < |c.nodes|
    requires cm.term <= t <= c.nodes[p].term && 0 <= index <= cm.index && index <= AckOf(c.hist, t, p)
    ensures cm.term in c.hist.termLogs && Agree(c.nodes[p].log, c.hist.termLogs[cm.term], index)
  {
    hide Base, Fair, Matched, Shape, CallKept, Justified, WinKeeps, Agree;
    var h := c.hist;
    assert AckOk(c, t, p);
    LaterTermsComplete(c, cm, t);
    AgreeDown(h.termLogs[t], h.termLogs[cm.term], cm.index, index);
    assert Excused(c.nodes[p].log, h, t, index, c.nodes[p].term);
    if Broken(h, t, index, c.nodes[p].term) {
      var w :| w in h.wins && t < w.term <= c.nodes[p].term && !Agree(w.log, h.termLogs[t], index);
      WinnersComplete(c, cm, w);
      AgreeDown(w.log, h.termLogs[cm.term], cm.index, index);
      AgreeFlip(h.termLogs[t], h.termLogs[cm.term], index);
      AgreeJoin(w.log, h.termLogs[cm.term], h.termLogs[t], index);
      assert false;
    }
    AgreeJoin(c.nodes[p].log, h.termLogs[t], h.termLogs[cm.term], index);
  }

  lemma AgreeFlip(a: Log, b: Log, k: int)
    requires Agree(a, b, k)
    ensures Agree(b, a, k)
  {
  }

  /** Every index a node considers committed is one a leader committed, and its log agrees there. */
  lemma NodeCommitted(c: Cluster, i: nat) returns (cm: Commit)
    requires Safe(c) && i < |c.nodes| && c.nodes[i].commitIndex > 0
    ensures cm in c.hist.commits && c.nodes[i].commitIndex <= cm.index
    ensures cm.term <= c.nodes[i].term && cm.term in c.hist.termLogs
    ensures Agree(c.nodes[i].log, c.hist.termLogs[cm.term], c.nodes[i].commitIndex)
  {
    hide Base, Fair, Matched, Shape, CallKept, Keeps, WinKeeps, Agree, AckOk, CommitOk;
    var s := c.nodes[i];
    assert Justified(c.hist, i, s.commitIndex, s.term);
    var cm0, t: nat :| cm0 in c.hist.commits && cm0.term <= t <= s.term && s.commitIndex <= cm0.index
                       && s.commitIndex <= AckOf(c.hist, t, i);
    CommitIsOk(c, cm0);
    CommittedIsHeld(c, cm0, t, i, s.commitIndex);
    cm := cm0;
  }
}
