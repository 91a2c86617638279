/**
 What instances hand to their services: the numbering needs no assumption on the
 run, the contents follow from what leaders committed.
 */
module RaftApply {
  import opened RaftLog
  import opened RaftNode
  import opened RaftCluster
  import opened RaftShape
  import opened RaftElection
  import opened RaftMatching
  import opened RaftSafety
  import opened RaftSteps
  import opened RaftTheorems

  // ------------------------------------------------------------ the numbering

  predicate InSequence(msgs: seq<ApplyMsg>) {
    forall x :: 0 <= x < |msgs| ==> msgs[x].index == x + 1
  }

  /** An instance has handed over indices 1, 2, 3, ..., as many as it counts; future instances nothing. */
  ghost predicate Numbered(c: Cluster, at: Instance) {
    var msgs := AppliedBy(c.hist, at);
    && InSequence(msgs)
    && (at.node < |c.nodes| && at.node < |c.epochs| ==>
          && (at.epoch == c.epochs[at.node] ==> |msgs| == c.nodes[at.node].lastApplied)
          && (at.epoch > c.epochs[at.node] ==> msgs == []))
  }

  ghost predicate AllNumbered(c: Cluster) {
    forall at: Instance :: Numbered(c, at)
  }

  ghost predicate AppliesNothing(c: Cluster, c': Cluster) {
    && c'.hist.applied == c.hist.applied && c'.epochs == c.epochs && c.hist.commits <= c'.hist.commits
    && |c'.nodes| == |c.nodes|
    && forall i :: 0 <= i < |c.nodes| ==> c'.nodes[i].lastApplied == c.nodes[i].lastApplied
  }

  lemma ElectionsApplyNothing(c: Cluster, a: Action)
    requires Sane(c) && Enabled(c, a) && (a.Elect? || a.HandleVote? || a.RecvVote?)
    ensures AppliesNothing(c, Do(c, a))
  {
    hide Shape, UpToDate, IndicesValid;
  }

  lemma AppendsApplyNothing(c: Cluster, a: Action)
    requires Sane(c) && Enabled(c, a) && (a.SendAppend? || a.HandleAppend? || a.RecvAppend? || a.Propose?)
    ensures AppliesNothing(c, Do(c, a))
  {
    hide Shape, Sync, CommitFrom, Refuses, ConflictOf;
  }

  lemma BeatsApplyNothing(c: Cluster, a: Action)
    requires Sane(c) && Enabled(c, a)
    requires a.Beat? || a.HandleBeat? || a.RecvBeat? || a.LoseVote? || a.LoseBeat? || a.LoseAppend?
    ensures AppliesNothing(c, Do(c, a))
  {
    hide NodeOk;
  }

  lemma OtherStepsApplyNothing(c: Cluster, a: Action)
    requires Sane(c) && Enabled(c, a) && !a.ApplyOne? && !a.Restart?
    ensures AppliesNothing(c, Do(c, a))
  {
    hide NodeOk, AppliesNothing;
    if a.Elect? || a.HandleVote? || a.RecvVote? {
      ElectionsApplyNothing(c, a);
    } else if a.SendAppend? || a.HandleAppend? || a.RecvAppend? || a.Propose? {
      AppendsApplyNothing(c, a);
    } else {
      BeatsApplyNothing(c, a);
    }
  }

  lemma ApplyNumbered(c: Cluster, i: nat)
    requires AllNumbered(c) && |c.epochs| == |c.nodes| && Enabled(c, ApplyOne(i))
    ensures AllNumbered(DoApply(c, i))
  {
    forall at: Instance
      ensures Numbered(DoApply(c, i), at)
    {
      assert Numbered(c, at);
    }
  }

  lemma RestartNumbered(c: Cluster, i: nat)
    requires Sane(c) && AllNumbered(c) && Enabled(c, Restart(i))
    ensures AllNumbered(DoRestart(c, i))
  {
    hide InSequence;
    RestartKeepsDurable(c.nodes[i]);
    forall at: Instance
      ensures Numbered(DoRestart(c, i), at)
    {
      assert Numbered(c, at);
    }
  }

  lemma StepNumbered(c: Cluster, a: Action)
    requires Sane(c) && AllNumbered(c) && Enabled(c, a)
    ensures AllNumbered(Do(c, a))
  {
    hide NodeOk, InSequence;
    match a
    case ApplyOne(i) => ApplyNumbered(c, i);
    case Restart(i) => RestartNumbered(c, i);
    case _ =>
      OtherStepsApplyNothing(c, a);
      NothingNewNumbered(c, Do(c, a));
  }

  lemma NothingNewNumbered(c: Cluster, c': Cluster)
    requires AllNumbered(c) && AppliesNothing(c, c')
    ensures AllNumbered(c')
  {
    hide InSequence;
    forall at: Instance
      ensures Numbered(c', at)
    {
      assert Numbered(c, at);
    }
  }

  // ------------------------------------------------------------- the contents

  /** The message is what some leader committed at its index. */
  ghost predicate Backed(h: History, n: nat, m: ApplyMsg) {
    exists cm :: CommitOk(h, n, cm) && 0 <= m.index < |cm.prefix| && cm.prefix[m.index].cmd == m.cmd
  }

  ghost predicate AllBacked(h: History, n: nat, msgs: seq<ApplyMsg>) {
    forall x :: 0 <= x < |msgs| ==> Backed(h, n, msgs[x])
  }

  /** Commits by counting stay what they are. */
  ghost predicate CommitsStay(h: History, h': History, n: nat) {
    forall cm :: CommitOk(h, n, cm) ==> CommitOk(h', n, cm)
  }

  lemma BackedStays(h: History, h': History, n: nat, m: ApplyMsg)
    requires Backed(h, n, m) && CommitsStay(h, h', n)
    ensures Backed(h', n, m)
  {
    hide CommitOk;
    var cm :| CommitOk(h, n, cm) && 0 <= m.index < |cm.prefix| && cm.prefix[m.index].cmd == m.cmd;
    assert CommitOk(h', n, cm);
  }

  lemma AllBackedStays(h: History, h': History, n: nat, msgs: seq<ApplyMsg>)
    requires AllBacked(h, n, msgs) && CommitsStay(h, h', n)
    ensures AllBacked(h', n, msgs)
  {
    hide Backed, CommitsStay;
    forall x | 0 <= x < |msgs|
      ensures Backed(h', n, msgs[x])
    {
      BackedStays(h, h', n, msgs[x]);
    }
  }

  /** The next command a node applies is the one some leader committed there. */
  lemma NextIsBacked(c: Cluster, i: nat)
    requires Safe(c) && i < |c.nodes| && CanApply(c.nodes[i])
    ensures Backed(c.hist, |c.nodes|, NextMsg(c.nodes[i]))
  {
    hide Base, Fair, Matched, Kept, Agree;
    var s := c.nodes[i];
    var cm := NodeCommitted(c, i);
    CommitIsOk(c, cm);
    EntryIsBacked(c.hist, |c.nodes|, s.log, cm, s.commitIndex, s.lastApplied + 1);
  }

  lemma EntryIsBacked(h: History, n: nat, log: Log, cm: Commit, upto: int, x: int)
    requires CommitOk(h, n, cm) && Agree(log, h.termLogs[cm.term], upto) && 0 <= x <= upto <= cm.index && x < |log|
    ensures Backed(h, n, ApplyMsg(x, log[x].cmd))
  {
    hide Majority, Ackers;
    AgreeAt(log, h.termLogs[cm.term], upto, x);
    assert cm.prefix[x] == log[x];
  }

  ghost predicate AppliedOk(c: Cluster) {
    forall at: Instance :: AllBacked(c.hist, |c.nodes|, AppliedBy(c.hist, at))
  }

  lemma StepApplied(c: Cluster, a: Action)
    requires Safe(c) && AppliedOk(c) && Enabled(c, a) && CommitsStay(c.hist, Do(c, a).hist, |c.nodes|)
    requires |Do(c, a).nodes| == |c.nodes|
    ensures AppliedOk(Do(c, a))
  {
    hide Base, Fair, Matched, Kept, AllBacked, Backed, CommitsStay;
    BaseIsSane(c);
    var c' := Do(c, a);
    if !a.ApplyOne? && !a.Restart? {
      OtherStepsApplyNothing(c, a);
    }
    forall at: Instance
      ensures AllBacked(c'.hist, |c.nodes|, AppliedBy(c'.hist, at))
    {
      if a.ApplyOne? && at == Instance(a.i, c.epochs[a.i]) {
        NextIsBacked(c, a.i);
        MoreBacked(c.hist, |c.nodes|, AppliedBy(c.hist, at), NextMsg(c.nodes[a.i]));
        AllBackedStays(c.hist, c'.hist, |c.nodes|, AppliedBy(c'.hist, at));
      } else {
        AllBackedStays(c.hist, c'.hist, |c.nodes|, AppliedBy(c.hist, at));
      }
    }
  }

  lemma MoreBacked(h: History, n: nat, msgs: seq<ApplyMsg>, m: ApplyMsg)
    requires AllBacked(h, n, msgs) && Backed(h, n, m)
    ensures AllBacked(h, n, msgs + [m])
  {
    hide Backed;
  }

  /** Two committed messages with one index carry one command. */
  lemma BackedAgree(c: Cluster, m: ApplyMsg, m': ApplyMsg)
    requires Safe(c) && Backed(c.hist, |c.nodes|, m) && Backed(c.hist, |c.nodes|, m') && m.index == m'.index
    ensures m.cmd == m'.cmd
  {
    hide Base, Fair, Matched, Kept, Agree, Majority, Ackers;
    var n := |c.nodes|;
    var v :| CommitOk(c.hist, n, v) && 0 <= m.index < |v.prefix| && v.prefix[m.index].cmd == m.cmd;
    var w :| CommitOk(c.hist, n, w) && 0 <= m'.index < |w.prefix| && w.prefix[m'.index].cmd == m'.cmd;
    CommitsAgree(c, v, w, m.index);
    AgreeAt(c.hist.termLogs[v.term], c.hist.termLogs[w.term], m.index, m.index);
  }

  // ------------------------------------------------------ commits outlive steps

  /** No step takes an acknowledgement back. */
  lemma StepRaisesAcks(c: Cluster, a: Action, t: nat, p: nat)
    requires Sane(c) && Enabled(c, a)
    ensures AckOf(c.hist, t, p) <= AckOf(Do(c, a).hist, t, p)
  {
    hide NodeOk, Sync, CommitFrom, Refuses, ConflictOf, UpToDate;
    match a
    case _ =>
  }

  lemma StepCommitsStay(c: Cluster, a: Action)
    requires Sane(c) && Enabled(c, a) && Grows(c.hist.termLogs, Do(c, a).hist.termLogs)
    ensures CommitsStay(c.hist, Do(c, a).hist, |c.nodes|)
  {
    hide Sane, Do, Enabled;
    var h, h', n := c.hist, Do(c, a).hist, |c.nodes|;
    forall cm | CommitOk(h, n, cm)
      ensures CommitOk(h', n, cm)
    {
      forall p: nat
        ensures AckOf(h, cm.term, p) <= AckOf(h', cm.term, p)
      {
        StepRaisesAcks(c, a, cm.term, p);
      }
      CommitStays(h, h', n, cm);
    }
  }
}
