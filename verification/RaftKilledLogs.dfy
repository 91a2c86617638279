/**
 Log Matching with killed instances. A killed instance may be given commands that
 no other node ever sees; below those, its log is part of the one history.
 */
module RaftKilledLogs {
  import opened RaftLog
  import opened RaftNode
  import opened RaftCluster
  import opened RaftShape
  import opened RaftMatching
  import opened RaftTheorems
  import opened RaftBacktrack
  import opened RaftKilled

  ghost predicate KilledMatched(h: History, z: Killed) {
    z.own <= |z.s.log| && Matches(z.s.log[..z.own], h.termLogs)
  }

  ghost predicate WorldMatched(w: World) {
    && WorldOk(w) && Matched(w.live)
    && forall at :: at in w.killed ==> KilledMatched(w.live.hist, w.killed[at])
  }

  // ------------------------------------------------------------- one batch

  lemma RunCut(a: Log, b: Log, m: nat)
    requires TermRun(a, b) <= m <= |a|
    ensures TermRun(a[..m], b) == TermRun(a, b)
  {
    hide TermRun;
    assert forall i :: 0 <= i < m ==> a[..m][i] == a[i];
  }

  /** A batch that leaves nothing above `own` in place does not see what is above it. */
  lemma CutSync(log: Log, own: nat, a: AppendArgs)
    requires 0 <= a.prev < |log| && a.entries != [] && HeldUpto(log, a) <= own <= |log|
    ensures Sync(log, a.prev + 1, a.entries) == Sync(log[..own], a.prev + 1, a.entries)
    ensures a.prev < own
  {
    hide TermRun;
    var at := a.prev + 1;
    RunCut(log[at..], a.entries, own - at);
    assert log[..own][at..] == log[at..][..own - at];
    SyncIs(log, a);
    SyncIs(log[..own], a);
    assert log[..own][..HeldUpto(log, a)] == log[..HeldUpto(log, a)];
  }

  /** A batch from the cluster, over any log whose lower part is in order. */
  lemma BatchIn(c: Cluster, log: Log, k: AppendCall)
    requires Matched(c) && k in c.appends && Matches(log, c.hist.termLogs)
    requires !Refuses(log, k.args.prev, k.args.prevTerm)
    ensures Accepted(log, Sync(log, k.args.prev + 1, k.args.entries), c.hist.termLogs, k.args)
    ensures k.args.prev >= 0
  {
    hide Sync, Shape, Matches, OwnsLog;
    assert CallMatched(c.hist, k.args);
    var w :| w in c.hist.wins && w.term == k.args.term;
    assert WinMatched(c.hist.termLogs, w);
    AcceptedBatch(log, c.hist, k.args);
  }

  lemma CutRefuses(log: Log, own: nat, a: AppendArgs)
    requires 0 <= a.prev < own <= |log| && !Refuses(log, a.prev, a.prevTerm)
    ensures !Refuses(log[..own], a.prev, a.prevTerm)
  {
  }

  lemma LateBatchMatched(c: Cluster, z: Killed, k: AppendCall)
    requires Base(c) && Matched(c) && k in c.appends && KilledMatched(c.hist, z) && Accepts(z.s, k.args)
    requires k.args.entries != [] && z.s.log != []
    ensures 0 <= k.args.prev < |z.s.log|
    ensures HeldUpto(z.s.log, k.args) <= z.own ==>
      var log := Sync(z.s.log, k.args.prev + 1, k.args.entries); Matches(log[..|log|], c.hist.termLogs)
    ensures HeldUpto(z.s.log, k.args) > z.own ==>
      var log := Sync(z.s.log, k.args.prev + 1, k.args.entries);
      z.own <= |log| && Matches(log[..z.own], c.hist.termLogs)
  {
    hide Base, Matched, Sync, Matches, HeldUpto, Refuses;
    var log, a := z.s.log, k.args;
    PrevKnown(c, k);
    AcceptedPrev(log, a);
    BatchOver(log, a);
    var out := Sync(log, a.prev + 1, a.entries);
    if HeldUpto(log, a) <= z.own {
      CutSync(log, z.own, a);
      CutRefuses(log, z.own, a);
      BatchIn(c, log[..z.own], k);
      assert out[..|out|] == out;
    } else {
      assert out[..z.own] == out[..HeldUpto(log, a)][..z.own];
      assert log[..z.own] == log[..HeldUpto(log, a)][..z.own];
    }
  }

  // -------------------------------------------------------------- every move

  lemma LateMatched(c: Cluster, at: Instance, z: Killed, a: Action)
    requires Base(c) && Matched(c) && at.node < |c.nodes| && NodeReady(z.s, |c.nodes|, a)
    requires LateEnabled(c, at, z.s, a) && KilledMatched(c.hist, z)
    ensures KilledMatched(c.hist, LateKilled(z, at.node, |c.nodes|, a))
  {
    hide Base, Matched, Matches, Sync, HeldUpto, Refuses, ConflictOf, CommitFrom, UpToDate, LateVote;
    if a.HandleAppend? && Accepts(z.s, a.append.args) {
      if a.append.args.entries != [] {
        LateBatchMatched(c, z, a.append);
      } else {
        SyncNothing(z.s.log, a.append.args.prev + 1);
      }
    } else if a.Propose? {
      assert (z.s.log + [Entry(z.s.term, a.cmd)])[..z.own] == z.s.log[..z.own];
    }
  }

  lemma LateMoveMatched(w: World, at: Instance, a: Action)
    requires WorldMatched(w) && MoveEnabled(w, Late(at, a)) && |w.live.nodes| > 0
    requires OneWinner(w.live.hist)
    ensures WorldReady(w) && WorldMatched(DoLate(w, at, a))
  {
    hide WorldOk, Matched, KilledMatched, LateKilled, LateEnabled, Taken, NodeReady, WorldReady, OneWinner;
    WorldIsReady(w);
    WorldBase(w);
    LateOk(w, at, a);
    ReadyForLate(w, at, a);
    LateMatched(w.live, at, w.killed[at], a);
    TakenMatched(w.live, a);
  }

  lemma TakenMatched(c: Cluster, a: Action)
    requires Base(c) && Matched(c) && |c.nodes| > 0 && OneWinner(c.hist)
    ensures Matched(Taken(c, a)) && Taken(c, a).hist == c.hist
  {
    hide Base, Matched, Taken, Enabled, Do, OneWinner;
    BaseIsSane(c);
    var l := TakenIsLost(c, a);
    if Taken(c, a) != c {
      StepMatched(c, l);
    }
  }

  lemma LiveMoveMatched(w: World, a: Action)
    requires WorldMatched(w) && Enabled(w.live, a) && |w.live.nodes| > 0
    requires WorldReady(w) && OneWinner(DoLive(w, a).live.hist) && OneWinner(w.live.hist)
    ensures WorldMatched(DoLive(w, a))
  {
    hide WorldOk, Matches, Do, Enabled, WorldReady, OneWinner, WinMatched, OwnsLog, CallMatched, Base;
    WorldBase(w);
    BaseIsSane(w.live);
    LiveOk(w, a);
    StepMatched(w.live, a);
    RaftBacktrack.StepGrows(w.live, a);
    var w' := DoLive(w, a);
    if a.Restart? {
      RestartIs(w.live, a.i);
    }
    forall at | at in w'.killed
      ensures KilledMatched(w'.live.hist, w'.killed[at])
    {
      var z := w'.killed[at];
      if a.Restart? && at == Instance(a.i, w.live.epochs[a.i]) {
        assert z.s.log[..|z.s.log|] == z.s.log;
      } else {
        assert KilledMatched(w.live.hist, w.killed[at]);
      }
      MatchesGrows(z.s.log[..z.own], w.live.hist.termLogs, w'.live.hist.termLogs);
    }
  }

  lemma WorldWinsStay(w: World, m: Move)
    requires WorldOk(w) && WorldReady(w) && MoveEnabled(w, m)
    ensures w.live.hist.wins <= Next(w, m).live.hist.wins
  {
    hide WorldOk, NodeOk, Do, Enabled, LateKilled, Base;
    WorldBase(w);
    match m
    case Live(a) => WinsStay(w.live, a);
    case Late(at, a) => var l := TakenIsLost(w.live, a);
  }

  lemma {:induction false} RunWorldMatched(run: WorldRun, n: nat, k: nat)
    requires ValidWorld(run, n) && k < |run.states| && OneWinner(run.states[k].live.hist)
    ensures WorldMatched(run.states[k]) && |run.states[k].live.nodes| == n
  {
    hide WorldOk, Matched, KilledMatched, WorldReady, DoLive, DoLate;
    RunWorldOk(run, n, k);
    if k == 0 {
      InitMatched(n);
    } else {
      var w, m := run.states[k - 1], run.moves[k - 1];
      assert Moves(run, k - 1);
      RunWorldOk(run, n, k - 1);
      WorldWinsStay(w, m);
      RunWorldMatched(run, n, k - 1);
      match m
      case Live(a) => LiveMoveMatched(w, a);
      case Late(at, a) => LateMoveMatched(w, at, a);
    }
  }

  // ------------------------------------------------------------------ theorem

  predicate Exists(w: World, at: Instance) {
    at in w.killed || (at.node < |w.live.nodes| && at.node < |w.live.epochs| && at.epoch == w.live.epochs[at.node])
  }

  /** The log of a running instance; of a killed one, without what was proposed to it after its death. */
  function LogOf(w: World, at: Instance): Log
    requires Exists(w, at)
  {
    if at !in w.killed then w.live.nodes[at.node].log
    else if w.killed[at].own <= |w.killed[at].s.log| then w.killed[at].s.log[..w.killed[at].own]
    else w.killed[at].s.log
  }

  /** Two instances, running or killed, whose logs have the same term at an index have the same log up to it. */
  lemma KilledLogMatching(run: WorldRun, n: nat, k: nat, a: Instance, b: Instance, x: int)
    requires ValidWorld(run, n) && k < |run.states| && OneWinner(run.states[k].live.hist)
    requires Exists(run.states[k], a) && Exists(run.states[k], b)
    requires 0 <= x < |LogOf(run.states[k], a)| && x < |LogOf(run.states[k], b)|
    requires LogOf(run.states[k], a)[x].term == LogOf(run.states[k], b)[x].term
    ensures LogOf(run.states[k], a)[..x + 1] == LogOf(run.states[k], b)[..x + 1]
  {
    hide WorldOk, Matches, WinMatched, OwnsLog, CallMatched;
    RunWorldMatched(run, n, k);
    var w := run.states[k];
    assert Matches(LogOf(w, a), w.live.hist.termLogs) && Matches(LogOf(w, b), w.live.hist.termLogs) by {
      assert a in w.killed ==> KilledMatched(w.live.hist, w.killed[a]);
      assert b in w.killed ==> KilledMatched(w.live.hist, w.killed[b]);
    }
    LogMatching(LogOf(w, a), LogOf(w, b), w.live.hist.termLogs, x);
  }

  /** Without commands after its death the whole log of a killed instance is meant. */
  lemma {:induction false} NothingOwn(run: WorldRun, n: nat, k: nat, at: Instance)
    requires ValidWorld(run, n) && k < |run.states| && at in run.states[k].killed
    requires forall j :: 0 <= j < k ==> !(run.moves[j].Late? && run.moves[j].at == at && run.moves[j].a.Propose?)
    ensures run.states[k].killed[at].own == |run.states[k].killed[at].s.log|
  {
    hide WorldOk, Base, Do, Enabled, WorldReady, LateKilled, Taken, NodeReady;
    if k > 0 {
      var w, m := run.states[k - 1], run.moves[k - 1];
      assert Moves(run, k - 1);
      RunWorldOk(run, n, k - 1);
      if at in w.killed {
        NothingOwn(run, n, k - 1, at);
        if m.Late? && m.at == at {
          ReadyForLate(w, at, m.a);
          WorldBase(w);
          if m.a.HandleAppend? {
            PrevKnown(w.live, m.a.append);
          }
          StillNothingOwn(w.killed[at], at.node, |w.live.nodes|, m.a);
        }
      }
    }
  }

  lemma StillNothingOwn(z: Killed, me: nat, n: nat, a: Action)
    requires me < n && NodeReady(z.s, n, a) && !a.Propose? && z.own == |z.s.log|
    requires a.HandleAppend? ==> a.append.args.prev >= 0
    ensures var z' := LateKilled(z, me, n, a); z'.own == |z'.s.log|
  {
    hide Sync, TermRun, CommitFrom, UpToDate, HeldUpto;
    if a.HandleAppend? && Accepts(z.s, a.append.args) {
      AcceptedPrev(z.s.log, a.append.args);
      if a.append.args.entries != [] {
        BatchOver(z.s.log, a.append.args);
      } else {
        SyncNothing(z.s.log, a.append.args.prev + 1);
      }
    }
  }
}
