/**
 Killed instances do go on: a leader is killed while an acknowledgement is on its
 way, takes it, commits by it and applies what it committed. And one that counts a
 vote of another election and is then given a command does harm.
 */
module RaftKilledWitness {
  import opened RaftLog
  import opened RaftNode
  import opened RaftCluster
  import opened RaftSteps
  import opened RaftWitness
  import opened RaftKilled

  /** All moves but this one are orderly. */
  ghost predicate OrderlyBut(run: WorldRun, bad: Move) {
    forall k :: 0 <= k < |run.moves| && k < |run.states| ==>
      run.moves[k] == bad || OrderlyMove(run.states[k], run.moves[k])
  }

  lemma Extended(run: WorldRun, n: nat, m: Move) returns (run': WorldRun)
    requires ValidWorld(run, n) && WorldReady(LastWorld(run)) && MoveEnabled(LastWorld(run), m)
    ensures ValidWorld(run', n) && LastWorld(run') == Next(LastWorld(run), m) && WorldReady(LastWorld(run'))
    ensures run'.moves == run.moves + [m]
    ensures OrderlyWorld(run) && OrderlyMove(LastWorld(run), m) ==> OrderlyWorld(run')
    ensures forall bad: Move :: OrderlyBut(run, bad) && (m == bad || OrderlyMove(LastWorld(run), m)) ==>
      OrderlyBut(run', bad)
  {
    hide WorldReady, MoveEnabled, Next, OrderlyMove;
    WorldNeverStuck(run, n);
    run' := ExtendWorld(run, m);
    WorldNeverStuck(run', n);
    assert forall k :: 0 <= k < |run.moves| ==> run'.states[k] == run.states[k] && run'.moves[k] == run.moves[k];
  }

  /** Every run of the cluster is a run of the world in which the killed stay still. */
  lemma {:induction false} Lifted(run: Run, n: nat, k: nat) returns (r: WorldRun)
    requires Valid(run, n) && Orderly(run) && k < |run.states|
    ensures ValidWorld(r, n) && OrderlyWorld(r) && WorldReady(LastWorld(r)) && LastWorld(r).live == run.states[k]
  {
    hide WorldReady, Enabled, Do, TimelyVote, TimelyBeat, InOrderAppend, Moves;
    if k == 0 {
      r := WorldRun([Beginning(n)], []);
      WorldNeverStuck(r, n);
    } else {
      r := Lifted(run, n, k - 1);
      assert Follows(run, k - 1);
      r := Extended(r, n, Live(run.acts[k - 1]));
    }
  }

  const DEAD := Instance(0, 0)

  /** Node 0 leads, node 1 has its two entries, and the acknowledgement is on its way. */
  lemma AckOnItsWay() returns (run: Run, k: AppendCall)
    ensures Valid(run, 3) && Orderly(run) && Three(Last(run)) && LeadsUnheard(Last(run).nodes[0], TWO)
    ensures k in Last(run).appends && k.from == 0 && k.epoch == 0 && k.peer == 1
    ensures k.args == LONG && k.reply == Some(AppendReply(1, true, Conflict(0, 0)))
  {
    hide Valid, TimelyVotes, TimelyHeartbeats, InOrderAppends, Scene, LeadsUnheard;
    run := SceneBegins();
    assert [SENTINEL] + [E1] == ONE && ONE + [E1] == TWO;
    run := Proposes(run, [SENTINEL], [SENTINEL]);
    run := Proposes(run, ONE, [SENTINEL]);
    var serial: nat;
    run, serial := Ships(run, TWO);
    FirstAckOk(run);
    run := AcceptsBoth(run, Ship(LONG, serial));
    k := Ship(LONG, serial).(reply := Some(AppendReply(1, true, Conflict(0, 0))));
  }

  /** The leader is killed before it arrives. */
  lemma KilledTooEarly() returns (r: WorldRun, k: AppendCall)
    ensures ValidWorld(r, 3) && OrderlyWorld(r) && WorldReady(LastWorld(r)) && |LastWorld(r).live.nodes| == 3
    ensures DEAD in LastWorld(r).killed && LeadsUnheard(LastWorld(r).killed[DEAD].s, TWO)
    ensures k in LastWorld(r).live.appends && k.from == 0 && k.epoch == 0 && k.peer == 1
    ensures k.args == LONG && k.reply == Some(AppendReply(1, true, Conflict(0, 0)))
  {
    hide Valid, Orderly, ValidWorld, OrderlyWorld, LeadsUnheard, WorldReady;
    var run;
    run, k := AckOnItsWay();
    HasStates(run, 3);
    r := Lifted(run, 3, |run.states| - 1);
    r := Extended(r, 3, Live(Restart(0)));
  }

  lemma HasStates(run: Run, n: nat)
    requires Valid(run, n)
    ensures |run.states| > 0
  {
  }

  /** It takes the acknowledgement, commits both entries and applies the first. */
  lemma AppliesAfterDeath() returns (r: WorldRun)
    ensures ValidWorld(r, 3) && OrderlyWorld(r)
    ensures DEAD in LastWorld(r).killed && LastWorld(r).live.epochs != [] && LastWorld(r).live.epochs[0] > 0
    ensures r.moves != [] && r.moves[|r.moves| - 1] == Late(DEAD, ApplyOne(0))
    ensures exists m :: m in SaidBy(LastWorld(r), DEAD) && m.index == 1
  {
    hide ValidWorld, OrderlyWorld, NodeOk, OnAppendReply;
    var k;
    r, k := KilledTooEarly();
    var s := LastWorld(r).killed[DEAD].s;
    CommitsTwo(s);
    r := Extended(r, 3, Late(DEAD, RecvAppend(k)));
    var said := LastWorld(r).killed[DEAD].said;
    s := LastWorld(r).killed[DEAD].s;
    r := Extended(r, 3, Late(DEAD, ApplyOne(0)));
    var w := LastWorld(r);
    assert SaidBy(w, DEAD) == said + [NextMsg(s)];
    assert NextMsg(s) in SaidBy(w, DEAD) && NextMsg(s).index == 1;
    OutlivedBy(r, 3, DEAD);
  }

  lemma OutlivedBy(r: WorldRun, n: nat, at: Instance)
    requires ValidWorld(r, n) && at in LastWorld(r).killed
    ensures at.node < |LastWorld(r).live.epochs| && at.epoch < LastWorld(r).live.epochs[at.node]
  {
    RunWorldOk(r, n, |r.moves|);
    assert KilledOk(LastWorld(r).live, at, LastWorld(r).killed[at]);
  }

  // --------------------------------------------- a late vote, and then a command

  const X := NilCommand
  const EX := Entry(2, X)

  ghost predicate Five(c: Cluster) {
    |c.nodes| == |c.epochs| == 5 && forall i :: 0 <= i < 5 ==> c.epochs[i] == 0
  }

  /** Node 0 stands in term 2; a grant of that election and one of its election before are on their way. */
  ghost predicate Stands(c: Cluster) {
    && Five(c)
    && FaceOf(c.nodes[0]) == Face(Candidate, 2, 0, 1) && c.nodes[0].log == [SENTINEL]
    && c.nodes[0].commitIndex == 0 && c.nodes[0].lastApplied == 0
    && Granted(Ask(0, 1, 1)) in c.votes && Granted(Ask(0, 1, 2)) in c.votes
  }

  /** Node 2 leads term 2 with e; nodes 3 and 4 are known to have it up to m3 and m4. */
  ghost predicate LeadsWith(s: Node, e: Entry, m3: int, m4: int, ci: int) {
    && s.role == Leader && s.term == 2 && s.log == [SENTINEL, e] && s.commitIndex == ci && s.lastApplied == 0
    && |s.nextIndex| == |s.matchIndex| == 5 && s.nextIndex[0] == 1
    && (m3 == 0 ==> s.nextIndex[3] == 1) && (m4 == 0 ==> s.nextIndex[4] == 1)
    && s.matchIndex[0] == 0 && s.matchIndex[1] == 0 && s.matchIndex[3] == m3 && s.matchIndex[4] == m4
  }

  ghost predicate Follows2(s: Node) {
    s.role == Follower && s.term == 2 && s.log == [SENTINEL]
  }

  function Batch(e: Entry, commit: int): AppendArgs {
    AppendArgs(2, 2, 0, 0, [e], commit)
  }

  lemma FiveBegin(e: Entry) returns (run: Run)
    requires e.term == 2
    ensures Valid(run, 5) && Orderly(run) && Stands(Last(run)) && LeadsWith(Last(run).nodes[2], e, 0, 0, 0)
    ensures Follows2(Last(run).nodes[3]) && Follows2(Last(run).nodes[4])
  {
    hide Valid, TimelyVotes, TimelyHeartbeats, InOrderAppends, Sane;
    var r := Begin(5);
    r := ThreeElect(r);
    var before := Last(r).nodes;
    r := TwoGrants(r);
    assert forall i :: 2 <= i < 5 ==> Last(r).nodes[i] == Last(r).nodes[2..][i - 2] == before[2..][i - 2] == before[i];
    run := Step(r, 5, Action.Propose(2, e.cmd));
    assert [SENTINEL] + [e] == [SENTINEL, e];
  }

  lemma SendsTo(run: Run, e: Entry, p: nat, ci: int, m: int) returns (run': Run, k: AppendCall)
    requires Valid(run, 5) && Orderly(run) && Stands(Last(run)) && LeadsWith(Last(run).nodes[2], e, m, m, ci)
    requires p == 0 || (m == 0 && (p == 3 || p == 4))
    ensures Valid(run', 5) && Orderly(run') && Stands(Last(run')) && LeadsWith(Last(run').nodes[2], e, m, m, ci)
    ensures k == AppendCall(2, 0, p, Batch(e, ci), Last(run).serial, None) && k in Last(run').appends
    ensures Last(run).appends <= Last(run').appends
    ensures Last(run').nodes[3..] == Last(run).nodes[3..] && Last(run').hist == Last(run).hist
  {
    hide Valid, TimelyVotes, TimelyHeartbeats, InOrderAppends, Sane;
    var c := Last(run);
    run' := Step(run, 5, SendAppend(2, p));
    assert c.nodes[2].log[1..] == [e];
    assert BuildAppend(c.nodes[2], 2, p) == Batch(e, ci);
    k := AppendCall(2, 0, p, Batch(e, ci), c.serial, None);
    assert Last(run').nodes[3..] == c.nodes[3..];
  }

  lemma TakesBatch(run: Run, e: Entry, k: AppendCall) returns (run': Run)
    requires Valid(run, 5) && Orderly(run) && Stands(Last(run)) && LeadsWith(Last(run).nodes[2], e, 0, 0, 0)
    requires k in Last(run).appends && k.reply.None? && k.args == Batch(e, 0) && (k.peer == 3 || k.peer == 4)
    requires Follows2(Last(run).nodes[k.peer]) && e.term == 2
    ensures Valid(run', 5) && Orderly(run') && Stands(Last(run')) && LeadsWith(Last(run').nodes[2], e, 0, 0, 0)
    ensures Acked(k) in Last(run').appends
    ensures forall o :: o in Last(run).appends && o != k ==> o in Last(run').appends
    ensures k.peer == 3 ==> Last(run').nodes[4] == Last(run).nodes[4]
  {
    hide Valid, TimelyVotes, TimelyHeartbeats, InOrderAppends, Sane, AckOf;
    WholeSuffixIsInOrder(run, 5, 2, k.peer);
    SyncsOne(e);
    run' := Step(run, 5, HandleAppend(k));
  }

  function Acked(k: AppendCall): AppendCall {
    k.(reply := Some(AppendReply(2, true, Conflict(0, 0))))
  }

  lemma SyncsOne(e: Entry)
    ensures Sync([SENTINEL], 1, [e]) == [SENTINEL, e]
    ensures e.term == 2 ==> Sync([SENTINEL, EX], 1, [e]) == [SENTINEL, EX]
  {
    assert [SENTINEL][1..] == [] && [SENTINEL, EX][1..] == [EX];
    if e.term == 2 {
      assert TermRun([EX], [e]) == 1 by {
        assert [EX][1..] == [] && [e][1..] == [];
      }
      assert [SENTINEL, EX][..2] + [e][1..] == [SENTINEL, EX];
    }
  }

  lemma CountsAck(run: Run, e: Entry, k: AppendCall, second: bool) returns (run': Run)
    requires Valid(run, 5) && Orderly(run) && Stands(Last(run)) && e.term == 2
    requires LeadsWith(Last(run).nodes[2], e, if second then 1 else 0, 0, 0)
    requires k in Last(run).appends && k.from == 2 && k.epoch == 0 && k.args == Batch(e, 0)
    requires k.reply == Some(AppendReply(2, true, Conflict(0, 0))) && k.peer == if second then 4 else 3
    ensures Valid(run', 5) && Orderly(run') && Stands(Last(run'))
    ensures LeadsWith(Last(run').nodes[2], e, 1, if second then 1 else 0, if second then 1 else 0)
    ensures forall o :: o in Last(run).appends && o != k ==> o in Last(run').appends
  {
    hide Valid, TimelyVotes, TimelyHeartbeats, InOrderAppends, Sane;
    CountsTo(Last(run).nodes[2], e, k, second);
    hide OnAppendReply;
    run' := Step(run, 5, RecvAppend(k));
  }

  lemma CountsTo(s: Node, e: Entry, k: AppendCall, second: bool)
    requires LeadsWith(s, e, if second then 1 else 0, 0, 0) && e.term == 2 && k.args == Batch(e, 0)
    requires k.peer == if second then 4 else 3
    ensures LeadsWith(OnAppendReply(s, 2, k.peer, k.args, AppendReply(2, true, Conflict(0, 0))), e, 1,
                      if second then 1 else 0, if second then 1 else 0)
  {
    var s1 := Acknowledge(s, k.peer, 1);
    assert CountMatch(s1.matchIndex, 2, 1, 0) == 0;
    assert CountMatch(s1.matchIndex, 2, 1, 1) == 0;
    assert CountMatch(s1.matchIndex, 2, 1, 2) == 0;
    assert CountMatch(s1.matchIndex, 2, 1, 3) == 0;
    assert CountMatch(s1.matchIndex, 2, 1, 4) == 1;
    assert CountMatch(s1.matchIndex, 2, 1, 5) == if second then 2 else 1;
    assert Commits(s1, 2, 1) <==> second;
    assert CommitFrom(s1, 2, 0) == 0;
  }

  /** Node 2 commits and applies e, and sends it with its commit index to node 0, which stands in the same term. */
  lemma RivalCommits(e: Entry) returns (run: Run, k: AppendCall)
    requires e.term == 2
    ensures Valid(run, 5) && Orderly(run) && Stands(Last(run))
    ensures k in Last(run).appends && k.peer == 0 && k.reply.None? && k.args == Batch(e, 1)
    ensures ApplyMsg(1, e.cmd) in AppliedBy(Last(run).hist, Instance(2, 0))
  {
    hide Valid, Orderly, LeadsWith, Stands, Follows2;
    var k3, k4: AppendCall;
    var r := FiveBegin(e);
    StandsHas(Last(r));
    var tail := Last(r).nodes[3..];
    r, k3 := SendsTo(r, e, 3, 0, 0);
    r, k4 := SendsTo(r, e, 4, 0, 0);
    StandsHas(Last(r));
    assert Last(r).nodes[3] == tail[0] && Last(r).nodes[4] == tail[1];
    r := TakesBatch(r, e, k3);
    r := TakesBatch(r, e, k4);
    r := CountsAck(r, e, Acked(k3), false);
    r := CountsAck(r, e, Acked(k4), true);
    r, k := SendsTo(r, e, 0, 1, 1);
    run := Applies(r, e);
  }

  lemma StandsHas(c: Cluster)
    requires Stands(c)
    ensures |c.nodes| == |c.epochs| == 5
  {
  }

  lemma Applies(run: Run, e: Entry) returns (run': Run)
    requires Valid(run, 5) && Orderly(run) && Stands(Last(run)) && LeadsWith(Last(run).nodes[2], e, 1, 1, 1)
    ensures Valid(run', 5) && Orderly(run') && Stands(Last(run')) && Last(run').appends == Last(run).appends
    ensures ApplyMsg(1, e.cmd) in AppliedBy(Last(run').hist, Instance(2, 0))
  {
    hide Valid, TimelyVotes, TimelyHeartbeats, InOrderAppends, Sane;
    run' := Step(run, 5, ApplyOne(2));
    var said := AppliedBy(Last(run').hist, Instance(2, 0));
    assert said[|said| - 1] == ApplyMsg(1, e.cmd);
  }

  const COMMAND := Late(DEAD, Action.Propose(0, X))

  /** What matters of the world: node 0 is dead, the rival's batch waits for it, and the rival has applied e. */
  ghost predicate Doomed(w: World, e: Entry, k: AppendCall) {
    && |w.live.nodes| == 5 && DEAD in w.killed && Instance(2, 0) !in w.killed
    && k in w.live.appends && k.peer == 0 && k.reply.None? && k.args == Batch(e, 1)
    && ApplyMsg(1, e.cmd) in AppliedBy(w.live.hist, Instance(2, 0))
  }

  ghost predicate IdleAs(s: Node, role: Role, count: nat, log: Log, ci: int) {
    s.role == role && s.term == 2 && s.voteCount == count && s.log == log && s.commitIndex == ci && s.lastApplied == 0
  }

  lemma RivalThenDeath(e: Entry) returns (r: WorldRun, k: AppendCall)
    requires e.term == 2
    ensures ValidWorld(r, 5) && OrderlyBut(r, COMMAND) && WorldReady(LastWorld(r)) && Doomed(LastWorld(r), e, k)
    ensures IdleAs(LastWorld(r).killed[DEAD].s, Candidate, 1, [SENTINEL], 0)
    ensures Granted(Ask(0, 1, 1)) in LastWorld(r).live.votes && Granted(Ask(0, 1, 2)) in LastWorld(r).live.votes
  {
    hide ValidWorld, OrderlyWorld, OrderlyBut, NodeOk, Valid, Orderly;
    var run;
    run, k := RivalCommits(e);
    HasStates(run, 5);
    r := Lifted(run, 5, |run.states| - 1);
    StillAlive(r, 5, Instance(2, 0));
    OrderlyIsBut(r, COMMAND);
    r := Extended(r, 5, Live(Restart(0)));
  }

  lemma OrderlyIsBut(r: WorldRun, bad: Move)
    requires OrderlyWorld(r)
    ensures OrderlyBut(r, bad)
  {
  }

  lemma StillAlive(r: WorldRun, n: nat, at: Instance)
    requires ValidWorld(r, n) && at.node < |LastWorld(r).live.epochs| && at.epoch >= LastWorld(r).live.epochs[at.node]
    ensures at !in LastWorld(r).killed
  {
    if at in LastWorld(r).killed {
      OutlivedBy(r, n, at);
    }
  }

  /** One more step of the dead node that takes nothing of what matters. */
  lemma DeadMove(r: WorldRun, e: Entry, k: AppendCall, a: Action) returns (r': WorldRun)
    requires ValidWorld(r, 5) && OrderlyBut(r, COMMAND) && WorldReady(LastWorld(r)) && Doomed(LastWorld(r), e, k)
    requires LateEnabled(LastWorld(r).live, DEAD, LastWorld(r).killed[DEAD].s, a) && !a.RecvAppend?
    requires a.Propose? ==> Late(DEAD, a) == COMMAND
    ensures ValidWorld(r', 5) && OrderlyBut(r', COMMAND) && WorldReady(LastWorld(r')) && Doomed(LastWorld(r'), e, k)
    ensures NodeReady(LastWorld(r).killed[DEAD].s, 5, a)
    ensures LastWorld(r').killed[DEAD] == LateKilled(LastWorld(r).killed[DEAD], 0, 5, a)
    ensures forall o :: o in LastWorld(r).live.votes && !(a.RecvVote? && a.vote == o) ==> o in LastWorld(r').live.votes
  {
    hide ValidWorld, OrderlyBut, WorldReady, LateKilled, LateEnabled, NodeReady;
    ReadyForLate(LastWorld(r), DEAD, a);
    r' := Extended(r, 5, Late(DEAD, a));
  }

  /** The killed candidate counts both grants, the late one first, and leads. */
  lemma LeadsAfterDeath(e: Entry) returns (r: WorldRun, k: AppendCall)
    requires e.term == 2
    ensures ValidWorld(r, 5) && OrderlyBut(r, COMMAND) && WorldReady(LastWorld(r)) && Doomed(LastWorld(r), e, k)
    ensures IdleAs(LastWorld(r).killed[DEAD].s, Leader, 3, [SENTINEL], 0)
  {
    hide ValidWorld, OrderlyBut, WorldReady, Doomed;
    r, k := RivalThenDeath(e);
    r := DeadMove(r, e, k, RecvVote(Granted(Ask(0, 1, 1))));
    r := DeadMove(r, e, k, RecvVote(Granted(Ask(0, 1, 2))));
  }

  /** The condition is needed: given a command then, it keeps it where node 2 committed another, and applies it. */
  lemma CommandAfterLateVote(e: Entry) returns (r: WorldRun, m: ApplyMsg, m': ApplyMsg)
    requires e.term == 2 && e.cmd != X
    ensures ValidWorld(r, 5) && OrderlyBut(r, COMMAND)
    ensures m in SaidBy(LastWorld(r), DEAD) && m' in SaidBy(LastWorld(r), Instance(2, 0))
    ensures m.index == m'.index && m.cmd != m'.cmd
  {
    hide ValidWorld, OrderlyBut, WorldReady, Sync;
    var k;
    r, k := LeadsAfterDeath(e);
    r := DeadMove(r, e, k, Action.Propose(0, X));
    assert [SENTINEL] + [EX] == [SENTINEL, EX];
    assert LastWorld(r).killed[DEAD].s.log == [SENTINEL, EX];
    SyncsOne(e);
    r := DeadMove(r, e, k, HandleAppend(k));
    assert IdleAs(LastWorld(r).killed[DEAD].s, Follower, 3, [SENTINEL, EX], 1);
    r := DeadMove(r, e, k, ApplyOne(0));
    var said := SaidBy(LastWorld(r), DEAD);
    m := ApplyMsg(1, X);
    assert said[|said| - 1] == m;
    m' := ApplyMsg(1, e.cmd);
  }
}
