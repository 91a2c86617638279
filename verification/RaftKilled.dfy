/**
 Killed instances live on. Kill does nothing, so after crash1 the old instance
 still handles requests dispatched to it, still takes replies to its own calls,
 still accepts commands and still feeds its service; only its new calls fail and
 its answers are dropped. A world is a cluster together with all its killed
 instances. What holds of them in every run is here.
 */
module RaftKilled {
  import opened RaftLog
  import opened RaftNode
  import opened RaftCluster
  import opened RaftShape
  import opened RaftTheorems
  import opened RaftApply

  /** A killed instance. */
  datatype Killed = Killed(
    s: Node,
    said: seq<ApplyMsg>,  // all it ever handed to its service
    died: nat,            // its term when it was killed
    own: nat,             // the log below this holds nothing proposed after the death
    late: bool)           // its running candidacy has counted a vote of another election

  datatype World = World(live: Cluster, killed: map<Instance, Killed>)

  /** A step of the cluster, or of one killed instance. */
  datatype Move = Live(a: Action) | Late(at: Instance, a: Action)

  datatype WorldRun = WorldRun(states: seq<World>, moves: seq<Move>)

  function Beginning(n: nat): World {
    World(Init(n), map[])
  }

  predicate LateEnabled(c: Cluster, at: Instance, s: Node, a: Action) {
    match a
    case Elect(i) => i == at.node
    case HandleVote(k) => k in c.votes && k.reply.None? && k.peer == at.node
    case RecvVote(k) => k in c.votes && k.reply.Some? && k.cand == at.node && k.epoch == at.epoch
    case HandleBeat(k) => k in c.beats && k.reply.None? && k.peer == at.node
    case RecvBeat(k) => k in c.beats && k.reply.Some? && k.from == at.node && k.epoch == at.epoch
    case SendAppend(i, p) => i == at.node && p < |c.nodes| && s.role == Leader
    case HandleAppend(k) => k in c.appends && k.reply.None? && k.peer == at.node
    case RecvAppend(k) => k in c.appends && k.reply.Some? && k.from == at.node && k.epoch == at.epoch
    case Propose(i, _) => i == at.node && s.role == Leader
    case ApplyOne(i) => i == at.node && CanApply(s)
    case _ => false
  }

  ghost predicate MoveEnabled(w: World, m: Move)
    requires |w.live.epochs| == |w.live.nodes|
  {
    match m
    case Live(a) => Enabled(w.live, a)
    case Late(at, a) => at in w.killed && LateEnabled(w.live, at, w.killed[at].s, a)
  }

  /** What the killed node becomes. */
  function LateNode(s: Node, me: nat, n: nat, a: Action): Node
    requires me < n && NodeReady(s, n, a)
  {
    match a
    case Elect(_) => StartElection(s, me, n)
    case HandleVote(k) => RequestVote(s, VoteArgs(k.term, k.cand, k.lastIndex, k.lastTerm)).0
    case RecvVote(k) => OnVoteReply(s, me, n, k.term, k.reply.value)
    case HandleBeat(k) => Heartbeat(s, k.term).0
    case RecvBeat(k) => OnBeatReply(s, k.term, k.reply.value)
    case SendAppend(_, p) => ClampNext(s, p)
    case HandleAppend(k) => AppendEntries(s, k.args).0
    case RecvAppend(k) => OnAppendReply(s, me, k.peer, k.args, k.reply.value)
    case Propose(_, cmd) => RaftNode.Propose(s, me, cmd)
    case ApplyOne(_) => s.(lastApplied := s.lastApplied + 1)
    case _ => s
  }

  /** How much of its log an accepted batch leaves in place. */
  function HeldUpto(log: Log, a: AppendArgs): nat {
    if 0 <= a.prev < |log| then a.prev + 1 + TermRun(log[a.prev + 1..], a.entries) else 0
  }

  /** A batch that replaces all that was proposed after the death leaves nothing of it. */
  function LateOwn(z: Killed, s': Node, a: Action): nat {
    if a.HandleAppend? && Accepts(z.s, a.append.args) && a.append.args.entries != []
       && HeldUpto(z.s.log, a.append.args) <= z.own
    then |s'.log| else z.own
  }

  predicate LateVote(z: Killed, a: Action) {
    if a.Elect? then false
    else
      z.late || (a.RecvVote? && a.vote.reply.Some? && a.vote.reply.value.granted && z.s.role == Candidate
                 && a.vote.reply.value.term <= z.s.term && a.vote.term != z.s.term)
  }

  function LateKilled(z: Killed, me: nat, n: nat, a: Action): Killed
    requires me < n && NodeReady(z.s, n, a)
  {
    var s' := LateNode(z.s, me, n, a);
    Killed(s', if a.ApplyOne? && CanApply(z.s) then z.said + [NextMsg(z.s)] else z.said,
           z.died, LateOwn(z, s', a), LateVote(z, a))
  }

  predicate NodeReady(s: Node, n: nat, a: Action) {
    && s.log != [] && s.commitIndex >= 0
    && (s.role == Leader ==> |s.nextIndex| == n && |s.matchIndex| == n)
    && match a
       case RecvVote(k) => k.reply.Some?
       case RecvBeat(k) => k.reply.Some?
       case SendAppend(_, p) => p < n && s.role == Leader
       case Propose(_, _) => s.role == Leader
       case RecvAppend(k) => k.reply.Some? && k.peer < n
       case _ => true
  }

  /** A reply is taken once. */
  function Taken(c: Cluster, a: Action): Cluster {
    match a
    case RecvVote(k) => c.(votes := c.votes - {k})
    case RecvBeat(k) => c.(beats := c.beats - {k})
    case RecvAppend(k) => c.(appends := c.appends - {k})
    case _ => c
  }

  ghost predicate WorldReady(w: World) {
    && Sane(w.live)
    && forall at :: at in w.killed ==> at.node < |w.live.nodes| && NodeOk(w.killed[at].s, |w.live.nodes|)
  }

  lemma ReadyForLate(w: World, at: Instance, a: Action)
    requires WorldReady(w) && MoveEnabled(w, Late(at, a))
    ensures at.node < |w.live.nodes| && NodeReady(w.killed[at].s, |w.live.nodes|, a)
  {
  }

  ghost function DoLate(w: World, at: Instance, a: Action): World
    requires WorldReady(w) && MoveEnabled(w, Late(at, a))
  {
    ReadyForLate(w, at, a);
    World(Taken(w.live, a), w.killed[at := LateKilled(w.killed[at], at.node, |w.live.nodes|, a)])
  }

  function NewlyKilled(c: Cluster, i: nat): Killed
    requires i < |c.nodes| && i < |c.epochs|
  {
    Killed(c.nodes[i], AppliedBy(c.hist, Instance(i, c.epochs[i])), c.nodes[i].term, |c.nodes[i].log|, false)
  }

  /** A restart leaves the old instance behind. */
  ghost function DoLive(w: World, a: Action): World
    requires WorldReady(w) && Enabled(w.live, a)
  {
    World(Do(w.live, a),
          if a.Restart? then
            w.killed[Instance(a.i, w.live.epochs[a.i]) := NewlyKilled(w.live, a.i)]
          else
            w.killed)
  }

  ghost function Next(w: World, m: Move): World
    requires WorldReady(w) && MoveEnabled(w, m)
  {
    match m
    case Live(a) => DoLive(w, a)
    case Late(at, a) => DoLate(w, at, a)
  }

  ghost predicate ValidWorld(run: WorldRun, n: nat) {
    && n >= 1
    && |run.states| == |run.moves| + 1
    && run.states[0] == Beginning(n)
    && forall k :: 0 <= k < |run.moves| ==> Moves(run, k)
  }

  ghost predicate Moves(run: WorldRun, k: nat)
    requires |run.states| == |run.moves| + 1 && k < |run.moves|
  {
    && WorldReady(run.states[k])
    && MoveEnabled(run.states[k], run.moves[k])
    && run.states[k + 1] == Next(run.states[k], run.moves[k])
  }

  /**
   The cluster's steps are timely and in order. Of killed instances only this is
   asked: one whose candidacy counted a vote of another election gets no command.
   */
  ghost predicate OrderlyMove(w: World, m: Move) {
    match m
    case Live(a) => TimelyVote(w.live, a) && TimelyBeat(w.live, a) && InOrderAppend(w.live, a)
    case Late(at, a) => a.Propose? && at in w.killed ==> !w.killed[at].late
  }

  ghost predicate OrderlyWorld(run: WorldRun) {
    forall k :: 0 <= k < |run.moves| && k < |run.states| ==> OrderlyMove(run.states[k], run.moves[k])
  }

  /** All an instance, running or killed, has handed to its service. */
  function SaidBy(w: World, at: Instance): seq<ApplyMsg> {
    if at in w.killed then w.killed[at].said else AppliedBy(w.live.hist, at)
  }

  // ------------------------------------------------------------ in every run

  predicate Mine(at: Instance, k: AppendCall) {
    k.from == at.node && k.epoch == at.epoch
  }

  /** Its calls are of terms it has reached; a candidate has none of its term, a leader's lie in its log. */
  ghost predicate CallFits(at: Instance, s: Node, k: AppendCall) {
    Mine(at, k) ==>
      && k.args.term <= s.term
      && (s.role == Candidate ==> k.args.term != s.term)
      && (s.role == Leader && k.args.term == s.term ==> EndOf(k.args) < |s.log|)
  }

  /** Node i has left term t behind, or only follows in it. */
  predicate Outrun(c: Cluster, i: nat, t: nat) {
    i < |c.nodes| && (c.nodes[i].term > t || (c.nodes[i].term == t && c.nodes[i].role == Follower))
  }

  predicate VoteCallsOld(c: Cluster, at: Instance, t: nat) {
    forall k :: k in c.votes && k.cand == at.node && k.epoch == at.epoch ==> k.term <= t
  }

  ghost predicate NodeFits(c: Cluster, at: Instance, s: Node) {
    && NodeOk(s, |c.nodes|)
    && (forall k :: k in c.appends ==> CallFits(at, s, k))
    && (|c.nodes| == 1 ==> s.commitIndex == 0)
  }

  ghost predicate KilledOk(c: Cluster, at: Instance, z: Killed) {
    && at.node < |c.nodes| && at.node < |c.epochs| && at.epoch < c.epochs[at.node]
    && NodeFits(c, at, z.s)
    && 1 <= z.own <= |z.s.log| && z.died <= z.s.term
    && Outrun(c, at.node, z.died) && VoteCallsOld(c, at, z.died)
    && InSequence(z.said) && |z.said| == z.s.lastApplied
  }

  /** A cluster of one commits nothing: only replies make a leader count. */
  ghost predicate Lone(c: Cluster) {
    |c.nodes| == 1 ==> c.nodes[0].commitIndex == 0
  }

  ghost predicate WorldOk(w: World) {
    && Base(w.live) && AllNumbered(w.live) && Lone(w.live)
    && forall at :: at in w.killed ==> KilledOk(w.live, at, w.killed[at])
  }

  lemma WorldIsReady(w: World)
    requires WorldOk(w)
    ensures WorldReady(w)
  {
    hide NodeOk, InSequence, CallFits, VoteCallsOld;
    BaseIsSane(w.live);
  }

  // ------------------------------------------------------- the cluster moves

  lemma StepLone(c: Cluster, a: Action)
    requires Sane(c) && Enabled(c, a) && Lone(c)
    ensures Lone(Do(c, a))
  {
    hide NodeOk, UpToDate;
    if |c.nodes| == 1 {
      assert c.appends == {};
    }
  }

  /** Calls already sent may gain a reply; new ones come from running instances. */
  lemma OldCalls(c: Cluster, a: Action, k: AppendCall)
    requires Sane(c) && Enabled(c, a) && k in Do(c, a).appends
    ensures (exists o :: o in c.appends && o.from == k.from && o.epoch == k.epoch && o.args == k.args)
         || (k.from < |c.epochs| && k.epoch == c.epochs[k.from])
  {
    hide NodeOk, BuildAppend, AppendEntries, CommitFrom, UpToDate;
    if k in c.appends {
    } else {
      match a
      case HandleAppend(o) => assert o in c.appends;
      case _ =>
    }
  }

  lemma OldVotes(c: Cluster, a: Action, k: VoteCall)
    requires Sane(c) && Enabled(c, a) && k in Do(c, a).votes
    ensures (exists o :: o in c.votes && k == o.(reply := k.reply))
         || (k.cand < |c.epochs| && k.epoch == c.epochs[k.cand] && k.term > c.nodes[k.cand].term)
  {
    hide NodeOk, RequestVote, CommitFrom, UpToDate, AppendEntries;
    if k in c.votes {
      assert k == k.(reply := k.reply);
    } else {
      match a
      case HandleVote(o) => assert o in c.votes && k == o.(reply := k.reply);
      case _ =>
    }
  }

  /** The cluster moves on; the killed instance stays as it is. */
  lemma KilledStays(c: Cluster, a: Action, at: Instance, z: Killed)
    requires Base(c) && Enabled(c, a) && KilledOk(c, at, z)
    ensures Sane(c) && KilledOk(Do(c, a), at, z)
  {
    hide Base, NodeOk, Do, Enabled, InSequence;
    BaseIsSane(c);
    StepRaisesTerm(c, a, at.node);
    forall k | k in Do(c, a).appends
      ensures CallFits(at, z.s, k)
    {
      OldCalls(c, a, k);
      if Mine(at, k) {
        var o :| o in c.appends && o.from == k.from && o.epoch == k.epoch && o.args == k.args;
        assert CallFits(at, z.s, o);
      }
    }
    forall k | k in Do(c, a).votes && k.cand == at.node && k.epoch == at.epoch
      ensures k.term <= z.died
    {
      OldVotes(c, a, k);
    }
  }

  lemma JustKilled(c: Cluster, i: nat)
    requires Base(c) && AllNumbered(c) && Lone(c) && i < |c.nodes| && |c.epochs| == |c.nodes|
    ensures KilledOk(DoRestart(c, i), Instance(i, c.epochs[i]), NewlyKilled(c, i))
  {
    hide EntriesOk, Shape, IndicesValid;
    var at := Instance(i, c.epochs[i]);
    assert Numbered(c, at) && CandidateOk(c, i);
    RestartKeepsDurable(c.nodes[i]);
    forall k | k in c.appends && Mine(at, k)
      ensures CallFits(at, c.nodes[i], k)
    {
      assert AppendCallOk(c, k);
      var w :| w in c.hist.wins && w.term == k.args.term && w.node == i;
      assert WinOk(c, w);
    }
    forall k | k in c.votes && k.cand == i
      ensures k.term <= c.nodes[i].term
    {
      assert VoteCallOk(c, k) && AdvertOk(c, k.term, i);
    }
  }

  lemma LiveOk(w: World, a: Action)
    requires WorldOk(w) && Enabled(w.live, a) && |w.live.nodes| > 0
    ensures WorldReady(w) && WorldOk(DoLive(w, a))
  {
    hide Base, AllNumbered, KilledOk, Do, Enabled, WorldReady, Lone;
    WorldIsReady(w);
    BaseIsSane(w.live);
    StepBase(w.live, a);
    StepNumbered(w.live, a);
    StepLone(w.live, a);
    if a.Restart? {
      RestartIs(w.live, a.i);
    }
    forall at | at in DoLive(w, a).killed
      ensures KilledOk(Do(w.live, a), at, DoLive(w, a).killed[at])
    {
      if a.Restart? && at == Instance(a.i, w.live.epochs[a.i]) {
        JustKilled(w.live, a.i);
      } else {
        KilledStays(w.live, a, at, w.killed[at]);
      }
    }
  }

  lemma RestartIs(c: Cluster, i: nat)
    requires Sane(c) && Enabled(c, Restart(i))
    ensures i < |c.nodes| == |c.epochs| && Do(c, Restart(i)) == DoRestart(c, i)
  {
  }

  // -------------------------------------------------- a killed instance moves

  /** A step of the killed node itself. */
  ghost predicate LateKeeps(c: Cluster, at: Instance, s: Node, s': Node) {
    NodeFits(c, at, s') && s'.term >= s.term
  }

  lemma LateElectionOk(c: Cluster, at: Instance, s: Node, a: Action)
    requires at.node < |c.nodes| && NodeFits(c, at, s) && LateEnabled(c, at, s, a) && NodeReady(s, |c.nodes|, a)
    requires a.Elect? || a.HandleVote? || a.RecvVote?
    ensures LateKeeps(c, at, s, LateNode(s, at.node, |c.nodes|, a))
    ensures LateNode(s, at.node, |c.nodes|, a).lastApplied == s.lastApplied
  {
    hide Shape, UpToDate, LateEnabled;
    var n, me := |c.nodes|, at.node;
    match a
    case Elect(_) =>
      LeaderIsOk(Persist(s.(term := s.term + 1, role := Candidate, votedFor := me, voteCount := 1)), me, n);
    case RecvVote(k) =>
      if s.role == Candidate {
        LeaderIsOk(s.(voteCount := s.voteCount + 1), me, n);
      }
    case HandleVote(k) => VoteKeepsOk(s, VoteArgs(k.term, k.cand, k.lastIndex, k.lastTerm), n);
  }

  lemma LateHandleOk(c: Cluster, at: Instance, s: Node, k: AppendCall)
    requires Base(c) && at.node < |c.nodes| && NodeFits(c, at, s) && k in c.appends && k.peer == at.node
    ensures LateKeeps(c, at, s, AppendEntries(s, k.args).0)
    ensures AppendEntries(s, k.args).0.lastApplied == s.lastApplied
  {
    hide Shape, Sync, Refuses, ConflictOf, AdvertOk, VoteCallOk, CandidateOk, LeaderOk, WinOk;
    assert AppendCallOk(c, k);
    AppendKeepsOk(s, k.args, |c.nodes|);
  }

  lemma LateReplyOk(c: Cluster, at: Instance, s: Node, k: AppendCall)
    requires Base(c) && at.node < |c.nodes| && NodeFits(c, at, s) && k in c.appends && k.reply.Some? && Mine(at, k)
    ensures k.peer < |c.nodes| && LateKeeps(c, at, s, OnAppendReply(s, at.node, k.peer, k.args, k.reply.value))
    ensures OnAppendReply(s, at.node, k.peer, k.args, k.reply.value).lastApplied == s.lastApplied
  {
    hide Shape, CommitFrom, AdvertOk, VoteCallOk, CandidateOk, LeaderOk, WinOk;
    assert AppendCallOk(c, k) && CallFits(at, s, k);
    ReplyKeepsOk(s, at.node, k.peer, k.args, k.reply.value, |c.nodes|);
  }

  lemma LateOtherOk(c: Cluster, at: Instance, s: Node, a: Action)
    requires at.node < |c.nodes| && NodeFits(c, at, s) && LateEnabled(c, at, s, a) && NodeReady(s, |c.nodes|, a)
    requires a.HandleBeat? || a.RecvBeat? || a.SendAppend? || a.ApplyOne? || a.Propose?
    ensures LateKeeps(c, at, s, LateNode(s, at.node, |c.nodes|, a))
    ensures LateNode(s, at.node, |c.nodes|, a).lastApplied == s.lastApplied + if a.ApplyOne? then 1 else 0
  {
    hide Shape;
    if a.Propose? {
      ProposeKeepsOk(s, at.node, a.cmd, |c.nodes|);
    }
  }

  lemma LateNodeOk(c: Cluster, at: Instance, s: Node, a: Action)
    requires Base(c) && at.node < |c.nodes| && NodeFits(c, at, s)
    requires LateEnabled(c, at, s, a) && NodeReady(s, |c.nodes|, a)
    ensures LateKeeps(c, at, s, LateNode(s, at.node, |c.nodes|, a))
    ensures LateNode(s, at.node, |c.nodes|, a).lastApplied == s.lastApplied + if a.ApplyOne? then 1 else 0
  {
    hide Base, NodeFits, LateKeeps, AppendEntries, OnAppendReply;
    match a
    case HandleAppend(k) => LateHandleOk(c, at, s, k);
    case RecvAppend(k) => LateReplyOk(c, at, s, k);
    case Elect(_) => LateElectionOk(c, at, s, a);
    case HandleVote(_) => LateElectionOk(c, at, s, a);
    case RecvVote(_) => LateElectionOk(c, at, s, a);
    case _ => LateOtherOk(c, at, s, a);
  }

  /** An accepted, non-empty batch: what is held stays, the rest is the batch's. */
  lemma BatchOver(log: Log, a: AppendArgs)
    requires 0 <= a.prev < |log| && a.entries != []
    ensures var out, h := Sync(log, a.prev + 1, a.entries), HeldUpto(log, a);
      a.prev < h <= |log| && h <= |out| && out[..h] == log[..h]
  {
    hide TermRun;
    SyncIs(log, a);
  }

  lemma SyncIs(log: Log, a: AppendArgs)
    requires 0 <= a.prev < |log| && a.entries != []
    ensures var k := TermRun(log[a.prev + 1..], a.entries);
      Sync(log, a.prev + 1, a.entries) == log[..a.prev + 1 + k] + a.entries[k..]
  {
    hide TermRun;
  }

  lemma OwnInside(z: Killed, me: nat, n: nat, a: Action)
    requires me < n && NodeReady(z.s, n, a) && 1 <= z.own <= |z.s.log|
    requires a.HandleAppend? ==> a.append.args.prev >= 0
    ensures var z' := LateKilled(z, me, n, a); 1 <= z'.own <= |z'.s.log|
  {
    hide Sync, TermRun, CommitFrom, UpToDate, HeldUpto;
    if a.HandleAppend? && Accepts(z.s, a.append.args) {
      AcceptedPrev(z.s.log, a.append.args);
      if a.append.args.entries != [] {
        BatchOver(z.s.log, a.append.args);
      } else {
        SyncNothing(z.s.log, a.append.args.prev + 1);
      }
    }
  }

  lemma AcceptedPrev(log: Log, a: AppendArgs)
    requires log != [] && a.prev >= 0 && !Refuses(log, a.prev, a.prevTerm)
    ensures a.prev < |log|
  {
  }

  lemma LateOk(w: World, at: Instance, a: Action)
    requires WorldOk(w) && MoveEnabled(w, Late(at, a)) && |w.live.nodes| > 0
    ensures WorldReady(w) && WorldOk(DoLate(w, at, a))
  {
    hide Base, AllNumbered, Lone, NodeOk, CallFits, LateNode, Taken, NodeReady, InSequence,
         LateOwn, LateVote, VoteCallsOld;
    WorldIsReady(w);
    ReadyForLate(w, at, a);
    var c, z := w.live, w.killed[at];
    var w' := DoLate(w, at, a);
    assert KilledOk(c, at, z);
    LateNodeOk(c, at, z.s, a);
    if a.HandleAppend? {
      PrevKnown(c, a.append);
    }
    OwnInside(z, at.node, |c.nodes|, a);
    SaysNext(z, a);
    TakenOk(c, a);
    forall x | x in w'.killed
      ensures KilledOk(w'.live, x, w'.killed[x])
    {
      if x != at {
        assert KilledOk(c, x, w.killed[x]);
      }
      FewerCallsOk(c, Taken(c, a), x, w'.killed[x]);
    }
  }

  lemma PrevKnown(c: Cluster, k: AppendCall)
    requires Base(c) && k in c.appends
    ensures k.args.prev >= 0
  {
    hide Sane, AdvertOk, VoteCallOk, CandidateOk, LeaderOk, WinOk;
    assert AppendCallOk(c, k);
  }

  lemma FewerCallsOk(c: Cluster, c': Cluster, at: Instance, z: Killed)
    requires KilledOk(c, at, z) && c'.nodes == c.nodes && c'.epochs == c.epochs
    requires c'.appends <= c.appends && c'.votes <= c.votes
    ensures KilledOk(c', at, z)
  {
    hide NodeOk, CallFits, InSequence;
  }

  predicate Loses(l: Action) {
    l.LoseVote? || l.LoseBeat? || l.LoseAppend?
  }

  /** Taking a reply is, for the cluster, losing it. */
  lemma TakenIsLost(c: Cluster, a: Action) returns (l: Action)
    requires Sane(c)
    ensures Taken(c, a) == c || (Loses(l) && Enabled(c, l) && Taken(c, a) == Do(c, l))
    ensures Taken(c, a).nodes == c.nodes && Taken(c, a).epochs == c.epochs && Taken(c, a).hist == c.hist
    ensures Taken(c, a).appends <= c.appends && Taken(c, a).votes <= c.votes
  {
    hide NodeOk;
    l := match a
      case RecvVote(k) => LoseVote(k)
      case RecvBeat(k) => LoseBeat(k)
      case RecvAppend(k) => LoseAppend(k)
      case _ => a;
    match a
    case RecvVote(k) => assert k !in c.votes ==> c.votes - {k} == c.votes;
    case RecvBeat(k) => assert k !in c.beats ==> c.beats - {k} == c.beats;
    case RecvAppend(k) => assert k !in c.appends ==> c.appends - {k} == c.appends;
    case _ =>
  }

  lemma TakenOk(c: Cluster, a: Action)
    requires Base(c) && AllNumbered(c) && Lone(c) && |c.nodes| > 0
    ensures Base(Taken(c, a)) && AllNumbered(Taken(c, a)) && Lone(Taken(c, a))
    ensures Taken(c, a).nodes == c.nodes && Taken(c, a).epochs == c.epochs && Taken(c, a).hist == c.hist
    ensures Taken(c, a).appends <= c.appends && Taken(c, a).votes <= c.votes
  {
    hide Base, AllNumbered, Taken, Enabled, Do;
    BaseIsSane(c);
    var l := TakenIsLost(c, a);
    if Taken(c, a) != c {
      StepBase(c, l);
      StepNumbered(c, l);
    }
  }

  lemma SaysNext(z: Killed, a: Action)
    requires InSequence(z.said) && |z.said| == z.s.lastApplied && (a.ApplyOne? ==> CanApply(z.s))
    ensures a.ApplyOne? ==> InSequence(z.said + [NextMsg(z.s)])
  {
  }

  // ------------------------------------------------------------------ theorems

  lemma {:induction false} RunWorldOk(run: WorldRun, n: nat, k: nat)
    requires ValidWorld(run, n) && k < |run.states|
    ensures WorldOk(run.states[k]) && |run.states[k].live.nodes| == n
  {
    hide Base, AllNumbered, KilledOk, MoveEnabled, WorldReady, Next;
    if k == 0 {
      InitBase(n);
      NobodyYet(n);
    } else {
      RunWorldOk(run, n, k - 1);
      assert Moves(run, k - 1);
      MoveOk(run.states[k - 1], run.moves[k - 1]);
    }
  }

  lemma NobodyYet(n: nat)
    ensures AllNumbered(Init(n))
  {
  }

  lemma MoveOk(w: World, m: Move)
    requires WorldOk(w) && MoveEnabled(w, m) && |w.live.nodes| > 0
    ensures WorldReady(w) && WorldOk(Next(w, m)) && |Next(w, m).live.nodes| == |w.live.nodes|
  {
    hide Base, AllNumbered, KilledOk, WorldReady, Do, Enabled, LateEnabled, WorldOk;
    WorldIsReady(w);
    WorldBase(w);
    match m
    case Live(a) =>
      LiveOk(w, a);
      StepBase(w.live, a);
    case Late(at, a) =>
      LateOk(w, at, a);
      BaseIsSane(w.live);
      var l := TakenIsLost(w.live, a);
  }

  lemma WorldBase(w: World)
    requires WorldOk(w)
    ensures Base(w.live)
  {
  }

  function LastWorld(run: WorldRun): World {
    if run.states == [] then Beginning(0) else run.states[|run.states| - 1]
  }

  ghost function ExtendWorld(run: WorldRun, m: Move): WorldRun
    requires WorldReady(LastWorld(run)) && MoveEnabled(LastWorld(run), m)
  {
    WorldRun(run.states + [Next(LastWorld(run), m)], run.moves + [m])
  }

  /** Every enabled move of every reachable world extends the run. */
  lemma WorldNeverStuck(run: WorldRun, n: nat)
    requires ValidWorld(run, n)
    ensures WorldReady(LastWorld(run))
    ensures forall m: Move :: MoveEnabled(LastWorld(run), m) ==> ValidWorld(ExtendWorld(run, m), n)
  {
    hide WorldOk, WorldReady, MoveEnabled, Next;
    RunWorldOk(run, n, |run.moves|);
    WorldIsReady(LastWorld(run));
    HasEpochs(LastWorld(run));
    forall m: Move | MoveEnabled(LastWorld(run), m)
      ensures ValidWorld(ExtendWorld(run, m), n)
    {
      var more := ExtendWorld(run, m);
      forall k | 0 <= k < |more.moves|
        ensures Moves(more, k)
      {
        assert k < |run.moves| ==> Moves(run, k);
      }
    }
  }

  lemma HasEpochs(w: World)
    requires WorldReady(w)
    ensures |w.live.epochs| == |w.live.nodes|
  {
  }

  /** Each instance, before and after it is killed, applies indices 1, 2, 3, ... with no gap. */
  lemma AppliesInOrder(run: WorldRun, n: nat, k: nat, at: Instance, x: nat)
    requires ValidWorld(run, n) && k < |run.states| && x < |SaidBy(run.states[k], at)|
    ensures SaidBy(run.states[k], at)[x].index == x + 1
  {
    hide Base, NodeOk, CallFits, VoteCallsOld;
    RunWorldOk(run, n, k);
    var w := run.states[k];
    if at in w.killed {
      assert KilledOk(w.live, at, w.killed[at]);
    } else {
      assert Numbered(w.live, at);
    }
  }
}
